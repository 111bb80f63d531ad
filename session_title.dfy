/**
  How a session title is displayed in the sidebar (`SessionTitle.jsx`): a placeholder for a
  missing or blank title, otherwise the title cut to 35 characters with an ellipsis.
 */
module SessionTitle {
  import opened Wrappers
  import opened Text

  const MaxTitleLength: nat := 35
  const Ellipsis: string := "..."
  const NewConversation: string := "New Conversation"

  /** What the component renders: the sparkle placeholder, or the (possibly cut) title. */
  datatype TitleView = Placeholder | Shown(text: string)
  {
    /** The visible text. */
    function Text(): string {
      match this
      case Placeholder => NewConversation
      case Shown(text) => text
    }
  }

  /** `truncate(text, maxLength)`: unchanged when it fits, else its first `maxLength` characters and "...". */
  function Truncate(text: string, maxLength: nat): (r: string)
    ensures |text| <= maxLength ==> r == text
    ensures |text| > maxLength ==> |r| == maxLength + |Ellipsis| && r[maxLength..] == Ellipsis
    ensures |r| <= maxLength + |Ellipsis|
    ensures |r| >= |text| || |r| == maxLength + |Ellipsis|
    ensures var keep := if |text| < maxLength then |text| else maxLength; r[..keep] == text[..keep]
  {
    if |text| <= maxLength then text else text[..maxLength] + Ellipsis
  }

  /** Cutting an already cut title changes nothing. */
  lemma TruncateIdempotent(text: string, maxLength: nat)
    ensures Truncate(Truncate(text, maxLength), maxLength) == Truncate(text, maxLength)
  {
    var once := Truncate(text, maxLength);
    if |text| > maxLength {
      assert once[..maxLength] == text[..maxLength];
      assert once[..maxLength] + Ellipsis == once;
    }
  }

  /**
    The component: the placeholder when the title is missing or blank (after JavaScript's
    `trim`), otherwise the untrimmed title cut to 35 characters.
   */
  function DisplayTitle(title: Option<string>): (v: TitleView)
    ensures v.Placeholder? <==> title.None? || IsBlank(title.value, IsJsSpace)
    ensures v.Shown? ==> v.text == Truncate(title.value, MaxTitleLength)
  {
    if title.None? || title.value == [] || JsTrim(title.value) == [] then Placeholder
    else Shown(Truncate(title.value, MaxTitleLength))
  }

  /** A shown title is at most 38 characters and starts with the title's first min(length, 35) characters. */
  lemma DisplayTitleBounds(title: string)
    requires !IsBlank(title, IsJsSpace)
    ensures DisplayTitle(Some(title)).Shown?
    ensures |title| <= MaxTitleLength ==> DisplayTitle(Some(title)).text == title
    ensures |title| > MaxTitleLength ==> DisplayTitle(Some(title)).text == title[..MaxTitleLength] + Ellipsis
    ensures |DisplayTitle(Some(title)).text| <= 38
  {
    var v := DisplayTitle(Some(title));
    if |title| > MaxTitleLength {
      assert v.text[..MaxTitleLength] == title[..MaxTitleLength];
      assert v.text == v.text[..MaxTitleLength] + v.text[MaxTitleLength..];
    }
  }
}
