/**
  The reply pipeline of the backend: cleaning a model reply, choosing the sampling
  temperature from the detected emotion, generating a session title from the last exchange,
  and `analyze_and_respond`, which builds the chat-model context and decides when the stored
  session title is replaced. The classifiers, the chat model, the title model and the
  session store are parameters.
 */
module AiCore {
  import opened Wrappers
  import opened Text

  // ---------------------------------------------------------------------------------------
  // format_gpt_reply

  /** No three consecutive newline characters occur in `s`. */
  predicate NoTripleNewline(s: string) {
    forall i :: 0 <= i < |s| - 2 ==> !(s[i] == '\n' && s[i + 1] == '\n' && s[i + 2] == '\n')
  }

  /** Length of the run of newlines that `s` starts with. */
  function LeadingNewlines(s: string): (n: nat)
    ensures n <= |s|
    ensures forall i :: 0 <= i < n ==> s[i] == '\n'
    ensures n < |s| ==> s[n] != '\n'
    ensures |s| > 0 && s[0] == '\n' ==> n >= 1
  {
    if |s| > 0 && s[0] == '\n' then 1 + LeadingNewlines(s[1..]) else 0
  }

  /**
    `re.sub(r'\n{3,}', '\n\n', s)`: scanning from the left, every maximal run of three or
    more newlines becomes exactly two; shorter runs and all other characters are kept.
   */
  function CollapseNewlineRuns(s: string): string
    decreases |s|
  {
    if s == [] then []
    else if s[0] != '\n' then [s[0]] + CollapseNewlineRuns(s[1..])
    else
      var n := LeadingNewlines(s);
      (if n >= 3 then "\n\n" else s[..n]) + CollapseNewlineRuns(s[n..])
  }

  lemma NoTripleNewlineSlice(s: string, a: nat, b: nat)
    requires a <= b <= |s| && NoTripleNewline(s)
    ensures NoTripleNewline(s[a..b])
  {
    var t := s[a..b];
    forall i | 0 <= i < |t| - 2 ensures !(t[i] == '\n' && t[i + 1] == '\n' && t[i + 2] == '\n') {
      assert t[i] == s[a + i] && t[i + 1] == s[a + i + 1] && t[i + 2] == s[a + i + 2];
    }
  }

  /** Joining two triple-free strings at a boundary that is not newline on both sides keeps it triple-free. */
  lemma NoTripleNewlineJoin(p: string, t: string)
    requires NoTripleNewline(p) && NoTripleNewline(t)
    requires p == [] || t == [] || p[|p| - 1] != '\n' || t[0] != '\n'
    ensures NoTripleNewline(p + t)
  {
    var s := p + t;
    forall i | 0 <= i < |s| - 2 ensures !(s[i] == '\n' && s[i + 1] == '\n' && s[i + 2] == '\n') {
      if i + 2 < |p| {
        assert s[i] == p[i] && s[i + 1] == p[i + 1] && s[i + 2] == p[i + 2];
      } else if i >= |p| {
        assert s[i] == t[i - |p|] && s[i + 1] == t[i - |p| + 1] && s[i + 2] == t[i - |p| + 2];
      } else {
        assert s[|p| - 1] == p[|p| - 1] && s[|p|] == t[0];
      }
    }
  }

  /** After the rewrite no three newlines are adjacent; the result starts with a newline only if `s` does. */
  lemma {:induction false} CollapseLeavesNoTripleNewline(s: string)
    ensures NoTripleNewline(CollapseNewlineRuns(s))
    ensures CollapseNewlineRuns(s) != [] && CollapseNewlineRuns(s)[0] == '\n' ==> s != [] && s[0] == '\n'
    decreases |s|
  {
    if s == [] {
    } else if s[0] != '\n' {
      CollapseLeavesNoTripleNewline(s[1..]);
      NoTripleNewlineJoin([s[0]], CollapseNewlineRuns(s[1..]));
    } else {
      var n := LeadingNewlines(s);
      CollapseLeavesNoTripleNewline(s[n..]);
      var run: string := if n >= 3 then "\n\n" else s[..n];
      var rest := CollapseNewlineRuns(s[n..]);
      if n < |s| {
        assert s[n..][0] == s[n];
      }
      NoTripleNewlineJoin(run, rest);
    }
  }

  /** The rewrite changes nothing in a string that has no run of three newlines. */
  lemma {:induction false} CollapseFixesTripleFree(s: string)
    requires NoTripleNewline(s)
    ensures CollapseNewlineRuns(s) == s
    decreases |s|
  {
    if s == [] {
    } else if s[0] != '\n' {
      NoTripleNewlineSlice(s, 1, |s|);
      CollapseFixesTripleFree(s[1..]);
      assert [s[0]] + s[1..] == s;
    } else {
      var n := LeadingNewlines(s);
      assert |s| >= 3 ==> !(s[0] == '\n' && s[1] == '\n' && s[2] == '\n');
      NoTripleNewlineSlice(s, n, |s|);
      CollapseFixesTripleFree(s[n..]);
      assert s[..n] + s[n..] == s;
    }
  }

  /** Stripping the ends of a triple-free string keeps it triple-free. */
  lemma StripKeepsTripleFree(s: string, isSpace: char -> bool)
    requires NoTripleNewline(s)
    ensures NoTripleNewline(Strip(s, isSpace))
  {
    var t := TrimStart(s, isSpace);
    TrimStartIsSuffix(s, isSpace);
    NoTripleNewlineSlice(s, |s| - |t|, |s|);
    var r := TrimEnd(t, isSpace);
    TrimEndIsPrefix(t, isSpace);
    NoTripleNewlineSlice(t, 0, |r|);
    assert Strip(s, isSpace) == r;
  }

  /** `format_gpt_reply`: collapse newline runs, then strip both ends. */
  function FormatGptReply(text: string): (r: string)
    ensures NoTripleNewline(r)
    ensures IsStripped(r, IsPySpace)
  {
    CollapseLeavesNoTripleNewline(text);
    StripKeepsTripleFree(CollapseNewlineRuns(text), IsPySpace);
    PyStrip(CollapseNewlineRuns(text))
  }

  /** Cleaning a reply twice gives the same text as cleaning it once. */
  lemma FormatGptReplyIdempotent(text: string)
    ensures FormatGptReply(FormatGptReply(text)) == FormatGptReply(text)
  {
    var once := FormatGptReply(text);
    CollapseFixesTripleFree(once);
    StripStripped(once, IsPySpace);
  }

  // ---------------------------------------------------------------------------------------
  // adjust_temperature

  /** Sampling temperature for the chat model, chosen by the text-emotion score. */
  function AdjustTemperature(emotionScore: real): (temp: real)
    ensures temp in {0.45, 0.6, 0.75, 0.9}
    ensures temp == 0.9 <==> emotionScore >= 0.75
    ensures temp == 0.75 <==> 0.5 <= emotionScore < 0.75
    ensures temp == 0.6 <==> 0.3 <= emotionScore < 0.5
    ensures temp == 0.45 <==> emotionScore < 0.3
  {
    if emotionScore >= 0.75 then 0.9
    else if emotionScore >= 0.5 then 0.75
    else if emotionScore >= 0.3 then 0.6
    else 0.45
  }

  /** A higher emotion score never gives a lower temperature. */
  lemma AdjustTemperatureMonotone(a: real, b: real)
    requires a <= b
    ensures AdjustTemperature(a) <= AdjustTemperature(b)
  {
  }

  // ---------------------------------------------------------------------------------------
  // _generate_title

  datatype Role = System | User | Assistant

  /** One entry of the chat-model context: `{"role": ..., "content": ...}`. */
  datatype ChatEntry = ChatEntry(role: Role, content: string)

  /** `[msg['content'] for msg in history if msg['role'] == role]`. */
  function ContentsOf(history: seq<ChatEntry>, role: Role): seq<string>
  {
    if history == [] then []
    else
      var last := history[|history| - 1];
      ContentsOf(history[..|history| - 1], role) + (if last.role == role then [last.content] else [])
  }

  /** `contents[-1] if contents else ""` over the contents of `role`. */
  function LastContentOf(history: seq<ChatEntry>, role: Role): string
  {
    var contents := ContentsOf(history, role);
    if contents == [] then "" else contents[|contents| - 1]
  }

  /** Entry `i` has `role` and no later entry has it. */
  ghost predicate IsLastOfRole(history: seq<ChatEntry>, role: Role, i: int) {
    0 <= i < |history| && history[i].role == role
    && forall j :: i < j < |history| ==> history[j].role != role
  }

  /** With no entry of `role`, the content picked for it is "". */
  lemma {:induction false} LastContentOfAbsent(history: seq<ChatEntry>, role: Role)
    requires forall i :: 0 <= i < |history| ==> history[i].role != role
    ensures LastContentOf(history, role) == ""
    decreases |history|
  {
    if history != [] {
      var init := history[..|history| - 1];
      assert forall i :: 0 <= i < |init| ==> init[i] == history[i];
      LastContentOfAbsent(init, role);
    }
  }

  /** The content picked for `role` is that of its last entry. */
  lemma {:induction false} LastContentOfIsLastEntry(history: seq<ChatEntry>, role: Role, i: int)
    requires IsLastOfRole(history, role, i)
    ensures LastContentOf(history, role) == history[i].content
    decreases |history|
  {
    var init := history[..|history| - 1];
    if i < |history| - 1 {
      assert forall j :: i < j < |init| ==> init[j] == history[j];
      assert IsLastOfRole(init, role, i);
      LastContentOfIsLastEntry(init, role, i);
    }
  }

  /** Appending one entry changes the last content of its own role only. */
  lemma LastContentOfAppend(history: seq<ChatEntry>, e: ChatEntry, role: Role)
    ensures LastContentOf(history + [e], role) == if e.role == role then e.content else LastContentOf(history, role)
  {
    assert (history + [e])[..|history|] == history;
  }

  const TitleFallback: string := "Conversation"

  /** The instruction sent to the title model. */
  function TitlePrompt(userMessage: string, botMessage: string): string {
    "Create a very short (2-4 words) title summarizing this conversation exchange:\n"
    + "User: " + userMessage + "\n"
    + "Assistant: " + botMessage + "\n\n"
    + "Title:"
  }

  /**
    The title for one exchange: the title model's answer, stripped, or "Conversation" when
    that is blank or the model call raised (`titleModel` gives None).
   */
  function TitleForExchange(userMessage: string, botMessage: string, titleModel: string -> Option<string>): (title: string)
    ensures title != []
    ensures IsStripped(title, IsPySpace)
    ensures titleModel(TitlePrompt(userMessage, botMessage)).None? ==> title == TitleFallback
    ensures match titleModel(TitlePrompt(userMessage, botMessage))
            case None => true
            case Some(t) => title == (if IsBlank(t, IsPySpace) then TitleFallback else PyStrip(t))
  {
    match titleModel(TitlePrompt(userMessage, botMessage))
    case None => TitleFallback
    case Some(t) => if PyStrip(t) == [] then TitleFallback else PyStrip(t)
  }

  /** `_generate_title`: the title for the last user turn and the last assistant turn. */
  function GenerateTitle(history: seq<ChatEntry>, titleModel: string -> Option<string>): (title: string)
    ensures title != []
    ensures IsStripped(title, IsPySpace)
  {
    TitleForExchange(LastContentOf(history, User), LastContentOf(history, Assistant), titleModel)
  }

  /** Two histories with the same last user and last assistant turns get the same title. */
  lemma GenerateTitleDependsOnLastTurns(h1: seq<ChatEntry>, h2: seq<ChatEntry>, titleModel: string -> Option<string>)
    requires LastContentOf(h1, User) == LastContentOf(h2, User)
    requires LastContentOf(h1, Assistant) == LastContentOf(h2, Assistant)
    ensures GenerateTitle(h1, titleModel) == GenerateTitle(h2, titleModel)
  {
  }

  // ---------------------------------------------------------------------------------------
  // analyze_and_respond

  /** A classifier answer `{"label": ..., "score": ...}`; `name` holds the label. */
  datatype Emotion = Emotion(name: string, score: real)

  const UnknownTone: Emotion := Emotion("Unknown", 0.0)
  const NeutralText: Emotion := Emotion("neutral", 0.0)
  const ProcessingFailed: string := "Error: Processing failed"
  /** The title `create_new_session` gives every new session. */
  const UntitledSession: string := "Untitled Session"
  const MindfulMoment: string := "Mindful Moment"

  /** One stored turn of a session. */
  datatype Interaction = Interaction(userInput: string, gptResponse: string)

  /** A session document `conversations/{userId}/sessions/{sessionId}`. */
  datatype SessionKey = SessionKey(userId: string, sessionId: string)

  /** The JSON object `analyze_and_respond` returns. */
  datatype Analysis = Analysis(gptResponse: string, textEmotion: Emotion, toneEmotion: Emotion)

  /**
    The external services, each giving None where the call raises: whether a file exists,
    the audio tone classifier, the text emotion classifier (a list of label lists), the chat
    model (context and temperature to reply text) and the title model.
   */
  datatype Services = Services(
    fileExists: string -> bool,
    toneClassifier: string -> Option<seq<Emotion>>,
    textClassifier: string -> Option<seq<seq<Emotion>>>,
    chatModel: (seq<ChatEntry>, real) -> Option<string>,
    titleModel: string -> Option<string>)

  /**
    `max(emotions, key=lambda x: x['score'])`: the index of the first element with the
    highest score (Python's `max` keeps the earliest of equal maxima).
   */
  function MaxScoreIndex(emotions: seq<Emotion>): (k: nat)
    requires |emotions| > 0
    ensures k < |emotions|
    ensures forall j :: 0 <= j < |emotions| ==> emotions[j].score <= emotions[k].score
    ensures forall j :: 0 <= j < k ==> emotions[j].score < emotions[k].score
  {
    if |emotions| == 1 then 0
    else
      var k := MaxScoreIndex(emotions[..|emotions| - 1]);
      assert forall j :: 0 <= j < |emotions| - 1 ==> emotions[j] == emotions[..|emotions| - 1][j];
      if emotions[|emotions| - 1].score > emotions[k].score then |emotions| - 1 else k
  }

  /** The text classifier answered with a non-empty first label list. */
  predicate TextClassified(answer: Option<seq<seq<Emotion>>>) {
    answer.Some? && |answer.value| > 0 && |answer.value[0]| > 0
  }

  /** Tone analysis runs and yields a label: a truthy path to an existing file and a non-empty classifier answer. */
  predicate ToneClassified(audioPath: Option<string>, services: Services) {
    audioPath.Some? && audioPath.value != [] && services.fileExists(audioPath.value)
    && services.toneClassifier(audioPath.value).Some?
    && |services.toneClassifier(audioPath.value).value| > 0
  }

  /** The system instruction, ending with the detected text emotion. */
  function SystemPrompt(emotionLabel: string): string {
    "You are a warm, emotionally intelligent assistant. "
    + "Your personality is friendly, calm, and adaptive. "
    + "Respond naturally like a trusted friend.\n\n"
    + "Rules:\n"
    + "- Be empathetic but not clinical\n"
    + "- Keep responses concise and human\n"
    + "- Never repeat the user's exact words\n"
    + "- Current emotional tone: " + emotionLabel
  }

  /** A generated title replaces "Untitled Session" only when it is non-empty and not "Mindful Moment". */
  predicate ReplacesTitle(newTitle: string) {
    newTitle != [] && newTitle != MindfulMoment
  }

  /** The tone emotion the turn reports: the audio classifier's first label, or "Unknown" with score 0. */
  predicate ToneChosen(audioPath: Option<string>, services: Services, tone: Emotion) {
    if ToneClassified(audioPath, services) then tone == services.toneClassifier(audioPath.value).value[0]
    else tone == UnknownTone
  }

  /**
    The text emotion the turn reports: the first of the highest-scoring labels of the first
    list, or "neutral" with score 0.
   */
  predicate TextEmotionChosen(answer: Option<seq<seq<Emotion>>>, emotion: Emotion) {
    if TextClassified(answer) then emotion == answer.value[0][MaxScoreIndex(answer.value[0])]
    else emotion == NeutralText
  }

  /** The chosen text emotion is a label of the first list, and none of its labels scores higher. */
  lemma TextEmotionIsTopScoring(answer: Option<seq<seq<Emotion>>>, emotion: Emotion)
    requires TextClassified(answer) && TextEmotionChosen(answer, emotion)
    ensures emotion in answer.value[0]
    ensures forall e :: e in answer.value[0] ==> e.score <= emotion.score
  {
    var labels := answer.value[0];
    var k := MaxScoreIndex(labels);
    forall e | e in labels
      ensures e.score <= emotion.score
    {
      var j :| 0 <= j < |labels| && labels[j] == e;
    }
  }

  /** Of two labels with the same top score, the one listed first is reported. */
  lemma TextEmotionTieGoesToFirst(emotion: Emotion)
    requires TextEmotionChosen(Some([[Emotion("joy", 0.5), Emotion("sadness", 0.5)]]), emotion)
    ensures emotion.name == "joy"
  {
    var labels := [Emotion("joy", 0.5), Emotion("sadness", 0.5)];
    assert labels[1].score <= labels[0].score;
  }

  /** The shape of the chat-model context. */
  predicate IsContext(messages: seq<ChatEntry>, systemPrompt: string, interactions: seq<Interaction>, userInput: string) {
    && |messages| == 2 * |interactions| + 2
    && messages[0] == ChatEntry(System, systemPrompt)
    && (forall k :: 0 <= k < |interactions| ==>
         messages[2 * k + 1] == ChatEntry(User, interactions[k].userInput)
         && messages[2 * k + 2] == ChatEntry(Assistant, interactions[k].gptResponse))
    && messages[|messages| - 1] == ChatEntry(User, userInput)
  }

  /** The store after the title rule: only an "Untitled Session" entry is replaced, and only by a title `ReplacesTitle` accepts. */
  predicate TitleRuleApplied(key: SessionKey, titles: map<SessionKey, string>, title: string, newTitles: map<SessionKey, string>) {
    newTitles == if key in titles && titles[key] == UntitledSession && ReplacesTitle(title)
                 then titles[key := title] else titles
  }

  /** The tone step: a label from the audio classifier, or "Unknown" with score 0 when there is none. */
  method ClassifyTone(audioPath: Option<string>, services: Services) returns (tone: Emotion)
    ensures ToneChosen(audioPath, services, tone)
  {
    tone := UnknownTone;
    if audioPath.Some? && audioPath.value != [] && services.fileExists(audioPath.value) {
      var toneResult := services.toneClassifier(audioPath.value);
      if toneResult.Some? && |toneResult.value| > 0 {
        tone := toneResult.value[0];
      }
    }
  }

  /** The text step: the first highest-scoring label, or "neutral" with score 0 when classification fails. */
  method ClassifyText(userInput: string, services: Services) returns (emotion: Emotion)
    ensures TextEmotionChosen(services.textClassifier(userInput), emotion)
  {
    emotion := NeutralText;
    var textResult := services.textClassifier(userInput);
    if textResult.Some? && |textResult.value| > 0 && |textResult.value[0]| > 0 {
      var labels := textResult.value[0];
      var k := MaxScoreIndex(labels);
      emotion := labels[k];
    }
  }

  /** The chat-model context: the system prompt, each stored turn as a user then an assistant entry, then the new input. */
  method BuildContext(systemPrompt: string, interactions: seq<Interaction>, userInput: string)
    returns (messages: seq<ChatEntry>)
    ensures IsContext(messages, systemPrompt, interactions, userInput)
  {
    messages := [ChatEntry(System, systemPrompt)];
    var i := 0;
    while i < |interactions|
      invariant 0 <= i <= |interactions|
      invariant |messages| == 2 * i + 1
      invariant messages[0] == ChatEntry(System, systemPrompt)
      invariant forall k :: 0 <= k < i ==>
        messages[2 * k + 1] == ChatEntry(User, interactions[k].userInput)
        && messages[2 * k + 2] == ChatEntry(Assistant, interactions[k].gptResponse)
    {
      messages := messages + [ChatEntry(User, interactions[i].userInput)];
      messages := messages + [ChatEntry(Assistant, interactions[i].gptResponse)];
      i := i + 1;
    }
    messages := messages + [ChatEntry(User, userInput)];
  }

  /**
    The title step: when the stored title is "Untitled Session", a title is generated from
    the context followed by the reply, and it replaces the stored one when `ReplacesTitle`
    holds. Any other store state is left as it is.
   */
  method UpdateTitleIfUntitled(
    key: SessionKey, messages: seq<ChatEntry>, userInput: string, gptResponse: string,
    titles: map<SessionKey, string>, titleModel: string -> Option<string>)
    returns (newTitles: map<SessionKey, string>)
    requires |messages| > 0 && messages[|messages| - 1] == ChatEntry(User, userInput)
    ensures TitleRuleApplied(key, titles, TitleForExchange(userInput, gptResponse, titleModel), newTitles)
  {
    newTitles := titles;
    if key in titles && titles[key] == UntitledSession {
      var history := messages + [ChatEntry(Assistant, gptResponse)];
      LastContentOfAppend(messages, ChatEntry(Assistant, gptResponse), User);
      LastContentOfAppend(messages, ChatEntry(Assistant, gptResponse), Assistant);
      LastContentOfAppend(messages[..|messages| - 1], ChatEntry(User, userInput), User);
      assert messages[..|messages| - 1] + [ChatEntry(User, userInput)] == messages;
      var newTitle := GenerateTitle(history, titleModel);
      if newTitle != [] && newTitle != MindfulMoment {
        newTitles := titles[key := newTitle];
      }
    }
  }

  /** The reply the turn reports: "Error: Processing failed" when the chat model raises, else the cleaned reply. */
  function ReplyText(answer: Option<string>): (r: string)
    ensures answer.None? ==> r == ProcessingFailed
    ensures answer.Some? ==> NoTripleNewline(r) && IsStripped(r, IsPySpace)
  {
    match answer
    case None => ProcessingFailed
    case Some(reply) => FormatGptReply(reply)
  }

  /** The reply step: one chat-model call on the context. */
  method RequestReply(messages: seq<ChatEntry>, temperature: real, services: Services) returns (gptResponse: string)
    ensures gptResponse == ReplyText(services.chatModel(messages, temperature))
  {
    gptResponse := ProcessingFailed;
    var reply := services.chatModel(messages, temperature);
    if reply.Some? {
      gptResponse := FormatGptReply(reply.value);
    }
  }

  /**
    `analyze_and_respond` for one user turn. `interactions` is what the store holds for the
    session and `titles` the stored session titles; `newTitles` is the store afterwards.
    The reply is "Error: Processing failed" when the chat model raises, else the cleaned reply.
   */
  method AnalyzeAndRespond(
    userId: string, sessionId: string, userInput: string, audioPath: Option<string>,
    interactions: seq<Interaction>, titles: map<SessionKey, string>, services: Services)
    returns (result: Analysis, messages: seq<ChatEntry>, temperature: real, newTitles: map<SessionKey, string>)
    ensures ToneChosen(audioPath, services, result.toneEmotion)
    ensures TextEmotionChosen(services.textClassifier(userInput), result.textEmotion)
    ensures temperature == AdjustTemperature(result.textEmotion.score)
    ensures IsContext(messages, SystemPrompt(result.textEmotion.name), interactions, userInput)
    ensures result.gptResponse == ReplyText(services.chatModel(messages, temperature))
    ensures TitleRuleApplied(SessionKey(userId, sessionId), titles,
                             TitleForExchange(userInput, result.gptResponse, services.titleModel), newTitles)
  {
    var toneEmotion := ClassifyTone(audioPath, services);
    var textEmotion := ClassifyText(userInput, services);
    temperature := AdjustTemperature(textEmotion.score);
    messages := BuildContext(SystemPrompt(textEmotion.name), interactions, userInput);

    var gptResponse := RequestReply(messages, temperature, services);
    newTitles := UpdateTitleIfUntitled(SessionKey(userId, sessionId), messages, userInput, gptResponse, titles, services.titleModel);
    result := Analysis(gptResponse, textEmotion, toneEmotion);
  }
}
