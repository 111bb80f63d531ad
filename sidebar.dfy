/**
  The conversation list (`Sidebar.jsx`): the loading flag, the relative-day label of each
  session's `last_updated`, and which row is highlighted as the active conversation.
  Timestamps are integer milliseconds; the locale date text is an oracle.
 */
module Sidebar {
  import opened Wrappers
  import opened Text
  import SessionTitle

  /** Milliseconds in a day: 1000 * 60 * 60 * 24. */
  const MsPerDay: nat := 86400000

  /** The label under a session title. */
  datatype DateLabel = Blank | Today | Yesterday | DaysAgo(days: nat) | LocaleDate(text: string)
  {
    /** The rendered text. */
    function Render(): string {
      match this
      case Blank => ""
      case Today => "Today"
      case Yesterday => "Yesterday"
      case DaysAgo(n) => NatToString(n) + " days ago"
      case LocaleDate(text) => text
    }
  }

  /** `Math.ceil(Math.abs(now - date) / 86400000)`: whole days, rounded up. */
  function DiffDays(timestamp: int, now: int): (d: nat)
    ensures (d - 1) * MsPerDay < (if now >= timestamp then now - timestamp else timestamp - now) <= d * MsPerDay
  {
    var diff := if now >= timestamp then now - timestamp else timestamp - now;
    (diff + MsPerDay - 1) / MsPerDay
  }

  /**
    `formatDate`: a blank label for a missing or zero timestamp; otherwise Today for at most
    one day, Yesterday for two, "N days ago" with N one less than the day count up to seven,
    and the locale date beyond.
   */
  function FormatDate(timestamp: Option<int>, now: int, localeDate: int -> string): (tag: DateLabel)
    ensures timestamp.None? || timestamp == Some(0) <==> tag == Blank
    ensures timestamp.Some? && timestamp.value != 0 ==>
      var d := DiffDays(timestamp.value, now);
      && (tag == Today <==> d <= 1)
      && (tag == Yesterday <==> d == 2)
      && (tag.DaysAgo? <==> 3 <= d <= 7)
      && (tag.DaysAgo? ==> tag.days == d - 1 && 2 <= tag.days <= 6)
      && (tag.LocaleDate? <==> d > 7)
      && (tag.LocaleDate? ==> tag.text == localeDate(timestamp.value))
  {
    if timestamp.None? || timestamp.value == 0 then Blank
    else
      var d := DiffDays(timestamp.value, now);
      if d <= 1 then Today
      else if d == 2 then Yesterday
      else if d <= 7 then DaysAgo(d - 1)
      else LocaleDate(localeDate(timestamp.value))
  }

  /** A time `k` ms in the future gets the same day count, and the same label up to a week, as one `k` ms in the past. */
  lemma FutureLikePast(now: int, k: nat, localeDate: int -> string)
    requires now - k != 0 && now + k != 0
    ensures DiffDays(now + k, now) == DiffDays(now - k, now)
    ensures DiffDays(now - k, now) <= 7 ==> FormatDate(Some(now + k), now, localeDate) == FormatDate(Some(now - k), now, localeDate)
  {
  }

  /** One session of the list as the backend returns it. */
  datatype SessionSummary = SessionSummary(sessionId: string, title: Option<string>, lastUpdated: Option<int>)

  /** One rendered button of the list. */
  datatype SessionRow = SessionRow(sessionId: string, title: SessionTitle.TitleView, date: string, active: bool)

  /** What the list area shows. */
  datatype ListView = Loading | NoConversations | Rows(rows: seq<SessionRow>)

  function RowOf(session: SessionSummary, currentSessionId: Option<string>, now: int, localeDate: int -> string): SessionRow {
    SessionRow(session.sessionId, SessionTitle.DisplayTitle(session.title),
               FormatDate(session.lastUpdated, now, localeDate).Render(),
               currentSessionId == Some(session.sessionId))
  }

  /** `sessions.map(...)`: one row per session, in the order given. */
  function RenderRows(sessions: seq<SessionSummary>, currentSessionId: Option<string>, now: int, localeDate: int -> string)
    : (rows: seq<SessionRow>)
    ensures |rows| == |sessions|
    ensures forall i :: 0 <= i < |sessions| ==>
      && rows[i].sessionId == sessions[i].sessionId
      && (rows[i].active <==> currentSessionId == Some(sessions[i].sessionId))
      && rows[i].title == SessionTitle.DisplayTitle(sessions[i].title)
      && rows[i].date == FormatDate(sessions[i].lastUpdated, now, localeDate).Render()
  {
    if sessions == [] then []
    else [RowOf(sessions[0], currentSessionId, now, localeDate)] + RenderRows(sessions[1..], currentSessionId, now, localeDate)
  }

  /** The list area: loading exactly while there is no list yet, then the empty note or the rows. */
  function View(sessions: Option<seq<SessionSummary>>, currentSessionId: Option<string>, now: int, localeDate: int -> string)
    : (v: ListView)
    ensures v.Loading? <==> sessions.None?
    ensures v.NoConversations? <==> sessions == Some([])
    ensures v.Rows? ==> v.rows == RenderRows(sessions.value, currentSessionId, now, localeDate)
  {
    match sessions
    case None => Loading
    case Some(list) => if list == [] then NoConversations else Rows(RenderRows(list, currentSessionId, now, localeDate))
  }

  predicate DistinctIds(sessions: seq<SessionSummary>) {
    forall i, j :: 0 <= i < j < |sessions| ==> sessions[i].sessionId != sessions[j].sessionId
  }

  /** With distinct ids, at most one row is active, and it is the one whose id is current. */
  lemma AtMostOneActive(sessions: seq<SessionSummary>, currentSessionId: Option<string>, now: int, localeDate: int -> string, i: int, j: int)
    requires DistinctIds(sessions)
    requires 0 <= i < |sessions| && 0 <= j < |sessions|
    requires RenderRows(sessions, currentSessionId, now, localeDate)[i].active
    requires RenderRows(sessions, currentSessionId, now, localeDate)[j].active
    ensures i == j
  {
  }

  /** With no current session (null or not passed), no row is active. */
  lemma NoCurrentNoActive(sessions: seq<SessionSummary>, now: int, localeDate: int -> string)
    ensures forall r :: r in RenderRows(sessions, None, now, localeDate) ==> !r.active
  {
    var rows := RenderRows(sessions, None, now, localeDate);
    forall r | r in rows ensures !r.active {
      var i :| 0 <= i < |rows| && rows[i] == r;
    }
  }
}
