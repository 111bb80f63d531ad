/**
  The Flask request gate of the backend (`backend/app.py`): the `check_auth` decorator that
  turns the `Authorization` header into a verified user id or a 401, and the routes' own
  400 (missing field), 403 (someone else's history) and 500 (store or analysis failure)
  decisions. Token verification, the user-existence write, the store and the analysis
  pipeline are oracles; `None` or `Err` from an oracle means that the call raised.
 */
module Gatekeeper {
  import opened Wrappers
  import opened Text
  import AiCore

  /** A Firestore document as the routes return it, field name to rendered value. */
  type Document = map<string, string>

  /** The JSON body a route answers with. */
  datatype Body =
    | ErrorBody(message: string)
    | SessionCreated(sessionId: string)
    | AnalysisBody(analysis: AiCore.Analysis)
    | SessionsBody(sessions: seq<Document>)
    | MessagesBody(messages: seq<Document>)

  datatype Response = Response(status: int, body: Body)

  /** The two request headers the client may send; the backend reads only the first. */
  datatype Headers = Headers(authorization: Option<string>, xUserId: Option<string>)

  /** An exception raised inside a route: a `KeyError` carries its key. */
  datatype Raised = KeyError(key: string) | OtherError

  /** Firebase Auth: token verification (the decoded uid) and the user-document write (`false` = raised). */
  datatype AuthServices = AuthServices(verifyToken: string -> Option<string>, ensureUserExists: string -> bool)

  /** Firestore reads and writes used by the routes. */
  datatype Store = Store(
    createSession: string -> Option<string>,
    allSessions: string -> Option<seq<Document>>,
    sessionMessages: (string, string) -> Option<seq<Document>>)

  /**
    The speech and analysis pipeline: `record_audio_from_file` (the transcript; it catches
    every failure itself and then yields "", so it never raises) and
    `analyze_and_respond(user_id, session_id, text, audio_path)`.
   */
  datatype Pipeline = Pipeline(
    transcribe: string -> string,
    analyze: (string, string, string, Option<string>) -> Result<AiCore.Analysis, Raised>)

  const BearerPrefix: string := "Bearer "
  const MissingToken: string := "Authorization token is missing or invalid"
  const InvalidToken: string := "Invalid or expired token"
  const Forbidden: string := "Forbidden: You can only access your own history."
  const InternalError: string := "An internal error occurred"
  const UploadPath: string := "uploads/temp_audio.wav"

  /** Python's `str(KeyError(key))`: the key's repr, in single quotes. */
  function KeyText(key: string): string {
    "'" + key + "'"
  }

  // ---------------------------------------------------------------------------------------
  // check_auth

  /** The header is present, non-empty and starts with "Bearer ". */
  predicate HasBearer(authorization: Option<string>) {
    authorization.Some? && authorization.value != [] && StartsWith(authorization.value, BearerPrefix)
  }

  /**
    `auth_header.split('Bearer ')[1]` on a header that starts with "Bearer ": the text after
    the first "Bearer " up to the next occurrence, if any.
   */
  function BearerToken(header: string): (token: string)
    requires StartsWith(header, BearerPrefix)
    ensures |token| <= |header| - |BearerPrefix|
    ensures token == header[|BearerPrefix|..|BearerPrefix| + |token|]
    ensures forall i :: 0 <= i < |token| ==> !OccursAt(header[|BearerPrefix|..], BearerPrefix, i)
    ensures |BearerPrefix| + |token| == |header| || OccursAt(header, BearerPrefix, |BearerPrefix| + |token|)
  {
    var rest := header[|BearerPrefix|..];
    var token := BeforeFirst(rest, BearerPrefix);
    assert |token| < |rest| ==> rest[|token|..|token| + |BearerPrefix|] == header[|BearerPrefix| + |token|..|BearerPrefix| + |token| + |BearerPrefix|];
    token
  }

  /** A header "Bearer abc" carries the token "abc". */
  lemma BearerTokenExample()
    ensures BearerToken("Bearer abc") == "abc"
  {
    assert !OccursAt("abc", BearerPrefix, 0);
  }

  /** A header with a second "Bearer " keeps only the text between the two. */
  lemma BearerTokenStopsAtSecondPrefix(token: string, tail: string)
    requires forall i :: 0 <= i < |token| ==> !OccursAt(token + BearerPrefix + tail, BearerPrefix, i)
    ensures BearerToken(BearerPrefix + token + BearerPrefix + tail) == token
  {
    var header := BearerPrefix + token + BearerPrefix + tail;
    assert header[|BearerPrefix|..] == token + BearerPrefix + tail;
    var t := BearerToken(header);
    var rest := token + BearerPrefix + tail;
    assert OccursAt(rest, BearerPrefix, |token|) by {
      assert rest[|token|..|token| + |BearerPrefix|] == BearerPrefix;
    }
    assert !(|t| > |token|);
    assert t == rest[..|token|] == token;
  }

  /**
    The decorator: 401 "missing or invalid" without a Bearer header, 401 "invalid or expired"
    when verification or the user-document write raises, else the verified uid.
   */
  function CheckAuth(headers: Headers, auth: AuthServices): (r: Result<string, Response>)
    ensures !HasBearer(headers.authorization) ==> r == Err(Response(401, ErrorBody(MissingToken)))
    ensures HasBearer(headers.authorization) ==>
      var decoded := auth.verifyToken(BearerToken(headers.authorization.value));
      && (r.Ok? <==> decoded.Some? && auth.ensureUserExists(decoded.value))
      && (r.Ok? ==> r.value == decoded.value)
      && (r.Err? ==> r.error == Response(401, ErrorBody(InvalidToken)))
  {
    if !HasBearer(headers.authorization) then Err(Response(401, ErrorBody(MissingToken)))
    else
      match auth.verifyToken(BearerToken(headers.authorization.value))
      case None => Err(Response(401, ErrorBody(InvalidToken)))
      case Some(uid) =>
        if auth.ensureUserExists(uid) then Ok(uid) else Err(Response(401, ErrorBody(InvalidToken)))
  }

  /** Without a Bearer header the outcome is the same whatever the verifier would answer. */
  lemma CheckAuthSkipsVerifier(headers: Headers, a1: AuthServices, a2: AuthServices)
    requires !HasBearer(headers.authorization)
    ensures CheckAuth(headers, a1) == CheckAuth(headers, a2)
    ensures CheckAuth(headers, a1).Err? && CheckAuth(headers, a1).error.status == 401
  {
  }

  /** A request that identifies its user only by `X-User-ID` is always rejected with 401. */
  lemma ManualUserRejected(userId: string, auth: AuthServices)
    ensures CheckAuth(Headers(None, Some(userId)), auth) == Err(Response(401, ErrorBody(MissingToken)))
  {
  }

  /** The gate around every route: an auth rejection, or the handler run for the verified uid. */
  function Guarded(headers: Headers, auth: AuthServices, handler: string -> Response): (r: Response)
    ensures CheckAuth(headers, auth).Err? ==> r == CheckAuth(headers, auth).error && r.status == 401
    ensures CheckAuth(headers, auth).Ok? ==> r == handler(CheckAuth(headers, auth).value)
  {
    match CheckAuth(headers, auth)
    case Err(rejection) => rejection
    case Ok(uid) => handler(uid)
  }

  /** The handler never runs for a request without a Bearer header. */
  lemma GuardedSkipsHandler(headers: Headers, auth: AuthServices, h1: string -> Response, h2: string -> Response)
    requires !HasBearer(headers.authorization)
    ensures Guarded(headers, auth, h1) == Guarded(headers, auth, h2) == Response(401, ErrorBody(MissingToken))
  {
  }

  // ---------------------------------------------------------------------------------------
  // Routes (each handler receives the uid that check_auth verified)

  /** POST /sessions/new: 201 with the new session id, 500 when the store raises. */
  function NewSession(uid: string, store: Store): (r: Response)
    ensures store.createSession(uid).Some? ==> r == Response(201, SessionCreated(store.createSession(uid).value))
    ensures store.createSession(uid).None? ==> r == Response(500, ErrorBody("Could not create new session"))
  {
    match store.createSession(uid)
    case Some(sessionId) => Response(201, SessionCreated(sessionId))
    case None => Response(500, ErrorBody("Could not create new session"))
  }

  /** The answer for an analysis outcome; `missing` prefixes the text of a KeyError. */
  function AnalysisResponse(outcome: Result<AiCore.Analysis, Raised>, missing: string): (r: Response)
    ensures outcome.Ok? <==> r.status == 200
    ensures outcome.Ok? ==> r.body == AnalysisBody(outcome.value)
    ensures outcome.Err? && outcome.error.KeyError? ==> r == Response(400, ErrorBody(missing + KeyText(outcome.error.key)))
    ensures outcome == Err(OtherError) ==> r == Response(500, ErrorBody(InternalError))
  {
    match outcome
    case Ok(analysis) => Response(200, AnalysisBody(analysis))
    case Err(KeyError(key)) => Response(400, ErrorBody(missing + KeyText(key)))
    case Err(OtherError) => Response(500, ErrorBody(InternalError))
  }

  const MissingKey: string := "Missing key in request: "
  const MissingForm: string := "Missing form data: "

  /**
    `str()` of the `BadRequestKeyError` that a missing form field raises: werkzeug renders
    it as an HTTP error, "<code> <name>: <description>", not as the key. The key is shown
    only in debug mode, and only when the error escapes the route, which it does not here.
   */
  const FormKeyErrorText: string :=
    "400 Bad Request: The browser (or proxy) sent a request that this server could not understand."

  /**
    POST /text. `data` is the parsed JSON object, or `None` when the body is not one (the
    lookup then raises something other than a KeyError).
   */
  function HandleText(uid: string, data: Option<map<string, string>>, pipeline: Pipeline): (r: Response)
    ensures data.None? ==> r == Response(500, ErrorBody(InternalError))
    ensures data.Some? && "session_id" !in data.value ==> r == Response(400, ErrorBody(MissingKey + KeyText("session_id")))
    ensures data.Some? && "session_id" in data.value && "input_text" !in data.value ==>
      r == Response(400, ErrorBody(MissingKey + KeyText("input_text")))
    ensures data.Some? && "session_id" in data.value && "input_text" in data.value ==>
      r == AnalysisResponse(pipeline.analyze(uid, data.value["session_id"], data.value["input_text"], None), MissingKey)
  {
    if data.None? then Response(500, ErrorBody(InternalError))
    else if "session_id" !in data.value then Response(400, ErrorBody(MissingKey + KeyText("session_id")))
    else if "input_text" !in data.value then Response(400, ErrorBody(MissingKey + KeyText("input_text")))
    else AnalysisResponse(pipeline.analyze(uid, data.value["session_id"], data.value["input_text"], None), MissingKey)
  }

  /** The analysis runs only on a request that carries both fields. */
  lemma HandleTextNeedsBothFields(uid: string, data: map<string, string>, pipeline: Pipeline)
    requires "session_id" !in data || "input_text" !in data
    ensures HandleText(uid, Some(data), pipeline).status == 400
  {
  }

  /**
    POST /voice. `form` holds the form fields and `files` the names of the uploaded files;
    the upload is saved to `uploads/temp_audio.wav`, transcribed, then analysed with that path.
   */
  function HandleVoice(uid: string, form: map<string, string>, files: set<string>, pipeline: Pipeline): (r: Response)
    ensures "session_id" !in form ==> r == Response(400, ErrorBody(MissingForm + FormKeyErrorText))
    ensures "session_id" in form && "audio" !in files ==> r == Response(400, ErrorBody("No audio file in request"))
    ensures "session_id" in form && "audio" in files ==>
      r == AnalysisResponse(pipeline.analyze(uid, form["session_id"], pipeline.transcribe(UploadPath), Some(UploadPath)), MissingForm)
    ensures r.status == 200 ==>
      && "session_id" in form && "audio" in files && r.body.AnalysisBody?
      && pipeline.analyze(uid, form["session_id"], pipeline.transcribe(UploadPath), Some(UploadPath)) == Ok(r.body.analysis)
  {
    if "session_id" !in form then Response(400, ErrorBody(MissingForm + FormKeyErrorText))
    else if "audio" !in files then Response(400, ErrorBody("No audio file in request"))
    else
      var transcript := pipeline.transcribe(UploadPath);
      AnalysisResponse(pipeline.analyze(uid, form["session_id"], transcript, Some(UploadPath)), MissingForm)
  }

  /** GET /history/<user>: 403 for someone else's history, else the session list or 500. */
  function GetSessions(uid: string, requestedUserId: string, store: Store): (r: Response)
    ensures uid != requestedUserId <==> r.status == 403
    ensures uid != requestedUserId ==> r.body == ErrorBody(Forbidden)
    ensures uid == requestedUserId && store.allSessions(uid).Some? ==> r == Response(200, SessionsBody(store.allSessions(uid).value))
    ensures uid == requestedUserId && store.allSessions(uid).None? ==> r == Response(500, ErrorBody("Could not retrieve session history"))
  {
    if uid != requestedUserId then Response(403, ErrorBody(Forbidden))
    else
      match store.allSessions(uid)
      case Some(sessions) => Response(200, SessionsBody(sessions))
      case None => Response(500, ErrorBody("Could not retrieve session history"))
  }

  /** GET /history/<user>/<session>: 403 for someone else's history, else the messages or 500. */
  function GetSessionChat(uid: string, requestedUserId: string, sessionId: string, store: Store): (r: Response)
    ensures uid != requestedUserId <==> r.status == 403
    ensures uid != requestedUserId ==> r.body == ErrorBody(Forbidden)
    ensures uid == requestedUserId && store.sessionMessages(uid, sessionId).Some? ==>
      r == Response(200, MessagesBody(store.sessionMessages(uid, sessionId).value))
    ensures uid == requestedUserId && store.sessionMessages(uid, sessionId).None? ==>
      r == Response(500, ErrorBody("Could not retrieve messages for this session"))
  {
    if uid != requestedUserId then Response(403, ErrorBody(Forbidden))
    else
      match store.sessionMessages(uid, sessionId)
      case Some(messages) => Response(200, MessagesBody(messages))
      case None => Response(500, ErrorBody("Could not retrieve messages for this session"))
  }

  /** The ownership check comes before any store read: a 403 does not depend on the store. */
  lemma HistoryForbiddenBeforeStoreRead(uid: string, requestedUserId: string, sessionId: string, s1: Store, s2: Store)
    requires uid != requestedUserId
    ensures GetSessions(uid, requestedUserId, s1) == GetSessions(uid, requestedUserId, s2)
    ensures GetSessionChat(uid, requestedUserId, sessionId, s1) == GetSessionChat(uid, requestedUserId, sessionId, s2)
  {
  }

  /** A full GET /history/<user> request: gate, then ownership, then the store. */
  function HistoryRequest(headers: Headers, requestedUserId: string, auth: AuthServices, store: Store): (r: Response)
    ensures r.status == 200 ==> CheckAuth(headers, auth) == Ok(requestedUserId)
    ensures r.status == 403 ==> CheckAuth(headers, auth).Ok? && CheckAuth(headers, auth).value != requestedUserId
  {
    Guarded(headers, auth, uid => GetSessions(uid, requestedUserId, store))
  }
}
