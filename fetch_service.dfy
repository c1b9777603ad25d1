/**
 * The authenticated fetch client: every request carries the stored access
 * token as a Bearer credential; a 401 or 403 answer triggers one refresh
 * of the access token and one retry. The network is a pair of parameters:
 * `send` gives the outcome of a request sent with a given access token,
 * `refresh` the outcome of posting a refresh token to the refresh endpoint.
 */
module FetchService {
  import opened Wrappers
  import opened JsText
  import opened TokenService

  const BACKEND_URL: string := "https://clang-a3xo.onrender.com"

  datatype Body =
    | NoBody
    | ClassroomBody(name: string, language: string)
    | TranscriptBody(transcriptedText: string)

  datatype Request = Request(httpMethod: string, url: string, body: Body)

  /** What `fetch` settles with: a response with a status, or a rejection. */
  datatype Reply = Status(code: int) | NetworkError

  /**
   * What the refresh call yields: the status and the `access_token` field
   * of the body, or an exception (rejected fetch or unreadable body).
   */
  datatype RefreshReply = RefreshStatus(code: int, accessToken: string) | RefreshThrew

  /** The request outcome for a given access token in the Bearer header. */
  type Transport = (Request, string) -> Reply

  /** The refresh endpoint's outcome for a given refresh token. */
  type RefreshEndpoint = string -> RefreshReply

  /** What `fetchWithAuth` resolves or rejects with: `null`, a response, or the network error. */
  datatype FetchResult = NoSession | Response(status: int) | Rejected

  predicate IsOk(code: int) {
    200 <= code <= 299
  }

  predicate IsAuthFailure(reply: Reply) {
    reply.Status? && (reply.code == 401 || reply.code == 403)
  }

  function AsResult(reply: Reply): FetchResult {
    match reply
    case Status(code) => Response(code)
    case NetworkError => Rejected
  }

  /** One run of `refreshAccessToken`: the storage after it, the new token, the refresh tokens posted. */
  datatype RefreshRun = RefreshRun(items: map<string, Entry>, access: Option<string>, posted: seq<string>)

  /** `refreshAccessToken` as a function of the storage and the refresh endpoint. */
  function RefreshOutcome(items: map<string, Entry>, refresh: RefreshEndpoint): (r: RefreshRun)
    ensures |r.posted| <= 1
    ensures r.posted != [] ==> StoredTokens(items).Some? && r.posted == [StoredTokens(items).value.refresh]
    ensures r.access.None? ==> r.items == items
    ensures r.access.Some? ==>
      r.posted != [] && r.items == Saved(items, r.access.value, StoredTokens(items).value.refresh)
  {
    var tokens := StoredTokens(items);
    if tokens.None? || tokens.value.refresh == "" then RefreshRun(items, None, [])
    else
      var rt := tokens.value.refresh;
      match refresh(rt)
      case RefreshThrew => RefreshRun(items, None, [rt])
      case RefreshStatus(code, access) =>
        if !IsOk(code) then RefreshRun(items, None, [rt])
        else RefreshRun(Saved(items, access, rt), Some(access), [rt])
  }

  /** One run of `fetchWithAuth`: its result, the storage after it, the access tokens sent, the refresh tokens posted. */
  datatype FetchRun = FetchRun(
    result: FetchResult, items: map<string, Entry>, bearers: seq<string>, refreshes: seq<string>)

  /** `fetchWithAuth` as a function of the storage, the request and the network. */
  function FetchOutcome(items: map<string, Entry>, req: Request, send: Transport, refresh: RefreshEndpoint): (r: FetchRun)
    ensures |r.bearers| <= 2 && |r.refreshes| <= 1
    ensures StoredTokens(items).None? <==> r.bearers == []
    ensures r.bearers != [] ==> r.bearers[0] == StoredTokens(items).value.access
    ensures |r.bearers| == 2 ==> StoredTokens(r.items) == Some(TokenPair(r.bearers[1], StoredTokens(items).value.refresh))
    ensures r.items != items ==> r.items == Removed(items) || |r.bearers| == 2
  {
    var tokens := StoredTokens(items);
    if tokens.None? then FetchRun(NoSession, items, [], [])
    else
      var first := send(req, tokens.value.access);
      if !IsAuthFailure(first) then FetchRun(AsResult(first), items, [tokens.value.access], [])
      else
        var run := RefreshOutcome(items, refresh);
        if run.access.None? || run.access.value == "" then
          FetchRun(NoSession, Removed(run.items), [tokens.value.access], run.posted)
        else
          var second := send(req, run.access.value);
          FetchRun(AsResult(second), run.items, [tokens.value.access, run.access.value], run.posted)
  }

  /** `refreshAccessToken` */
  method RefreshAccessToken(storage: LocalStorage, refresh: RefreshEndpoint)
    returns (access: Option<string>, posted: seq<string>)
    modifies storage
    ensures RefreshOutcome(old(storage.items), refresh) == RefreshRun(storage.items, access, posted)
  {
    var tokens := GetTokens(storage);
    if tokens.None? || tokens.value.refresh == "" {
      return None, [];
    }
    posted := [tokens.value.refresh];
    var reply := refresh(tokens.value.refresh);
    if reply.RefreshThrew? || !IsOk(reply.code) {
      return None, posted;
    }
    SaveTokens(storage, reply.accessToken, tokens.value.refresh);
    access := Some(reply.accessToken);
  }

  /** `fetchWithAuth` */
  method FetchWithAuth(storage: LocalStorage, req: Request, send: Transport, refresh: RefreshEndpoint)
    returns (result: FetchResult, bearers: seq<string>, refreshes: seq<string>)
    modifies storage
    ensures FetchOutcome(old(storage.items), req, send, refresh) == FetchRun(result, storage.items, bearers, refreshes)
  {
    var tokens := GetTokens(storage);
    if tokens.None? {
      return NoSession, [], [];
    }
    var response := send(req, tokens.value.access);
    bearers, refreshes := [tokens.value.access], [];
    if IsAuthFailure(response) {
      var newAccess;
      newAccess, refreshes := RefreshAccessToken(storage, refresh);
      if newAccess.None? || newAccess.value == "" {
        RemoveTokens(storage);
        return NoSession, bearers, refreshes;
      }
      response := send(req, newAccess.value);
      bearers := bearers + [newAccess.value];
    }
    result := AsResult(response);
  }

  // ---------------------------------------------------------------------
  // Properties of one call

  /** No stored tokens: `null`, no request at all, storage untouched. */
  lemma NoTokensNoRequest(items: map<string, Entry>, req: Request, send: Transport, refresh: RefreshEndpoint)
    requires StoredTokens(items).None?
    ensures FetchOutcome(items, req, send, refresh) == FetchRun(NoSession, items, [], [])
  {
  }

  /** A first answer that is not 401/403 is returned unchanged, with no refresh and no storage change. */
  lemma OtherStatusPassesThrough(items: map<string, Entry>, req: Request, send: Transport, refresh: RefreshEndpoint)
    requires StoredTokens(items).Some?
    requires !IsAuthFailure(send(req, StoredTokens(items).value.access))
    ensures var r := FetchOutcome(items, req, send, refresh);
      r.result == AsResult(send(req, StoredTokens(items).value.access))
      && r.items == items && |r.bearers| == 1 && r.refreshes == []
  {
  }

  /**
   * A 401/403 causes exactly one call of `refreshAccessToken`, which posts
   * the stored refresh token at most once; the call makes at most two requests.
   */
  lemma AuthFailureRefreshesOnce(items: map<string, Entry>, req: Request, send: Transport, refresh: RefreshEndpoint)
    requires StoredTokens(items).Some?
    requires IsAuthFailure(send(req, StoredTokens(items).value.access))
    ensures var r := FetchOutcome(items, req, send, refresh);
      r.refreshes == RefreshOutcome(items, refresh).posted
      && (StoredTokens(items).value.refresh != "" ==> r.refreshes == [StoredTokens(items).value.refresh])
      && 1 <= |r.bearers| <= 2
  {
  }

  /**
   * Refresh fails (no refresh token, a non-ok answer, an exception, or an
   * empty new token): the stored tokens are removed and the result is `null`
   * after the single first request.
   */
  lemma RefreshFailureLogsOut(items: map<string, Entry>, req: Request, send: Transport, refresh: RefreshEndpoint)
    requires StoredTokens(items).Some?
    requires IsAuthFailure(send(req, StoredTokens(items).value.access))
    requires var rt := StoredTokens(items).value.refresh;
      rt == "" || refresh(rt).RefreshThrew? || !IsOk(refresh(rt).code) || refresh(rt).accessToken == ""
    ensures var r := FetchOutcome(items, req, send, refresh);
      r.result == NoSession && StoredTokens(r.items).None? && AUTH_KEY !in r.items && |r.bearers| == 1
  {
  }

  /**
   * Refresh succeeds: the new access token is stored beside the old refresh
   * token, the retry carries the new token, and the retry's answer is
   * returned as it is, even when it is again 401/403.
   */
  lemma RefreshSuccessRetriesOnce(items: map<string, Entry>, req: Request, send: Transport, refresh: RefreshEndpoint)
    requires StoredTokens(items).Some?
    requires IsAuthFailure(send(req, StoredTokens(items).value.access))
    requires var rt := StoredTokens(items).value.refresh;
      rt != "" && refresh(rt).RefreshStatus? && IsOk(refresh(rt).code) && refresh(rt).accessToken != ""
    ensures var rt := StoredTokens(items).value.refresh;
      var renewed := refresh(rt).accessToken;
      var r := FetchOutcome(items, req, send, refresh);
      r.bearers == [StoredTokens(items).value.access, renewed]
      && r.items == Saved(items, renewed, rt)
      && r.result == AsResult(send(req, renewed))
  {
  }

  /** The retry is final: a second 401/403 neither refreshes again nor clears the tokens. */
  lemma SecondAuthFailureKeepsTokens(items: map<string, Entry>, req: Request, send: Transport, refresh: RefreshEndpoint)
    requires |FetchOutcome(items, req, send, refresh).bearers| == 2
    requires IsAuthFailure(send(req, FetchOutcome(items, req, send, refresh).bearers[1]))
    ensures var r := FetchOutcome(items, req, send, refresh);
      r.result.Response? && (r.result.status == 401 || r.result.status == 403)
      && |r.refreshes| == 1 && StoredTokens(r.items).Some?
  {
  }

  // ---------------------------------------------------------------------
  // The endpoint wrappers

  /** What a wrapper throws: its own `Error('Failed to fetch data')`, or the network error passed through. */
  datatype Thrown = FailedToFetchData | NetworkFailure

  /** The wrappers' `if (!response) throw`: a `null` result becomes an exception; any status is kept. */
  function Unwrap(result: FetchResult): (w: Result<int, Thrown>)
    ensures w.Success? <==> result.Response?
    ensures w.Success? ==> w.value == result.status
    ensures result == NoSession ==> w == Failure(FailedToFetchData)
    ensures result == Rejected ==> w == Failure(NetworkFailure)
  {
    match result
    case NoSession => Failure(FailedToFetchData)
    case Response(status) => Success(status)
    case Rejected => Failure(NetworkFailure)
  }

  /** The `language` field `createClassroom` sends: `'en'` for a trimmed label ending in `English`, else `'ko'`. */
  function ClassroomLanguage(selected: string): (tag: string)
    ensures tag == "en" || tag == "ko"
  {
    if EndsWith(Trim(selected), "English") then "en" else "ko"
  }

  /**
   * The language test is case-sensitive and ignores surrounding whitespace:
   * for a label whose ends `trim` leaves alone, one leading space makes no
   * difference, and the tag is `en` exactly when the label ends with
   * `English`, capital E included.
   */
  lemma ClassroomLanguageIsCaseSensitive(word: string)
    requires word != [] && !IsTrimmable(word[0]) && !IsTrimmable(word[|word| - 1])
    ensures ClassroomLanguage(" " + word) == ClassroomLanguage(word)
    ensures ClassroomLanguage(word) == "en" <==> EndsWith(word, "English")
  {
    TrimUntouched(word);
    TrimLeadingSpace(word);
  }

  lemma CapitalEnglishMatches()
    ensures EndsWith("English", "English")
  {
    var w := "English";
    assert w[|w| - 7..] == w;
  }

  lemma LowerEnglishDoesNotMatch()
    ensures !EndsWith("english", "English")
  {
    var w := "english";
    assert w[|w| - 7..] == w;
    assert w[0] != "English"[0];
  }

  /** ` English` is sent as `en`. */
  lemma CapitalEnglishIsEn()
    ensures ClassroomLanguage(" English") == "en"
  {
    CapitalEnglishMatches();
    ClassroomLanguageIsCaseSensitive("English");
  }

  /** ` english` is sent as `ko`: a lower-case e does not match. */
  lemma LowerEnglishIsKo()
    ensures ClassroomLanguage(" english") == "ko"
  {
    LowerEnglishDoesNotMatch();
    ClassroomLanguageIsCaseSensitive("english");
  }

  function MeRequest(): Request {
    Request("GET", BACKEND_URL + "/0.1.0/auth/me", NoBody)
  }

  function RoomsRequest(): Request {
    Request("GET", BACKEND_URL + "/0.1.0/classroom/active", NoBody)
  }

  function CreateClassroomRequest(roomName: string, selectedLanguage: string): Request {
    Request("POST", BACKEND_URL + "/0.1.0/classroom/", ClassroomBody(roomName, ClassroomLanguage(selectedLanguage)))
  }

  function ClassroomRequest(roomId: string): Request {
    Request("GET", BACKEND_URL + "/0.1.0/classroom/" + roomId, NoBody)
  }

  function SaveTranscriptRequest(text: string, classroomUid: string): Request {
    Request("POST", BACKEND_URL + "/0.1.0/transcriptions/classroom/" + classroomUid, TranscriptBody(text))
  }

  function TranscriptRequest(roomId: string): Request {
    Request("GET", BACKEND_URL + "/0.1.0/transcriptions/classroom/" + roomId, NoBody)
  }

  /** `me`: the identity request, `null` passed through. */
  method Me(storage: LocalStorage, send: Transport, refresh: RefreshEndpoint) returns (result: FetchResult)
    modifies storage
    ensures var run := FetchOutcome(old(storage.items), MeRequest(), send, refresh);
      result == run.result && storage.items == run.items
  {
    var bearers, refreshes;
    result, bearers, refreshes := FetchWithAuth(storage, MeRequest(), send, refresh);
  }

  /** `getRooms` */
  method GetRooms(storage: LocalStorage, send: Transport, refresh: RefreshEndpoint) returns (r: Result<int, Thrown>)
    modifies storage
    ensures var run := FetchOutcome(old(storage.items), RoomsRequest(), send, refresh);
      r == Unwrap(run.result) && storage.items == run.items
  {
    var result, bearers, refreshes := FetchWithAuth(storage, RoomsRequest(), send, refresh);
    r := Unwrap(result);
  }

  /** `createClassroom` */
  method CreateClassroom(storage: LocalStorage, roomName: string, selectedLanguage: string, send: Transport, refresh: RefreshEndpoint)
    returns (r: Result<int, Thrown>)
    modifies storage
    ensures var run := FetchOutcome(old(storage.items), CreateClassroomRequest(roomName, selectedLanguage), send, refresh);
      r == Unwrap(run.result) && storage.items == run.items
  {
    var result, bearers, refreshes := FetchWithAuth(storage, CreateClassroomRequest(roomName, selectedLanguage), send, refresh);
    r := Unwrap(result);
  }

  /** `getClassroom` */
  method GetClassroom(storage: LocalStorage, roomId: string, send: Transport, refresh: RefreshEndpoint)
    returns (r: Result<int, Thrown>)
    modifies storage
    ensures var run := FetchOutcome(old(storage.items), ClassroomRequest(roomId), send, refresh);
      r == Unwrap(run.result) && storage.items == run.items
  {
    var result, bearers, refreshes := FetchWithAuth(storage, ClassroomRequest(roomId), send, refresh);
    r := Unwrap(result);
  }

  /** `saveTranscript` */
  method SaveTranscript(storage: LocalStorage, text: string, classroomUid: string, send: Transport, refresh: RefreshEndpoint)
    returns (r: Result<int, Thrown>)
    modifies storage
    ensures var run := FetchOutcome(old(storage.items), SaveTranscriptRequest(text, classroomUid), send, refresh);
      r == Unwrap(run.result) && storage.items == run.items
  {
    var result, bearers, refreshes := FetchWithAuth(storage, SaveTranscriptRequest(text, classroomUid), send, refresh);
    r := Unwrap(result);
  }

  /** `getTranscript` */
  method GetTranscript(storage: LocalStorage, roomId: string, send: Transport, refresh: RefreshEndpoint)
    returns (r: Result<int, Thrown>)
    modifies storage
    ensures var run := FetchOutcome(old(storage.items), TranscriptRequest(roomId), send, refresh);
      r == Unwrap(run.result) && storage.items == run.items
  {
    var result, bearers, refreshes := FetchWithAuth(storage, TranscriptRequest(roomId), send, refresh);
    r := Unwrap(result);
  }
}
