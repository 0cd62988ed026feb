// The api store: the writer's connection to the backend. It decides at
// start-up whether to work on the stored data or to load the task from the
// backend, guards the periodic requests with `lastSendingTry`, and finalizes
// the writing. Requests, cookies and the local storage are inputs: a request is
// a start method that prepares it and a finish method that takes its answer.

module Api {
  import opened Js
  import CD = ChangeData
  import CS = ChangesStore
  import opened ApiTime
  import NS = NotesStore
  import TS = TaskStore
  import AS = AlertsStore

  /** Time (ms) between two timed synchronisations. */
  const SYNC_INTERVAL := 5000
  /** Timeout (ms) of a request. */
  const REQUEST_TIMEOUT := 30000
  /** Number of one-second waits for a running sending before a forced save gives up. */
  const MAX_WAIT_TRIES := 5

  // local storage items
  const BACKEND_URL_ITEM := "writerBackendUrl"
  const RETURN_URL_ITEM := "writerReturnUrl"
  const USER_KEY_ITEM := "writerUserKey"
  const ENVIRONMENT_KEY_ITEM := "writerEnvironmentKey"
  const DATA_TOKEN_ITEM := "writerDataToken"
  const FILE_TOKEN_ITEM := "writerFileToken"
  const TIME_OFFSET_ITEM := "writerTimeOffset"

  // cookies set by the backend that opens the writer
  const USER_COOKIE := "LongEssayUser"
  const ENVIRONMENT_COOKIE := "LongEssayEnvironment"
  const BACKEND_COOKIE := "LongEssayBackend"
  const RETURN_COOKIE := "LongEssayReturn"
  const TOKEN_COOKIE := "LongEssayToken"
  const HASH_COOKIE := "LongEssayHash"
  const COOKIES: set<string> := {BACKEND_COOKIE, RETURN_COOKIE, USER_COOKIE, ENVIRONMENT_COOKIE, TOKEN_COOKIE, HASH_COOKIE}

  // response headers
  const TIME_HEADER := "longessaytime"
  const DATA_TOKEN_HEADER := "longessaydatatoken"
  const FILE_TOKEN_HEADER := "longessayfiletoken"

  /** `localStorage.getItem` or `Cookies.get`: a missing entry reads as null (undefined). */
  function Lookup(m: map<string, string>, name: string): (r: Option<string>)
    ensures r.Some? <==> name in m
  {
    if name in m then Some(m[name]) else None
  }

  /** What a value that may be null becomes when written as text: null is "null". */
  function Text(v: Option<string>): string
  {
    if v.Some? then v.value else "null"
  }

  /** A value that may be null is truthy when it is a non-empty string. */
  predicate IsFilled(v: Option<string>)
  {
    v.Some? && v.value != ""
  }

  /** A response header is truthy. */
  predicate HasHeader(headers: map<string, string>, name: string)
  {
    name in headers && headers[name] != ""
  }

  /** The part of the state that is kept in the local storage, apart from the time offset. */
  datatype Config = Config(backendUrl: Option<string>, returnUrl: Option<string>, userKey: Option<string>,
                           environmentKey: Option<string>, dataToken: Option<string>, fileToken: Option<string>)

  /** The start state: every value is the empty string. */
  function EmptyConfig(): Config
  {
    Config(Some(""), Some(""), Some(""), Some(""), Some(""), Some(""))
  }

  /** The values `init` takes from the local storage. */
  function StoredConfig(local: map<string, string>): Config
  {
    Config(Lookup(local, BACKEND_URL_ITEM), Lookup(local, RETURN_URL_ITEM), Lookup(local, USER_KEY_ITEM),
      Lookup(local, ENVIRONMENT_KEY_ITEM), Lookup(local, DATA_TOKEN_ITEM), Lookup(local, FILE_TOKEN_ITEM))
  }

  /** `Math.floor(localStorage.getItem('writerTimeOffset') ?? 0)` */
  function StoredOffset(local: map<string, string>): (r: Number)
    ensures IsWhole(r)
    ensures TIME_OFFSET_ITEM !in local ==> r == Finite(0.0)
  {
    if TIME_OFFSET_ITEM in local then NumberFloor(StringToNumber(local[TIME_OFFSET_ITEM])) else Finite(0.0)
  }

  /** A cookie replaces a stored value when it is set and differs from it. */
  predicate Overrides(cookie: Option<string>, stored: Option<string>)
  {
    IsFilled(cookie) && cookie != stored
  }

  /** The value after the cookie check: a set cookie always wins. */
  function Pick(cookie: Option<string>, stored: Option<string>): (r: Option<string>)
    ensures IsFilled(cookie) ==> r == cookie
    ensures !IsFilled(cookie) ==> r == stored
  {
    if Overrides(cookie, stored) then cookie else stored
  }

  /** The configuration after the cookies of the opening backend were taken over. */
  function WithCookies(c: Config, cookies: map<string, string>): (r: Config)
    ensures r.fileToken == c.fileToken
    ensures IsFilled(Lookup(cookies, USER_COOKIE)) ==> r.userKey == Lookup(cookies, USER_COOKIE)
    ensures IsFilled(Lookup(cookies, ENVIRONMENT_COOKIE)) ==> r.environmentKey == Lookup(cookies, ENVIRONMENT_COOKIE)
    ensures IsFilled(Lookup(cookies, BACKEND_COOKIE)) ==> r.backendUrl == Lookup(cookies, BACKEND_COOKIE)
    ensures IsFilled(Lookup(cookies, RETURN_COOKIE)) ==> r.returnUrl == Lookup(cookies, RETURN_COOKIE)
    ensures IsFilled(Lookup(cookies, TOKEN_COOKIE)) ==> r.dataToken == Lookup(cookies, TOKEN_COOKIE)
    ensures cookies == map[] ==> r == c
  {
    c.(userKey := Pick(Lookup(cookies, USER_COOKIE), c.userKey),
       environmentKey := Pick(Lookup(cookies, ENVIRONMENT_COOKIE), c.environmentKey),
       backendUrl := Pick(Lookup(cookies, BACKEND_COOKIE), c.backendUrl),
       returnUrl := Pick(Lookup(cookies, RETURN_COOKIE), c.returnUrl),
       dataToken := Pick(Lookup(cookies, TOKEN_COOKIE), c.dataToken))
  }

  /** The writer is opened for another user or task than the stored one. */
  predicate NewContext(stored: Config, cookies: map<string, string>)
  {
    Overrides(Lookup(cookies, USER_COOKIE), stored.userKey) ||
    Overrides(Lookup(cookies, ENVIRONMENT_COOKIE), stored.environmentKey)
  }

  /** Only the user and environment cookies decide on a new context: after taking over the
    * cookies, the context is new exactly when the user or the environment changed. */
  lemma NewContextIffIdentityChanged(stored: Config, cookies: map<string, string>)
    ensures var c := WithCookies(stored, cookies);
      NewContext(stored, cookies) <==> c.userKey != stored.userKey || c.environmentKey != stored.environmentKey
  {
  }

  /** Everything needed to talk to the backend is there (the file token is not required). */
  predicate Complete(c: Config)
  {
    IsFilled(c.backendUrl) && IsFilled(c.returnUrl) && IsFilled(c.userKey) && IsFilled(c.environmentKey) &&
    IsFilled(c.dataToken)
  }

  /** What `init` goes on with. */
  datatype Start = InitFailure | ConfirmReplace | ConfirmReload | FromStorage | FromBackend

  /** The start-up decision, from whether the configuration is complete, whether the context is
    * new, whether the backend sent a hash of its saved essay, whether the stored essay has that
    * hash, and whether there are unsent edits. */
  function Decide(configOk: bool, newContext: bool, hash: bool, hashMatches: bool, unsent: bool): (r: Start)
    ensures r == InitFailure <==> !configOk
    ensures unsent ==> r != FromBackend
    ensures r == FromBackend <==> configOk && !unsent && (newContext || !hash || !hashMatches)
    ensures r == ConfirmReplace || r == ConfirmReload ==> configOk && unsent && (newContext || (hash && !hashMatches))
    ensures r == FromStorage ==> configOk && !newContext && (hash ==> hashMatches)
  {
    if !configOk then InitFailure
    else if newContext then (if unsent then ConfirmReplace else FromBackend)
    else if hash then (if hashMatches then FromStorage else if unsent then ConfirmReload else FromBackend)
    else if unsent then FromStorage else FromBackend
  }

  /** The stored data of the same context is used whenever the backend has no other saved
    * essay than the stored one, or has none and edits are pending. */
  lemma SameContextUsesStorage(hash: bool, hashMatches: bool, unsent: bool)
    requires (hash && hashMatches) || (!hash && unsent)
    ensures Decide(true, false, hash, hashMatches, unsent) == FromStorage
  {
  }

  /** `changesStore.countChanges > 0` as `init` asks it: of the store in memory. */
  predicate UnsentChangesAsWritten(changes: CS.ChangesStore)
    reads changes
  {
    changes.Count() > 0
  }

  /** Whether the storage of the changes store holds markers, as `hasChangesInStorage` tells;
    * a stored value it cannot read counts as pending. */
  predicate UnsentChangesCorrected(changes: CS.ChangesStore)
    reads changes
  {
    CS.StoredVerdict(changes.storage, CD.ALLOWED_TYPES) != Some(false)
  }

  /** At start-up the changes store has not been loaded yet, so `init` as written counts no
    * change however many markers are stored; with a sent essay it then loads from the backend.
    * That load replaces the stored settings and task first; it clears the stored markers as
    * soon as the task store's load returns. */
  lemma InitIgnoresStoredMarkers(changes: CS.ChangesStore, newContext: bool, hash: bool)
    requires changes.changes == CS.EmptyChanges()
    requires CS.StoredVerdict(changes.storage, CD.ALLOWED_TYPES) == Some(true)
    requires newContext || !hash
    ensures !UnsentChangesAsWritten(changes)
    ensures Decide(true, newContext, hash, false, false || UnsentChangesAsWritten(changes)) == FromBackend
    ensures Completed(BACKEND_LOAD, {}) == [Call(Settings, LoadFromData)]
    ensures Call(Changes, ClearStorage) in Completed(BACKEND_LOAD, {TaskInterval})
  {
    assert CS.SumSizes(changes.changes, CD.ALLOWED_TYPES[..1]) == 0 by {
      assert CD.ALLOWED_TYPES[..1][..0] == [];
    }
    BackendLoadThrowsAtTask({});
    BackendLoadThrowsAtLayout();
    assert BACKEND_LOAD[..7][6] == Call(Changes, ClearStorage);
  }

  /** Asking the storage instead, stored markers are never replaced silently: `init` then
    * uses the stored data or asks for confirmation. */
  lemma CorrectedInitKeepsStoredMarkers(changes: CS.ChangesStore, newContext: bool, hash: bool, hashMatches: bool, essayUnsent: bool)
    requires CS.StoredVerdict(changes.storage, CD.ALLOWED_TYPES) == Some(true)
    ensures UnsentChangesCorrected(changes)
    ensures Decide(true, newContext, hash, hashMatches, essayUnsent || UnsentChangesCorrected(changes)) != FromBackend
  {
  }

  /** The number of one-second waits of a forced save and the value of `lastSendingTry` each
    * check sees: `running` first, then `afterWait[i]` after the (i+1)-th wait. */
  function Observed(running: int, afterWait: seq<int>, i: nat): int
    requires i <= |afterWait|
  {
    if i == 0 then running else afterWait[i - 1]
  }

  /** The wait loop of `saveChangesToBackend(true)`: it waits while a sending runs, at most
    * five times. */
  method WaitForSending(running: int, afterWait: seq<int>) returns (tries: nat, seen: int)
    requires |afterWait| == MAX_WAIT_TRIES
    ensures tries <= MAX_WAIT_TRIES && seen == Observed(running, afterWait, tries)
    ensures forall i :: 0 <= i < tries ==> Observed(running, afterWait, i) > 0
    ensures tries < MAX_WAIT_TRIES ==> seen <= 0
  {
    tries, seen := 0, running;
    while tries < MAX_WAIT_TRIES && seen > 0
      invariant tries <= MAX_WAIT_TRIES && seen == Observed(running, afterWait, tries)
      invariant forall i :: 0 <= i < tries ==> Observed(running, afterWait, i) > 0
    {
      seen := afterWait[tries];
      tries := tries + 1;
    }
  }

  /** What `saveChangesToBackend` does after its guard: it is done with a result, or it sends
    * the changed notes and the (always empty) list of preferences. */
  datatype SaveStep = Done(result: bool) | Send(notes: seq<map<string, Value>>, preferences: seq<map<string, Value>>)

  /** The answer to a request: its headers and data. */
  datatype Answer = Answer(headers: map<string, string>, data: Value)

  /** The answer to a sending of changes: its headers and, per type, the backend's processed
    * keys (old key to new key, null for deleted) in enumeration order. */
  datatype SaveAnswer = SaveAnswer(headers: map<string, string>, notes: seq<(string, Value)>, preferences: seq<(string, Value)>)

  /** The stores the api store calls, and the actions it calls on them. */
  datatype StoreName = Settings | Task | Resources | Essay | Notes | Layout | Changes | Alerts
  datatype Action = ClearStorage | LoadFromStorage | LoadFromData | PrepareNotes
  datatype Call = Call(store: StoreName, action: Action)

  /** The two corrections of the store calls: the layout store gets the `clearStorage` the api
    * store calls on it, and the api store gets the `setInterval` action the task store's loads
    * call on it. */
  datatype Fix = LayoutClear | TaskInterval

  const ALL_FIXES: set<Fix> := {LayoutClear, TaskInterval}

  /** Whether a store action called by the api store returns normally. An action the store
    * does not define throws a TypeError when called: as written, the layout store defines only
    * `loadFromStorage` of these. Each load of the task store throws a TypeError at its end,
    * after it has done its work, because it calls `setInterval` on the api store, which
    * defines no such action. The essay store is not part of this model; it is taken to
    * define the actions called on it and to return from them. */
  predicate Returns(s: StoreName, a: Action, fixes: set<Fix>)
  {
    match s
    case Layout => a == LoadFromStorage || (LayoutClear in fixes && a == ClearStorage)
    case Changes => a == ClearStorage || a == LoadFromStorage
    case Task => a == ClearStorage || (TaskInterval in fixes && (a == LoadFromStorage || a == LoadFromData))
    case Notes => true
    case _ => a != PrepareNotes
  }

  /** The number of calls of a sequence that return: the first call that throws ends the
    * sequence. */
  function CompletedCount(calls: seq<Call>, fixes: set<Fix>): (n: nat)
    ensures n <= |calls|
  {
    if |calls| == 0 || !Returns(calls[0].store, calls[0].action, fixes) then 0
    else 1 + CompletedCount(calls[1..], fixes)
  }

  /** The calls of a sequence that return. */
  function Completed(calls: seq<Call>, fixes: set<Fix>): (r: seq<Call>)
    ensures r <= calls
  {
    calls[..CompletedCount(calls, fixes)]
  }

  /** Every completed call returns, and the sequence stops only at a call that throws. */
  lemma {:induction false} CompletedStopsAtThrow(calls: seq<Call>, fixes: set<Fix>)
    ensures var r := Completed(calls, fixes);
      forall i :: 0 <= i < |r| ==> Returns(r[i].store, r[i].action, fixes)
    ensures var n := |Completed(calls, fixes)|; n < |calls| ==> !Returns(calls[n].store, calls[n].action, fixes)
  {
    if |calls| > 0 && Returns(calls[0].store, calls[0].action, fixes) {
      CompletedStopsAtThrow(calls[1..], fixes);
    }
  }

  /** The completed calls are exactly the calls before the first one that throws. */
  lemma {:induction false} CompletedUpTo(calls: seq<Call>, fixes: set<Fix>, k: nat)
    requires k <= |calls|
    requires forall i :: 0 <= i < k ==> Returns(calls[i].store, calls[i].action, fixes)
    requires k < |calls| ==> !Returns(calls[k].store, calls[k].action, fixes)
    ensures Completed(calls, fixes) == calls[..k]
  {
    if k > 0 {
      CompletedUpTo(calls[1..], fixes, k - 1);
    }
  }

  /** Each correction makes exactly its own calls return. */
  lemma FixesAddOnlyTheirCalls(s: StoreName, a: Action, fixes: set<Fix>)
    ensures Returns(s, a, fixes) <==>
      (Returns(s, a, {}) ||
       (LayoutClear in fixes && s == Layout && a == ClearStorage) ||
       (TaskInterval in fixes && s == Task && (a == LoadFromStorage || a == LoadFromData)))
  {
  }

  /** `loadDataFromStorage` */
  const STORAGE_LOAD := [Call(Settings, LoadFromStorage), Call(Task, LoadFromStorage), Call(Resources, LoadFromStorage),
    Call(Essay, LoadFromStorage), Call(Notes, LoadFromStorage), Call(Layout, LoadFromStorage), Call(Changes, LoadFromStorage)]

  /** `loadDataFromBackend`, after the request */
  const BACKEND_LOAD := [Call(Settings, LoadFromData), Call(Task, LoadFromData), Call(Resources, LoadFromData),
    Call(Essay, LoadFromData), Call(Notes, LoadFromData), Call(Notes, PrepareNotes), Call(Changes, ClearStorage),
    Call(Layout, ClearStorage)]

  /** `finalize`, after the final content is saved */
  const FINALIZE_CLEAR := [Call(Settings, ClearStorage), Call(Task, ClearStorage), Call(Resources, ClearStorage),
    Call(Essay, ClearStorage), Call(Layout, ClearStorage), Call(Alerts, ClearStorage)]

  /** As written, loading from the storage throws at the task store, the second call: the
    * resources, the essay, the notes, the layout and the change markers are not loaded, and
    * the app is not initialized. */
  lemma StorageLoadThrowsAtTask(fixes: set<Fix>)
    requires TaskInterval !in fixes
    ensures Completed(STORAGE_LOAD, fixes) == STORAGE_LOAD[..1]
  {
    CompletedUpTo(STORAGE_LOAD, fixes, 1);
  }

  /** As written, loading from the backend throws at the task store too: only the settings are
    * loaded, and neither the change markers nor the layout are cleared. */
  lemma BackendLoadThrowsAtTask(fixes: set<Fix>)
    requires TaskInterval !in fixes
    ensures Completed(BACKEND_LOAD, fixes) == BACKEND_LOAD[..1]
  {
    CompletedUpTo(BACKEND_LOAD, fixes, 1);
  }

  /** With the task store's call fixed, the load from the backend throws at the layout store,
    * the last call, after the change markers are cleared and before the start is sent and the
    * app is initialized. */
  lemma BackendLoadThrowsAtLayout()
    ensures Completed(BACKEND_LOAD, {TaskInterval}) == BACKEND_LOAD[..7]
  {
    CompletedUpTo(BACKEND_LOAD, {TaskInterval}, 7);
  }

  /** Without a layout `clearStorage`, `finalize` throws at the layout store: the alerts and the
    * local storage are not cleared and the writer is not left. */
  lemma FinalizeThrowsAtLayout(fixes: set<Fix>)
    requires LayoutClear !in fixes
    ensures Completed(FINALIZE_CLEAR, fixes) == FINALIZE_CLEAR[..4]
  {
    CompletedUpTo(FINALIZE_CLEAR, fixes, 4);
  }

  /** With both corrections the load from the backend makes every call; with only one of them
    * it still throws. */
  lemma CorrectedBackendLoadCompletes()
    ensures Completed(BACKEND_LOAD, ALL_FIXES) == BACKEND_LOAD
    ensures Completed(BACKEND_LOAD, {LayoutClear}) != BACKEND_LOAD
    ensures Completed(BACKEND_LOAD, {TaskInterval}) != BACKEND_LOAD
  {
    CompletedUpTo(BACKEND_LOAD, ALL_FIXES, 8);
    BackendLoadThrowsAtTask({LayoutClear});
    BackendLoadThrowsAtLayout();
  }

  /** With a layout `clearStorage`, `finalize` clears every store. */
  lemma CorrectedFinalizeCompletes(fixes: set<Fix>)
    requires LayoutClear in fixes
    ensures Completed(FINALIZE_CLEAR, fixes) == FINALIZE_CLEAR
  {
    CompletedUpTo(FINALIZE_CLEAR, fixes, 6);
  }

  /** With the api store's `setInterval`, loading from the storage makes every call. */
  lemma CorrectedStorageLoadCompletes(fixes: set<Fix>)
    requires TaskInterval in fixes
    ensures Completed(STORAGE_LOAD, fixes) == STORAGE_LOAD
  {
    CompletedUpTo(STORAGE_LOAD, fixes, 7);
  }

  /** The base url of the backend as given to axios, and the query string `URLSearchParams`
    * reads (without its leading '?'), and the parameters appended to it. */
  datatype RequestConfig = RequestConfig(baseURL: string, query: string, appended: seq<(string, string)>, timeout: int)

  /** `s.search(/\?+/)`: the position of the first '?', or none. */
  function QueryStart(s: string): (r: Option<nat>)
    ensures r.Some? ==> r.value < |s| && s[r.value] == '?' && '?' !in s[..r.value]
    ensures r.None? ==> '?' !in s
  {
    if |s| == 0 then None
    else if s[0] == '?' then Some(0)
    else
      match QueryStart(s[1..])
      case None => None
      case Some(p) => assert s[..p + 1] == [s[0]] + s[1..][..p]; Some(p + 1)
  }

  /** The url split at its first '?': the base has no '?', and base and query give back the url. */
  function SplitUrl(url: string): (r: (string, string))
    ensures '?' !in r.0
    ensures '?' in url ==> r.0 + "?" + r.1 == url
    ensures '?' !in url ==> r.0 == url && r.1 == ""
  {
    match QueryStart(url)
    case None => (url, "")
    case Some(p) => assert url == url[..p] + "?" + url[p + 1..]; (url[..p], url[p + 1..])
  }

  /** The local storage after `updateConfig` wrote the configuration `c` to it. */
  function SavedConfig(local: map<string, string>, c: Config): map<string, string>
  {
    local[BACKEND_URL_ITEM := Text(c.backendUrl)][RETURN_URL_ITEM := Text(c.returnUrl)]
      [USER_KEY_ITEM := Text(c.userKey)][ENVIRONMENT_KEY_ITEM := Text(c.environmentKey)]
      [DATA_TOKEN_ITEM := Text(c.dataToken)][FILE_TOKEN_ITEM := Text(c.fileToken)]
  }

  /** The time offset after `setTimeOffset` on an answer received at `now`. */
  function OffsetAfter(offset: Number, headers: map<string, string>, now: int): (r: Number)
    ensures !HasHeader(headers, TIME_HEADER) ==> r == offset
  {
    if HasHeader(headers, TIME_HEADER) then OffsetFromHeader(Str(headers[TIME_HEADER]), now) else offset
  }

  /** The configuration after `refreshToken`: only the two tokens change, each to its header. */
  function TokensAfter(c: Config, headers: map<string, string>): (r: Config)
    ensures r.backendUrl == c.backendUrl && r.returnUrl == c.returnUrl
    ensures r.userKey == c.userKey && r.environmentKey == c.environmentKey
    ensures r.dataToken == if HasHeader(headers, DATA_TOKEN_HEADER) then Some(headers[DATA_TOKEN_HEADER]) else c.dataToken
    ensures r.fileToken == if HasHeader(headers, FILE_TOKEN_HEADER) then Some(headers[FILE_TOKEN_HEADER]) else c.fileToken
  {
    c.(dataToken := if HasHeader(headers, DATA_TOKEN_HEADER) then Some(headers[DATA_TOKEN_HEADER]) else c.dataToken,
       fileToken := if HasHeader(headers, FILE_TOKEN_HEADER) then Some(headers[FILE_TOKEN_HEADER]) else c.fileToken)
  }

  /** The local storage after `setTimeOffset`. */
  function LocalAfterOffset(local: map<string, string>, headers: map<string, string>, now: int): map<string, string>
  {
    if HasHeader(headers, TIME_HEADER)
    then local[TIME_OFFSET_ITEM := NumberToString(OffsetFromHeader(Str(headers[TIME_HEADER]), now))]
    else local
  }

  /** The local storage after `refreshToken`. */
  function LocalAfterTokens(local: map<string, string>, headers: map<string, string>): map<string, string>
  {
    var l := if HasHeader(headers, DATA_TOKEN_HEADER) then local[DATA_TOKEN_ITEM := headers[DATA_TOKEN_HEADER]] else local;
    if HasHeader(headers, FILE_TOKEN_HEADER) then l[FILE_TOKEN_ITEM := headers[FILE_TOKEN_HEADER]] else l
  }

  /** The tokens an answer brings are those the next start-up reads from the local storage. */
  lemma TokensSurviveRestart(local: map<string, string>, headers: map<string, string>, now: int)
    ensures StoredConfig(LocalAfterTokens(LocalAfterOffset(local, headers, now), headers)) ==
      TokensAfter(StoredConfig(local), headers)
  {
  }

  /** An integral time offset taken from a header is read back unchanged at the next start-up. */
  lemma OffsetSurvivesRestart(local: map<string, string>, headers: map<string, string>, now: int)
    requires HasHeader(headers, TIME_HEADER)
    requires var o := OffsetAfter(StoredOffset(local), headers, now); o.Finite? && IsIntegral(o.r)
    ensures StoredOffset(LocalAfterTokens(LocalAfterOffset(local, headers, now), headers)) ==
      OffsetAfter(StoredOffset(local), headers, now)
  {
    var o := OffsetAfter(StoredOffset(local), headers, now);
    assert LocalAfterTokens(LocalAfterOffset(local, headers, now), headers)[TIME_OFFSET_ITEM] == NumberToString(o);
    NumberReadsBack(o.r.Floor);
  }

  /** `Math.floor(Number(String(i)))` is `i` for an integer `i`. */
  lemma NumberReadsBack(i: int)
    ensures NumberFloor(StringToNumber(NumberToString(Finite(i as real)))) == Finite(i as real)
  {
    assert (i as real).Floor == i;
    StringToNumberOfIntToString(i);
  }

  class ApiStore {
    var config: Config
    /** Difference (ms) between client time and server time. */
    var timeOffset: Number
    var initialized: bool
    var review: bool
    var showInitFailure: bool
    var showReplaceConfirmation: bool
    var showReloadConfirmation: bool
    var showFinalizeFailure: bool
    var showAuthorizeFailure: bool
    /** Client time (ms) of the running sending of writing steps, or 0. */
    var lastStepsTry: int
    /** Client time (ms) of the running sending of changes or update check, or 0. */
    var lastSendingTry: int
    /** The browser's local storage. */
    var local: map<string, string>
    /** The cookies of the writer's site. */
    var cookies: map<string, string>
    /** The timed synchronisation runs. */
    var timerStarted: bool
    /** Where the window was sent when the writer was left. */
    var location: Option<string>

    constructor(local: map<string, string>, cookies: map<string, string>)
      ensures config == EmptyConfig() && timeOffset == Finite(0.0)
      ensures !initialized && !review && !showInitFailure && !showReplaceConfirmation && !showReloadConfirmation
      ensures !showFinalizeFailure && !showAuthorizeFailure && lastStepsTry == 0 && lastSendingTry == 0
      ensures this.local == local && this.cookies == cookies && !timerStarted && location.None?
    {
      config, timeOffset := EmptyConfig(), Finite(0.0);
      initialized, review, showInitFailure, showReplaceConfirmation, showReloadConfirmation := false, false, false, false, false;
      showFinalizeFailure, showAuthorizeFailure, lastStepsTry, lastSendingTry := false, false, 0, 0;
      this.local, this.cookies, timerStarted, location := local, cookies, false, None;
    }

    /** The dialogs and modes the interface shows. */
    function Flags(): (bool, bool, bool, bool, bool, bool, bool)
      reads this
    {
      (initialized, review, showInitFailure, showReplaceConfirmation, showReloadConfirmation, showFinalizeFailure,
       showAuthorizeFailure)
    }

    /** `isSending` as written: the arrow function's body is a block without `return`, so the
      * getter is always undefined. */
    function IsSending(): (r: Value)
      reads this
      ensures !Truthy(r)
    {
      Undefined
    }

    /** `isAllSent` as written. */
    predicate IsAllSent(openSendings: nat, changes: CS.ChangesStore)
      reads this, changes
    {
      !Truthy(IsSending()) && openSendings + changes.Count() == 0
    }

    /** As written, everything counts as sent while a sending is still running. */
    lemma AllSentWhileSending(changes: CS.ChangesStore)
      requires lastSendingTry > 0 && changes.Count() == 0
      ensures IsAllSent(0, changes)
    {
    }

    /** `isSending` with the `return` it lacks. */
    predicate IsSendingCorrected()
      reads this
    {
      lastSendingTry > 0 || lastStepsTry > 0
    }

    predicate IsAllSentCorrected(openSendings: nat, changes: CS.ChangesStore)
      reads this, changes
    {
      !IsSendingCorrected() && openSendings + changes.Count() == 0
    }

    /** Corrected, everything is sent only when no request runs, no essay saving is open and no
      * change marker is left. */
    lemma AllSentMeansIdle(openSendings: nat, changes: CS.ChangesStore)
      ensures IsAllSentCorrected(openSendings, changes) <==>
        lastSendingTry <= 0 && lastStepsTry <= 0 && openSendings == 0 && changes.Count() == 0
    {
    }

    /** `getServerTime` */
    function GetServerTime(clientTime: int): (r: Number)
      reads this
      ensures clientTime == 0 ==> r == Finite(0.0)
      ensures clientTime != 0 && timeOffset.Finite? ==>
        r.Finite? && IsIntegral(r.r) && r.r <= (clientTime as real - timeOffset.r) / 1000.0 < r.r + 1.0
    {
      ServerTime(Finite(clientTime as real), timeOffset)
    }

    /** `getRequestConfig(token)`; reading the base url of a null backend url throws. */
    function GetRequestConfig(token: Option<string>, md5: string -> string): (r: Option<RequestConfig>)
      reads this
      ensures r.None? <==> config.backendUrl.None?
      ensures r.Some? ==> var url := config.backendUrl.value;
        '?' !in r.value.baseURL && r.value.timeout == REQUEST_TIMEOUT &&
        (if '?' in url then r.value.baseURL + "?" + r.value.query == url else r.value.baseURL == url && r.value.query == "")
      ensures r.Some? ==> (|r.value.appended| == 3 &&
        r.value.appended[2] == ("LongEssaySignature", md5(Text(config.userKey) + Text(config.environmentKey) + Text(token))))
    {
      if config.backendUrl.None? then None
      else
        var split := SplitUrl(config.backendUrl.value);
        Some(RequestConfig(split.0, split.1,
          [("LongEssayUser", Text(config.userKey)), ("LongEssayEnvironment", Text(config.environmentKey)),
           ("LongEssaySignature", md5(Text(config.userKey) + Text(config.environmentKey) + Text(token)))],
          REQUEST_TIMEOUT))
    }

    /** The first step of `init`: take the stored configuration and the cookies, decide how to
      * go on and show the dialog the decision asks for, given the essay store's answers and
      * whether the changes store has unsent changes (`countChanges > 0` as written, see
      * `UnsentChangesAsWritten`). The branches are those of `Decide`. */
    method InitStart(essayUnsent: bool, hashMatches: bool, unsentChanges: bool) returns (action: Start)
      modifies this
      ensures config == WithCookies(StoredConfig(local), cookies) && timeOffset == StoredOffset(local)
      ensures action == Decide(Complete(config), NewContext(StoredConfig(local), cookies),
        IsFilled(Lookup(cookies, HASH_COOKIE)), hashMatches, essayUnsent || unsentChanges)
      ensures showInitFailure == (old(showInitFailure) || action == InitFailure)
      ensures showReplaceConfirmation == (old(showReplaceConfirmation) || action == ConfirmReplace)
      ensures showReloadConfirmation == (old(showReloadConfirmation) || action == ConfirmReload)
      ensures initialized == old(initialized) && review == old(review) && showFinalizeFailure == old(showFinalizeFailure)
      ensures showAuthorizeFailure == old(showAuthorizeFailure)
      ensures local == old(local) && cookies == old(cookies) && lastStepsTry == old(lastStepsTry)
      ensures lastSendingTry == old(lastSendingTry) && timerStarted == old(timerStarted) && location == old(location)
    {
      var stored := StoredConfig(local);
      config := WithCookies(stored, cookies);
      timeOffset := StoredOffset(local);
      var newContext := NewContext(stored, cookies);
      if !Complete(config) {
        showInitFailure := true;
        return InitFailure;
      }
      var unsent := essayUnsent || unsentChanges;
      if newContext {
        if unsent {
          showReplaceConfirmation := true;
          action := ConfirmReplace;
        } else {
          action := FromBackend;
        }
      } else if IsFilled(Lookup(cookies, HASH_COOKIE)) {
        if hashMatches {
          action := FromStorage;
        } else if unsent {
          showReloadConfirmation := true;
          action := ConfirmReload;
        } else {
          action := FromBackend;
        }
      } else {
        action := if unsent then FromStorage else FromBackend;
      }
    }

    /** The last step of `init`, after the load it chose: the timed synchronisation starts unless
      * the configuration was incomplete or the load threw. */
    method InitFinish(action: Start, loadThrew: bool)
      modifies this
      ensures timerStarted == (old(timerStarted) || (action != InitFailure && !loadThrew))
      ensures config == old(config) && timeOffset == old(timeOffset) && local == old(local) && cookies == old(cookies)
      ensures Flags() == old(Flags()) && lastSendingTry == old(lastSendingTry) && lastStepsTry == old(lastStepsTry)
      ensures location == old(location)
    {
      if action != InitFailure && !loadThrew {
        timerStarted := true;
      }
    }

    /** `updateConfig`: remove the cookies and keep the configuration in the local storage. */
    method UpdateConfig()
      modifies this
      ensures cookies == old(cookies) - COOKIES
      ensures local == SavedConfig(old(local), config)
      ensures config == old(config) && timeOffset == old(timeOffset) && Flags() == old(Flags())
      ensures lastSendingTry == old(lastSendingTry) && lastStepsTry == old(lastStepsTry)
      ensures timerStarted == old(timerStarted) && location == old(location)
    {
      cookies := cookies - COOKIES;
      local := SavedConfig(local, config);
    }

    /** The stored configuration read back is the one in memory, except that null values come
      * back as the text "null". */
    lemma UpdatedConfigReadsBack(l: map<string, string>)
      requires config.backendUrl.Some? && config.returnUrl.Some? && config.userKey.Some?
      requires config.environmentKey.Some? && config.dataToken.Some? && config.fileToken.Some?
      requires l == SavedConfig(local, config)
      ensures StoredConfig(l) == config
    {
    }

    /** `setTimeOffset` on the headers of an answer received at `now`. */
    method SetTimeOffset(headers: map<string, string>, now: int)
      modifies this
      ensures timeOffset == OffsetAfter(old(timeOffset), headers, now)
      ensures local == LocalAfterOffset(old(local), headers, now)
      ensures config == old(config) && cookies == old(cookies) && Flags() == old(Flags())
      ensures lastSendingTry == old(lastSendingTry) && lastStepsTry == old(lastStepsTry)
      ensures timerStarted == old(timerStarted) && location == old(location)
    {
      if HasHeader(headers, TIME_HEADER) {
        timeOffset := OffsetFromHeader(Str(headers[TIME_HEADER]), now);
        local := local[TIME_OFFSET_ITEM := NumberToString(timeOffset)];
      }
    }

    /** `refreshToken` on the headers of an answer. */
    method RefreshToken(headers: map<string, string>)
      modifies this
      ensures config == TokensAfter(old(config), headers)
      ensures local == LocalAfterTokens(old(local), headers)
      ensures timeOffset == old(timeOffset) && cookies == old(cookies) && Flags() == old(Flags())
      ensures lastSendingTry == old(lastSendingTry) && lastStepsTry == old(lastStepsTry)
      ensures timerStarted == old(timerStarted) && location == old(location)
    {
      if HasHeader(headers, DATA_TOKEN_HEADER) {
        config := config.(dataToken := Some(headers[DATA_TOKEN_HEADER]));
        local := local[DATA_TOKEN_ITEM := headers[DATA_TOKEN_HEADER]];
      }
      if HasHeader(headers, FILE_TOKEN_HEADER) {
        config := config.(fileToken := Some(headers[FILE_TOKEN_HEADER]));
        local := local[FILE_TOKEN_ITEM := headers[FILE_TOKEN_HEADER]];
      }
    }

    /** `setTimeOffset` and then `refreshToken`, as every request but the final one does. */
    method TakeAnswer(headers: map<string, string>, now: int)
      modifies this
      ensures timeOffset == OffsetAfter(old(timeOffset), headers, now)
      ensures config == TokensAfter(old(config), headers)
      ensures local == LocalAfterTokens(LocalAfterOffset(old(local), headers, now), headers)
      ensures cookies == old(cookies) && Flags() == old(Flags())
      ensures lastSendingTry == old(lastSendingTry) && lastStepsTry == old(lastStepsTry)
      ensures timerStarted == old(timerStarted) && location == old(location)
    {
      SetTimeOffset(headers, now);
      RefreshToken(headers);
    }

    /** `sendStart`: the server time of `now` is sent; a failed request shows the init failure. */
    method SendStart(now: int, answer: Option<map<string, string>>) returns (started: Number, ok: bool)
      modifies this
      ensures started == ServerTime(Finite(now as real), old(timeOffset)) && ok == answer.Some?
      ensures answer.Some? ==> (timeOffset == OffsetAfter(old(timeOffset), answer.value, now) &&
        config == TokensAfter(old(config), answer.value) && Flags() == old(Flags()))
      ensures answer.None? ==> (timeOffset == old(timeOffset) && config == old(config) && local == old(local) &&
        Flags() == old(Flags()).(2 := true))
      ensures cookies == old(cookies) && lastSendingTry == old(lastSendingTry) && lastStepsTry == old(lastStepsTry)
      ensures timerStarted == old(timerStarted) && location == old(location)
    {
      started := ServerTime(Finite(now as real), timeOffset);
      if answer.Some? {
        TakeAnswer(answer.value, now);
        ok := true;
      } else {
        showInitFailure := true;
        ok := false;
      }
    }

    /** `loadDataFromStorage`: the configuration is saved and the stores load their stored
      * data. When every call returns, the update check comes next (`StartUpdate` and
      * `FinishUpdate`, which catch their own errors) and the app is initialized; a call that
      * throws ends the load with the rejection `threw`. */
    method LoadDataFromStorage(fixes: set<Fix>) returns (calls: seq<Call>, threw: bool)
      modifies this
      ensures calls == Completed(STORAGE_LOAD, fixes) && (threw <==> |calls| < |STORAGE_LOAD|)
      ensures Flags() == old(Flags()).(0 := old(initialized) || !threw)
      ensures local == SavedConfig(old(local), config)
      ensures config == old(config) && timeOffset == old(timeOffset) && cookies == old(cookies) - COOKIES
      ensures lastSendingTry == old(lastSendingTry) && lastStepsTry == old(lastStepsTry)
    {
      UpdateConfig();
      calls := Completed(STORAGE_LOAD, fixes);
      threw := |calls| < |STORAGE_LOAD|;
      if !threw {
        initialized := true;
      }
    }

    /** `loadDataFromBackend` after its `updateConfig` (`UpdateConfig`), with the answer to the
      * data request: the stores take over the data.
      * The result says whether the start is sent next (`SendStart`); the order of setting
      * `initialized` and sending the start makes no difference to the state. */
    method LoadDataFromBackend(answer: Option<Answer>, now: int, fixes: set<Fix>)
      returns (calls: seq<Call>, threw: bool, sendStart: bool)
      modifies this
      ensures answer.None? ==> (calls == [] && !threw && !sendStart && Flags() == old(Flags()).(2 := true) &&
        config == old(config) && timeOffset == old(timeOffset))
      ensures answer.Some? ==> (timeOffset == OffsetAfter(old(timeOffset), answer.value.headers, now) &&
        config == TokensAfter(old(config), answer.value.headers))
      ensures answer.Some? && !IsSet(answer.value.data) ==> (calls == [] && threw && !sendStart)
      ensures answer.Some? && IsSet(answer.value.data) ==> (calls == Completed(BACKEND_LOAD, fixes) &&
        var essay := Get(Fields(answer.value.data), "essay");
        (threw <==> |calls| < |BACKEND_LOAD| || !IsSet(essay)) &&
        (sendStart <==> !threw && !Truthy(Get(Fields(essay), "started"))))
      ensures answer.Some? ==> Flags() == old(Flags()).(0 := old(initialized) || !threw)
      ensures cookies == old(cookies) && local == (if answer.Some? then LocalAfterTokens(LocalAfterOffset(old(local), answer.value.headers, now), answer.value.headers) else old(local))
      ensures lastSendingTry == old(lastSendingTry) && lastStepsTry == old(lastStepsTry)
    {
      calls, threw, sendStart := [], false, false;
      if answer.None? {
        showInitFailure := true;
        return;
      }
      TakeAnswer(answer.value.headers, now);
      var data := answer.value.data;
      if !IsSet(data) {
        threw := true;
        return;
      }
      calls := Completed(BACKEND_LOAD, fixes);
      var essay := Get(Fields(data), "essay");
      if |calls| < |BACKEND_LOAD| || !IsSet(essay) {
        threw := true;
        return;
      }
      sendStart := !Truthy(Get(Fields(essay), "started"));
      initialized := true;
    }

    /** The guard of `loadUpdateFromBackend`: a running request stops it, otherwise it marks the
      * request as running. */
    method StartUpdate(now: int) returns (go: bool)
      modifies this
      ensures go <==> old(lastSendingTry) <= 0
      ensures lastSendingTry == if go then now else old(lastSendingTry)
      ensures config == old(config) && timeOffset == old(timeOffset) && local == old(local) && Flags() == old(Flags())
      ensures lastStepsTry == old(lastStepsTry)
    {
      if lastSendingTry > 0 {
        return false;
      }
      lastSendingTry := now;
      go := true;
    }

    /** The rest of `loadUpdateFromBackend`, with the answer to the update request: the task
      * takes over the new data, and sets the review mode when the writing has ended or the
      * writer is excluded; then the alerts take over theirs. As written the task store's load
      * throws at its end (see `Returns`); the catch then answers false and the alerts are not
      * loaded. */
    method FinishUpdate(answer: Option<Answer>, now: int, task: TS.TaskStore, alerts: AS.AlertsStore, fixes: set<Fix>)
      returns (ok: bool)
      modifies this, task, alerts
      ensures lastSendingTry == 0
      ensures ok == (answer.Some? && IsSet(answer.value.data) && TaskInterval in fixes)
      ensures answer.None? ==> (config == old(config) && timeOffset == old(timeOffset) && local == old(local))
      ensures answer.Some? ==> (timeOffset == OffsetAfter(old(timeOffset), answer.value.headers, now) &&
        config == TokensAfter(old(config), answer.value.headers))
      ensures answer.Some? && IsSet(answer.value.data) ==>
        task.remainingTime == TS.RemainingTime(task.writingEnd, ServerTime(Finite(now as real), timeOffset)) &&
        review == (old(review) || task.WritingEndReached() || task.IsExcluded())
      ensures !(answer.Some? && IsSet(answer.value.data)) ==> review == old(review) && unchanged(task)
      ensures !ok ==> unchanged(alerts)
      ensures initialized == old(initialized) && lastStepsTry == old(lastStepsTry)
    {
      if answer.None? {
        lastSendingTry := 0;
        return false;
      }
      TakeAnswer(answer.value.headers, now);
      var data := answer.value.data;
      if !IsSet(data) {
        lastSendingTry := 0;
        return false;
      }
      var offset := timeOffset;
      var reached, threw := task.LoadFromData(Get(Fields(data), "task"), now, offset, TaskInterval in fixes);
      if reached {
        review := true;
      }
      if threw {
        lastSendingTry := 0;
        return false;
      }
      alerts.LoadFromData(Get(Fields(data), "alerts"), false);
      lastSendingTry := 0;
      ok := true;
    }

    /** The start of `saveChangesToBackend(wait)`: the optional wait for a running sending, the
      * guard, and the data to send. `afterWait` is what `lastSendingTry` is after each wait. */
    method StartSave(wait: bool, afterWait: seq<int>, now: int, changes: CS.ChangesStore, notes: NS.NotesStore)
      returns (tries: nat, step: SaveStep, ghost markerKeys: seq<string>)
      requires |afterWait| == MAX_WAIT_TRIES && changes.Valid()
      modifies this
      ensures tries <= MAX_WAIT_TRIES && (!wait ==> tries == 0)
      ensures var seen := Observed(old(lastSendingTry), afterWait, tries);
        (seen > 0 ==> step == Done(false) && lastSendingTry == seen) &&
        (seen <= 0 && changes.Count() == 0 ==> step == Done(true) && lastSendingTry == seen) &&
        (seen <= 0 && changes.Count() > 0 ==> step.Send? && lastSendingTry == now)
      ensures step.Send? ==> (step.preferences == [] && |step.notes| == |markerKeys| &&
        (forall k :: k in markerKeys <==>
          k in changes.MarkersOf(CD.TYPE_NOTES) && CS.Due(changes.MarkersOf(CD.TYPE_NOTES)[k], now)) &&
        forall i :: 0 <= i < |step.notes| ==>
          var c := changes.MarkersOf(CD.TYPE_NOTES)[markerKeys[i]];
          step.notes[i] == ChangeDataToSend(c, NS.Payload(notes.storage, c), timeOffset))
      ensures config == old(config) && timeOffset == old(timeOffset) && local == old(local) && Flags() == old(Flags())
      ensures lastStepsTry == old(lastStepsTry)
    {
      var seen := lastSendingTry;
      tries := 0;
      if wait {
        tries, seen := WaitForSending(lastSendingTry, afterWait);
      }
      lastSendingTry := seen;
      markerKeys := [];
      if lastSendingTry > 0 {
        return tries, Done(false), [];
      }
      var count := changes.CountChanges();
      if count == 0 {
        return tries, Done(true), [];
      }
      lastSendingTry := now;
      var entries;
      entries, markerKeys := notes.GetChangedData(now, changes, timeOffset);
      step := Send(entries, []);
    }

    /** The rest of `saveChangesToBackend`, with the answer to the sending: the changes store
      * drops or moves the markers the backend processed. */
    method FinishSave(answer: Option<SaveAnswer>, now: int, changes: CS.ChangesStore) returns (ok: bool)
      requires changes.Valid()
      modifies this, changes
      ensures lastSendingTry == 0 && ok == answer.Some? && changes.Valid()
      ensures answer.None? ==> (changes.changes == old(changes.changes) && config == old(config) && timeOffset == old(timeOffset))
      ensures answer.Some? ==>
        var sent := old(lastSendingTry);
        var before := old(changes.changes);
        changes.changes == before[CD.TYPE_NOTES := CS.AcknowledgeAll(before[CD.TYPE_NOTES], answer.value.notes, sent)]
          [CD.TYPE_PREFERENCES := CS.AcknowledgeAll(before[CD.TYPE_PREFERENCES], answer.value.preferences, sent)] &&
        changes.lastSendingSuccess == Finite(now as real) &&
        timeOffset == OffsetAfter(old(timeOffset), answer.value.headers, now) &&
        config == TokensAfter(old(config), answer.value.headers)
      ensures Flags() == old(Flags()) && lastStepsTry == old(lastStepsTry)
    {
      if answer.None? {
        lastSendingTry := 0;
        return false;
      }
      TakeAnswer(answer.value.headers, now);
      var sent := lastSendingTry;
      changes.SetChangesSent(CD.TYPE_NOTES, answer.value.notes, sent, now);
      changes.SetChangesSent(CD.TYPE_PREFERENCES, answer.value.preferences, sent, now);
      lastSendingTry := 0;
      ok := true;
    }

    /** The start of `saveWritingStepsToBackend`: it marks the sending as running, unguarded. */
    method StartSteps(now: int)
      modifies this
      ensures lastStepsTry == now && lastSendingTry == old(lastSendingTry) && config == old(config)
      ensures timeOffset == old(timeOffset) && local == old(local) && Flags() == old(Flags())
    {
      lastStepsTry := now;
    }

    /** The rest of `saveWritingStepsToBackend`, with the answer to the sending. */
    method FinishSteps(answer: Option<map<string, string>>, now: int) returns (ok: bool)
      modifies this
      ensures lastStepsTry == 0 && ok == answer.Some? && lastSendingTry == old(lastSendingTry)
      ensures answer.Some? ==> (config == TokensAfter(old(config), answer.value) &&
        timeOffset == OffsetAfter(old(timeOffset), answer.value, now))
      ensures answer.None? ==> (config == old(config) && timeOffset == old(timeOffset))
      ensures Flags() == old(Flags())
    {
      if answer.Some? {
        TakeAnswer(answer.value, now);
      }
      lastStepsTry := 0;
      ok := answer.Some?;
    }

    /** `finalize(authorize)`: the final content is sent when authorizing or when essay savings
      * are open (`final` holds the headers of the answer, none when the request failed); on
      * failure the review shows the failure and nothing is cleared, otherwise the stores and
      * the local storage are cleared and the writer goes to the return url. */
    method Finalize(authorize: bool, openSendings: nat, final: Option<map<string, string>>,
                    fixes: set<Fix>) returns (sent: bool, calls: seq<Call>)
      modifies this
      ensures sent <==> authorize || openSendings > 0
      ensures sent && final.None? ==> (calls == [] && config == old(config) && local == old(local) &&
        location == old(location) && Flags() == old(Flags()).(1 := true).(5 := true).(6 := authorize))
      ensures !(sent && final.None?) ==> (calls == Completed(FINALIZE_CLEAR, fixes) && Flags() == old(Flags()) &&
        config == (if sent then TokensAfter(old(config), final.value) else old(config)))
      ensures |calls| == |FINALIZE_CLEAR| ==> (local == map[] && location == Some(Text(config.returnUrl)))
      ensures |calls| < |FINALIZE_CLEAR| ==> (location == old(location) &&
        local == if sent && final.Some? then LocalAfterTokens(old(local), final.value) else old(local))
      ensures lastSendingTry == old(lastSendingTry) && timeOffset == old(timeOffset)
      ensures cookies == old(cookies) && lastStepsTry == old(lastStepsTry) && timerStarted == old(timerStarted)
    {
      calls := [];
      sent := authorize || openSendings > 0;
      if sent {
        if final.None? {
          review := true;
          showFinalizeFailure := true;
          showAuthorizeFailure := authorize;
          return;
        }
        RefreshToken(final.value);
      }
      calls := Completed(FINALIZE_CLEAR, fixes);
      if |calls| == |FINALIZE_CLEAR| {
        local := map[];
        location := Some(Text(config.returnUrl));
      }
    }

    /** `retry`: resend the final content without authorizing; the review is shown again in any
      * case. The result says whether the essay store marks its savings as sent. */
    method Retry(final: Option<map<string, string>>) returns (markSent: bool)
      modifies this
      ensures markSent == final.Some?
      ensures Flags() == old(Flags()).(1 := true).(5 := old(showFinalizeFailure) || final.None?)
      ensures final.Some? ==> config == TokensAfter(old(config), final.value)
      ensures final.None? ==> config == old(config)
      ensures local == if final.Some? then LocalAfterTokens(old(local), final.value) else old(local)
      ensures lastSendingTry == old(lastSendingTry) && timeOffset == old(timeOffset) && location == old(location)
      ensures cookies == old(cookies) && lastStepsTry == old(lastStepsTry) && timerStarted == old(timerStarted)
    {
      if final.Some? {
        RefreshToken(final.value);
        markSent := true;
      } else {
        showFinalizeFailure := true;
        markSent := false;
      }
      review := true;
    }
  }
}
