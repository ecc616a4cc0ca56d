/** The session provider. On mount it discards a stored session whose
    refresh token is unusable, so the auth client does not start from a
    corrupted token; afterwards every session event sets the session, the
    user derived from it, and ends the initial loading state. */
module UseAuth {
  import opened Common

  const TokenMinLength := 20
  const RefreshTokenKey := "refresh_token"

  /** The browser-storage key under which the auth client keeps the
      session of a project. */
  function StorageKey(projectId: string): string {
    "sb-" + projectId + "-auth-token"
  }

  // ------------------------------------------------------ stored session

  /** A parsed JSON value, as far as the validator looks into it: strings,
      arrays, objects, and every other kind (numbers, booleans, null). */
  datatype Json = JString(s: string) | JArray(items: seq<Json>) | JObject(fields: map<string, Json>) | JOther

  /** `Array.isArray(parsed) ? parsed[0] : parsed`, with `None` for the
      `undefined` of an empty array. */
  function SessionData(parsed: Json): Option<Json> {
    match parsed
    case JArray(items) => if |items| > 0 then Some(items[0]) else None
    case _ => Some(parsed)
  }

  /** `sessionData?.refresh_token`, kept only when it is a string. */
  function RefreshToken(parsed: Json): Option<string> {
    match SessionData(parsed)
    case Some(JObject(fields)) =>
      if RefreshTokenKey in fields && fields[RefreshTokenKey].JString? then Some(fields[RefreshTokenKey].s) else None
    case _ => None
  }

  /** The validator's verdict; `parsed` is `None` when `JSON.parse` threw. */
  function ShouldRemove(parsed: Option<Json>): bool {
    || parsed.None?
    || RefreshToken(parsed.value).None?
    || |RefreshToken(parsed.value).value| < TokenMinLength
  }

  /** `o` is an object whose refresh token is the string `s`. */
  predicate HasToken(o: Json, s: string) {
    o.JObject? && RefreshTokenKey in o.fields && o.fields[RefreshTokenKey] == JString(s)
  }

  /** A stored session worth keeping: the value, or the first element of an
      array value, is an object carrying a string refresh token of at least
      twenty characters. */
  ghost predicate CarriesUsableToken(j: Json) {
    exists s :: |s| >= TokenMinLength
      && (HasToken(j, s) || (j.JArray? && |j.items| > 0 && HasToken(j.items[0], s)))
  }

  /** The stored value is removed exactly when it does not parse or does not
      carry a usable refresh token. */
  lemma ShouldRemoveIffUnusable(parsed: Option<Json>)
    ensures ShouldRemove(parsed) <==> parsed.None? || !CarriesUsableToken(parsed.value)
  {
    if parsed.Some? {
      var j := parsed.value;
      if !ShouldRemove(parsed) {
        var s := RefreshToken(j).value;
        if j.JArray? {
          assert HasToken(j.items[0], s);
        } else {
          assert HasToken(j, s);
        }
      }
    }
  }

  /** An array is judged by its first element (when that is not itself an
      array), and an empty array is removed. */
  lemma ArrayJudgedByFirst(first: Json, rest: seq<Json>)
    ensures !first.JArray? ==> ShouldRemove(Some(JArray([first] + rest))) == ShouldRemove(Some(first))
    ensures first.JArray? ==> ShouldRemove(Some(JArray([first] + rest)))
    ensures ShouldRemove(Some(JArray([])))
  {
  }

  // -------------------------------------------------------------- storage

  /** `localStorage`, as a map from keys to stored strings. */
  class LocalStorage {
    var items: map<string, string>

    constructor (initial: map<string, string>)
      ensures items == initial
    {
      items := initial;
    }

    /** `getItem`: the stored string, or `None` for null. */
    function GetItem(key: string): (v: Option<string>)
      reads this
      ensures v.Some? <==> key in items
      ensures v.Some? ==> v.value == items[key]
    {
      if key in items then Some(items[key]) else None
    }

    method RemoveItem(key: string)
      modifies this
      ensures items == old(items) - {key}
    {
      items := items - {key};
    }
  }

  /** The storage after `clearInvalidStoredSession`: nothing happens without
      a project id or without a (non-empty) stored value; otherwise the
      project's key is removed when the validator says so. */
  function AfterCleanup(items: map<string, string>, projectId: Option<string>, parse: string -> Option<Json>)
    : (r: map<string, string>)
    ensures r.Keys <= items.Keys
    ensures forall k :: k in r ==> r[k] == items[k]
    ensures projectId.None? || projectId.value == "" ==> r == items
    ensures projectId.Some? ==> forall k :: k in items && k != StorageKey(projectId.value) ==> k in r
    ensures projectId.Some? && projectId.value != "" && StorageKey(projectId.value) in items ==>
      var stored := items[StorageKey(projectId.value)];
      (StorageKey(projectId.value) !in r <==> stored != "" && ShouldRemove(parse(stored)))
  {
    if projectId.None? || projectId.value == "" then items
    else
      var key := StorageKey(projectId.value);
      if key !in items || items[key] == "" then items
      else if ShouldRemove(parse(items[key])) then items - {key}
      else items
  }

  /** `clearInvalidStoredSession`. `projectId` is the configured project id
      (missing or empty disables the check); `parse` stands for `JSON.parse`
      (`None` when it throws). */
  method ClearInvalidStoredSession(projectId: Option<string>, storage: LocalStorage, parse: string -> Option<Json>)
    modifies storage
    ensures storage.items == AfterCleanup(old(storage.items), projectId, parse)
  {
    if projectId.None? || projectId.value == "" {
      return;
    }
    var key := StorageKey(projectId.value);
    var stored := storage.GetItem(key);
    if stored.None? || stored.value == "" {
      return;
    }
    var parsed := parse(stored.value);
    if ShouldRemove(parsed) {
      storage.RemoveItem(key);
    }
  }

  // ------------------------------------------------------------- provider

  datatype User = User(id: string, email: string)
  datatype Session = Session(user: User, accessToken: string, refreshToken: string)

  /** `session?.user ?? null`. */
  function SessionUser(session: Option<Session>): Option<User> {
    if session.Some? then Some(session.value.user) else None
  }

  class AuthProvider {
    var user: Option<User>
    var session: Option<Session>
    var loading: bool

    /** The user is always the session's user. */
    ghost predicate Valid()
      reads this
    {
      user == SessionUser(session)
    }

    constructor ()
      ensures Valid()
      ensures user == None && session == None && loading
    {
      user := None;
      session := None;
      loading := true;
    }

    /** A session event (`onAuthStateChange`) or the answer of the first
        `getSession`: both store the session, derive the user from it and
        end loading. */
    method OnSession(s: Option<Session>)
      requires Valid()
      modifies this
      ensures Valid()
      ensures session == s && user == SessionUser(s) && !loading
    {
      session := s;
      user := SessionUser(s);
      loading := false;
    }
  }
}
