/** The session store: the auth token and the user profile kept under two
    fixed keys of the browser's local storage. In demo mode the reads ignore
    storage and answer with the demo identity. */
module Session {
  import opened Types
  import opened Demo
  import UserJson

  /** Local storage as a string-to-string map. */
  type Storage = map<string, string>

  const TokenKey: string := "mood_logger_token"
  const UserKey: string := "mood_logger_user"

  /** Request headers as a string-to-string map. */
  type Headers = map<string, string>

  /** Storage equal to `st` outside the given keys. */
  ghost predicate SameOutside(st: Storage, st': Storage, keys: set<string>)
  {
    forall k :: k !in keys ==> (k in st <==> k in st') && (k in st ==> st'[k] == st[k])
  }

  function SetAuthToken(st: Storage, token: string): (st': Storage)
    ensures TokenKey in st' && st'[TokenKey] == token
    ensures SameOutside(st, st', {TokenKey})
  {
    st[TokenKey := token]
  }

  function GetAuthToken(st: Storage, demo: bool): (r: Option<string>)
    ensures demo ==> r == Some(DemoToken)
    ensures !demo ==> (r.Some? <==> TokenKey in st)
    ensures !demo && r.Some? ==> r.value == st[TokenKey]
  {
    if demo then Some(DemoToken)
    else if TokenKey in st then Some(st[TokenKey])
    else None
  }

  /** Logging out clears both keys and nothing else. */
  function RemoveAuthToken(st: Storage): (st': Storage)
    ensures TokenKey !in st' && UserKey !in st'
    ensures SameOutside(st, st', {TokenKey, UserKey})
  {
    st - {TokenKey} - {UserKey}
  }

  function SetUser(st: Storage, u: User): (st': Storage)
    ensures UserKey in st' && st'[UserKey] == UserJson.Encode(u)
    ensures SameOutside(st, st', {UserKey})
  {
    st[UserKey := UserJson.Encode(u)]
  }

  /** The stored text is read back only when it is truthy (non-empty). Text
      that does not parse as a profile reads as no user. */
  function GetUser(st: Storage, demo: bool): (r: Option<User>)
    ensures demo ==> r == Some(DemoUser)
    ensures !demo && (UserKey !in st || st[UserKey] == "") ==> r == None
  {
    if demo then Some(DemoUser)
    else if UserKey in st && st[UserKey] != "" then UserJson.Decode(st[UserKey])
    else None
  }

  /** `!!getAuthToken()`: a token counts only when present and non-empty. */
  function IsAuthenticated(st: Storage, demo: bool): (b: bool)
    ensures demo ==> b
    ensures !demo ==> (b <==> TokenKey in st && st[TokenKey] != "")
  {
    if demo then true
    else
      var t := GetAuthToken(st, demo);
      t.Some? && t.value != ""
  }

  function GetAuthHeaders(st: Storage, demo: bool): (h: Headers)
    ensures h.Keys <= {"Authorization"}
  {
    var t := GetAuthToken(st, demo);
    if t.Some? && t.value != "" then map["Authorization" := "Bearer " + t.value] else map[]
  }

  /** In demo mode the reads answer with the demo identity whatever storage holds. */
  lemma DemoIdentity(st: Storage)
    ensures GetAuthToken(st, true) == Some(DemoToken)
    ensures GetUser(st, true) == Some(DemoUser)
    ensures IsAuthenticated(st, true)
    ensures GetAuthHeaders(st, true) == map["Authorization" := "Bearer demo-token"]
  {
    assert "Bearer " + DemoToken == "Bearer demo-token";
  }

  lemma TokenRoundTrip(st: Storage, token: string)
    ensures GetAuthToken(SetAuthToken(st, token), false) == Some(token)
  {
  }

  lemma UserRoundTrip(st: Storage, u: User)
    ensures GetUser(SetUser(st, u), false) == Some(u)
  {
    UserJson.EncodeNonEmpty(u);
    UserJson.DecodeEncode(u);
  }

  /** Writing the token leaves the stored user readable as before, and
      writing the user leaves the token as before. */
  lemma WritesDoNotInterfere(st: Storage, token: string, u: User)
    ensures GetUser(SetAuthToken(st, token), false) == GetUser(st, false)
    ensures GetAuthToken(SetUser(st, u), false) == GetAuthToken(st, false)
  {
  }

  lemma LogoutClearsSession(st: Storage)
    ensures GetAuthToken(RemoveAuthToken(st), false) == None
    ensures GetUser(RemoveAuthToken(st), false) == None
    ensures !IsAuthenticated(RemoveAuthToken(st), false)
    ensures GetAuthHeaders(RemoveAuthToken(st), false) == map[]
  {
  }

  /** Outside demo mode, authenticated exactly when a non-empty token is stored. */
  lemma AuthenticatedIff(st: Storage)
    ensures IsAuthenticated(st, false) <==> TokenKey in st && st[TokenKey] != ""
  {
  }

  /** The header map carries a bearer entry exactly when the token is truthy. */
  lemma HeadersIff(st: Storage, demo: bool)
    ensures "Authorization" in GetAuthHeaders(st, demo) <==> IsAuthenticated(st, demo)
    ensures IsAuthenticated(st, demo) ==>
      GetAuthHeaders(st, demo) == map["Authorization" := "Bearer " + GetAuthToken(st, demo).value]
    ensures !IsAuthenticated(st, demo) ==> GetAuthHeaders(st, demo) == map[]
  {
  }
}
