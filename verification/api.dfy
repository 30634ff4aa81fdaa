/** The API facade. Every operation resolves to the `{ success, data?, message? }`
    envelope: in demo mode it answers from the fixtures without any network
    call, otherwise it goes through the generic request primitive, which
    turns every outcome of the HTTP exchange, thrown ones included, into an
    envelope. */
module Api {
  import opened Types
  import opened Demo
  import Session

  /** What a `catch` clause can receive: an `Error` object, or any other
      thrown value. */
  datatype Thrown = ErrorObject(message: string) | NonError

  /** The result of `fetch` plus `response.json()`, seen from `request`: a 2xx
      response with its parsed body, a 2xx response whose parsed body is
      `null` or another falsy value, a non-2xx response whose parsed body may
      carry a `message`, or a throw (network failure, unparsable body, or a
      non-2xx `null` body, whose `.message` read throws a `TypeError`). */
  datatype FetchOutcome<T> = Ok(body: T) | OkEmpty | NotOk(message: Option<string>) | Threw(thrown: Thrown)

  const RequestFailed: string := "API request failed"
  const UnknownError: string := "Unknown error occurred"

  /** The shape every failure and success takes: success carries no
      message (and its data may be missing), failure carries a message and
      no data. */
  predicate WellFormed<T>(r: ApiResponse<T>)
  {
    if r.success then r.message.None? else r.data.None? && r.message.Some?
  }

  /** A 2xx answer of either kind. */
  predicate Succeeded<T>(outcome: FetchOutcome<T>)
  {
    outcome.Ok? || outcome.OkEmpty?
  }

  /** The text a failed request reports; the non-2xx case throws an `Error`
      built from `data.message || 'API request failed'`, which the `catch`
      then reads back. */
  function FailureText<T>(outcome: FetchOutcome<T>): string
    requires !Succeeded(outcome)
  {
    match outcome
    case NotOk(m) => OrElse(m, RequestFailed)
    case Threw(ErrorObject(m)) => m
    case Threw(NonError) => UnknownError
  }

  /** The generic request primitive; it is total, so it never throws. */
  function Request<T>(outcome: FetchOutcome<T>): (r: ApiResponse<T>)
    ensures WellFormed(r)
    ensures r.success <==> Succeeded(outcome)
    ensures r.data.Some? <==> outcome.Ok?
    ensures outcome.Ok? ==> r.data == Some(outcome.body)
    ensures outcome.NotOk? && (outcome.message.None? || outcome.message.value == "") ==>
      r.message == Some(RequestFailed)
    ensures outcome.NotOk? && outcome.message.Some? && outcome.message.value != "" ==>
      r.message == outcome.message
    ensures outcome == Threw(NonError) ==> r.message == Some(UnknownError)
    ensures outcome.Threw? && outcome.thrown.ErrorObject? ==> r.message == Some(outcome.thrown.message)
  {
    match outcome
    case Ok(body) => ApiResponse(true, Some(body), None)
    case OkEmpty => ApiResponse(true, None, None)
    case _ => ApiResponse(false, None, Some(FailureText(outcome)))
  }

  /** A failed request always reports some message, and the default text
      appears only when the server gave none. */
  lemma RequestFailureMessage<T>(outcome: FetchOutcome<T>)
    requires outcome.NotOk?
    ensures Request(outcome).message.Some?
    ensures Request(outcome).message.value != ""
    ensures Request(outcome).message.value == RequestFailed <==>
      outcome.message.None? || outcome.message.value == "" || outcome.message.value == RequestFailed
  {
  }

  // ---- live-mode HTTP calls ------------------------------------------------

  datatype Method = Get | Post

  datatype Operation = LoginOp | RegisterOp | GetMoodsOp | CreateMoodOp
                     | WeeklyMoodsOp | MonthlyMoodsOp | TodayQuoteOp | ChatOp

  datatype HttpCall = HttpCall(verb: Method, path: string, headers: Session.Headers)

  function Endpoint(op: Operation): (Method, string)
  {
    match op
    case LoginOp => (Post, "/api/auth/login")
    case RegisterOp => (Post, "/api/auth/register")
    case GetMoodsOp => (Get, "/api/moods")
    case CreateMoodOp => (Post, "/api/moods")
    case WeeklyMoodsOp => (Get, "/api/moods/weekly")
    case MonthlyMoodsOp => (Get, "/api/moods/monthly")
    case TodayQuoteOp => (Get, "/api/quotes/today")
    case ChatOp => (Post, "/api/chatbot")
  }

  /** No two operations share both method and path. */
  lemma EndpointInjective(a: Operation, b: Operation)
    requires Endpoint(a) == Endpoint(b)
    ensures a == b
  {
  }

  /** The JSON content type plus the session's auth headers. */
  function RequestHeaders(st: Session.Storage): Session.Headers
  {
    map["Content-Type" := "application/json"] + Session.GetAuthHeaders(st, false)
  }

  function LiveCall(op: Operation, st: Session.Storage): HttpCall
  {
    HttpCall(Endpoint(op).0, Endpoint(op).1, RequestHeaders(st))
  }

  /** Every live call sends JSON, and carries a bearer token exactly when the
      session holds a non-empty one. */
  lemma LiveCallHeaders(op: Operation, st: Session.Storage)
    ensures LiveCall(op, st).headers.Keys <= {"Content-Type", "Authorization"}
    ensures "Content-Type" in LiveCall(op, st).headers
    ensures LiveCall(op, st).headers["Content-Type"] == "application/json"
    ensures "Authorization" in LiveCall(op, st).headers <==> Session.IsAuthenticated(st, false)
    ensures Session.IsAuthenticated(st, false) ==>
      LiveCall(op, st).headers["Authorization"] == "Bearer " + st[Session.TokenKey]
  {
    Session.HeadersIff(st, false);
  }

  // ---- the operations ------------------------------------------------------

  const DemoLoginName: string := "Demo User"

  function Login(demo: bool, credentials: LoginData, outcome: FetchOutcome<AuthResponse>): (r: ApiResponse<AuthResponse>)
    ensures WellFormed(r)
    ensures demo ==> r.success && r.data.Some?
    ensures demo ==> r.data.value.token == DemoToken
    ensures demo ==> r.data.value.user == User(DemoUserId, credentials.email, DemoLoginName)
    ensures !demo ==> r == Request(outcome)
  {
    if demo then ApiResponse(true, Some(AuthResponse(DemoToken, User(DemoUserId, credentials.email, DemoLoginName))), None)
    else Request(outcome)
  }

  function Register(demo: bool, userData: RegisterData, outcome: FetchOutcome<AuthResponse>): (r: ApiResponse<AuthResponse>)
    ensures WellFormed(r)
    ensures demo ==> r.success && r.data.Some?
    ensures demo ==> r.data.value.token == DemoToken
    ensures demo ==> r.data.value.user == User(DemoUserId, userData.email, userData.name)
    ensures !demo ==> r == Request(outcome)
  {
    if demo then ApiResponse(true, Some(AuthResponse(DemoToken, User(DemoUserId, userData.email, userData.name))), None)
    else Request(outcome)
  }

  /** The three listing queries share one shape: in demo mode they all answer
      with the whole fixture list, regardless of the range asked for. */
  function ListMoods(demo: bool, loadedAt: Timestamp, outcome: FetchOutcome<seq<MoodEntry>>): (r: ApiResponse<seq<MoodEntry>>)
    ensures WellFormed(r)
    ensures demo ==> r.success && r.data == Some(DemoMoods(loadedAt))
    ensures !demo ==> r == Request(outcome)
  {
    if demo then ApiResponse(true, Some(DemoMoods(loadedAt)), None) else Request(outcome)
  }

  /** The listing of all entries; the demo answers with every fixture. */
  function GetMoods(demo: bool, loadedAt: Timestamp, outcome: FetchOutcome<seq<MoodEntry>>): (r: ApiResponse<seq<MoodEntry>>)
    ensures demo ==> r == ApiResponse(true, Some(DemoMoods(loadedAt)), None)
    ensures !demo ==> r == Request(outcome)
  {
    ListMoods(demo, loadedAt, outcome)
  }

  /** The listing of the past week; the demo answers with every fixture. */
  function GetWeeklyMoods(demo: bool, loadedAt: Timestamp, outcome: FetchOutcome<seq<MoodEntry>>): (r: ApiResponse<seq<MoodEntry>>)
    ensures demo ==> r == ApiResponse(true, Some(DemoMoods(loadedAt)), None)
    ensures !demo ==> r == Request(outcome)
  {
    ListMoods(demo, loadedAt, outcome)
  }

  /** The listing of the past month; the demo answers with every fixture. */
  function GetMonthlyMoods(demo: bool, loadedAt: Timestamp, outcome: FetchOutcome<seq<MoodEntry>>): (r: ApiResponse<seq<MoodEntry>>)
    ensures demo ==> r == ApiResponse(true, Some(DemoMoods(loadedAt)), None)
    ensures !demo ==> r == Request(outcome)
  {
    ListMoods(demo, loadedAt, outcome)
  }

  /** In demo mode the weekly, monthly and full listings coincide, and none of
      them depends on what a live outcome would have been. */
  lemma DemoListingsAgree(loadedAt: Timestamp, o1: FetchOutcome<seq<MoodEntry>>, o2: FetchOutcome<seq<MoodEntry>>,
                          o3: FetchOutcome<seq<MoodEntry>>)
    ensures GetMoods(true, loadedAt, o1) == GetWeeklyMoods(true, loadedAt, o2) == GetMonthlyMoods(true, loadedAt, o3)
    ensures GetMoods(true, loadedAt, o1) == ApiResponse(true, Some(DemoMoods(loadedAt)), None)
  {
  }

  /** The entry a create produces: the form fields copied onto the demo
      owner, with an id and a creation time taken from the clock. */
  function CreateMood(demo: bool, data: MoodFormData, stampId: string, now: Timestamp,
                      outcome: FetchOutcome<MoodEntry>): (r: ApiResponse<MoodEntry>)
    ensures WellFormed(r)
    ensures demo ==> r.success && r.data.Some?
    ensures demo ==> var e := r.data.value;
      e.userId == DemoUserId && e.id == stampId && e.createdAt == now &&
      e.mood == data.mood && e.energy == data.energy && e.activity == data.activity &&
      e.sleep == data.sleep && e.notes == data.notes
    ensures !demo ==> r == Request(outcome)
  {
    if demo then
      ApiResponse(true, Some(MoodEntry(stampId, DemoUserId, data.mood, data.energy, data.activity,
                                       data.sleep, data.notes, now)), None)
    else Request(outcome)
  }

  /** A demo create is not appended to the fixtures: an entry whose id is not
      a fixture id never shows up in any later listing. */
  lemma DemoCreateNotListed(loadedAt: Timestamp, data: MoodFormData, stampId: string, now: Timestamp,
                            o1: FetchOutcome<MoodEntry>, o2: FetchOutcome<seq<MoodEntry>>)
    requires stampId !in {"1", "2", "3"}
    ensures CreateMood(true, data, stampId, now, o1).data.value !in GetMoods(true, loadedAt, o2).data.value
    ensures |GetMoods(true, loadedAt, o2).data.value| == 3
  {
    var listed := GetMoods(true, loadedAt, o2).data.value;
    assert forall i :: 0 <= i < |listed| ==> listed[i].id in {"1", "2", "3"};
  }

  function GetTodayQuote(demo: bool, loadedAt: Timestamp, outcome: FetchOutcome<Quote>): (r: ApiResponse<Quote>)
    ensures WellFormed(r)
    ensures demo ==> r.success && r.data == Some(DemoQuote(loadedAt))
    ensures !demo ==> r == Request(outcome)
  {
    if demo then ApiResponse(true, Some(DemoQuote(loadedAt)), None) else Request(outcome)
  }

  const CannedReplies: seq<string> := [
    "Thank you for sharing that with me. How are you feeling about it?",
    "It sounds like you're going through a lot. Remember that it's okay to take things one day at a time.",
    "That's a great insight! Self-awareness is an important step in mental wellness.",
    "I hear you. It's completely normal to have ups and downs. What helps you feel better when you're struggling?",
    "It's wonderful that you're taking care of your mental health. Keep up the great work!"
  ]

  /** `Math.floor(random * responses.length)` for a draw in [0, 1). */
  function ReplyIndex(random: real): (i: nat)
    requires 0.0 <= random < 1.0
    ensures i < |CannedReplies|
    ensures i as real <= random * 5.0 < i as real + 1.0
  {
    (random * 5.0).Floor
  }

  /** `random` is the `Math.random()` draw; the message text is sent only in
      live mode and never influences the demo reply. */
  function SendChatMessage(demo: bool, message: string, random: real, outcome: FetchOutcome<ChatReply>): (r: ApiResponse<ChatReply>)
    requires 0.0 <= random < 1.0
    ensures WellFormed(r)
    ensures demo ==> r.success && r.data.Some? && r.data.value.response in CannedReplies
    ensures !demo ==> r == Request(outcome)
  {
    if demo then ApiResponse(true, Some(ChatReply(CannedReplies[ReplyIndex(random)])), None)
    else Request(outcome)
  }

  /** Every canned reply can be drawn, and the reply ignores the message. */
  lemma DemoChatCoversReplies(i: nat, m1: string, m2: string, o: FetchOutcome<ChatReply>)
    requires i < |CannedReplies|
    ensures var random := i as real / 5.0;
      0.0 <= random < 1.0 &&
      SendChatMessage(true, m1, random, o).data == Some(ChatReply(CannedReplies[i])) &&
      SendChatMessage(true, m1, random, o) == SendChatMessage(true, m2, random, o)
  {
    var random := i as real / 5.0;
    assert random * 5.0 == i as real;
  }
}
