/** Shared records of the mood logger client: the user profile, mood entries,
    the mood form payload, quotes, and the uniform result envelope that every
    API operation resolves to. */
module Types {

  datatype Option<+T> = None | Some(value: T)

  /** JavaScript's `s || fallback` on an optional string: an absent or empty
      string is falsy and yields the fallback. */
  function OrElse(s: Option<string>, fallback: string): (r: string)
    ensures s.Some? && s.value != "" ==> r == s.value
    ensures s.None? || s.value == "" ==> r == fallback
  {
    if s.Some? && s.value != "" then s.value else fallback
  }

  /** The first `min(k, |s|)` elements, as `Array.prototype.slice(0, k)`. */
  function Take<T>(s: seq<T>, k: nat): (r: seq<T>)
    ensures |r| == if |s| < k then |s| else k
    ensures r <= s
  {
    if |s| < k then s else s[..k]
  }

  /** Milliseconds since the epoch; the ISO-8601 rendering is not modelled. */
  type Timestamp = int

  datatype User = User(id: string, email: string, name: string)

  datatype AuthResponse = AuthResponse(token: string, user: User)

  datatype LoginData = LoginData(email: string, password: string)

  datatype RegisterData = RegisterData(name: string, email: string, password: string)

  /** One logged mood. Mood and energy come from integer sliders (1-10),
      sleep from a slider with step 0.5, so it is an exact rational. */
  datatype MoodEntry = MoodEntry(
    id: string,
    userId: string,
    mood: int,
    energy: int,
    activity: string,
    sleep: real,
    notes: Option<string>,
    createdAt: Timestamp)

  datatype MoodFormData = MoodFormData(
    mood: int,
    energy: int,
    activity: string,
    sleep: real,
    notes: Option<string>)

  datatype Quote = Quote(id: string, text: string, author: string, date: Timestamp)

  datatype ChatReply = ChatReply(response: string)

  /** The envelope `{ success, data?, message? }`. */
  datatype ApiResponse<T> = ApiResponse(success: bool, data: Option<T>, message: Option<string>)

  /** How the `try` block of a page handler ends: the awaited facade call
      resolves to an envelope, or something in the block throws and the
      handler's `catch` branch runs. The facade itself never rejects (the
      request primitive catches every error and the demo branches return),
      so `Rejected` stands for a throw elsewhere in the block, such as a
      response body of an unexpected shape. */
  datatype Settled<T> = Resolved(response: ApiResponse<T>) | Rejected

  /** The handlers' guard `response.success && response.data`. */
  predicate Delivered<T>(s: Settled<T>)
  {
    s.Resolved? && s.response.success && s.response.data.Some?
  }
}
