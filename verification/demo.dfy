/** The demo fixtures: a fixed profile, three mood entries stamped relative to
    the moment the module is loaded, one quote, and the switch that routes
    every operation to these fixtures instead of the network. */
module Demo {
  import opened Types

  /** The build ships with demo mode on. */
  const IsDemoMode: bool := true

  const DemoUserId: string := "demo-user"
  const DemoToken: string := "demo-token"

  const DemoUser: User := User(DemoUserId, "demo@example.com", "Demo User")

  const DayMs: int := 86400000

  /** The fixture entries, newest first; `loadedAt` is `Date.now()` when the
      fixture module is evaluated. */
  function DemoMoods(loadedAt: Timestamp): seq<MoodEntry>
  {
    [ MoodEntry("1", DemoUserId, 8, 7, "Exercise", 7.5,
                Some("Great workout session today!"), loadedAt - DayMs),
      MoodEntry("2", DemoUserId, 6, 5, "Work/Study", 6.0,
                Some("Busy day at work but manageable"), loadedAt - 2 * DayMs),
      MoodEntry("3", DemoUserId, 9, 9, "Social Time", 8.0,
                Some("Amazing time with friends!"), loadedAt - 3 * DayMs) ]
  }

  function DemoQuote(loadedAt: Timestamp): Quote
  {
    Quote("demo-quote", "The only way to do great work is to love what you do.", "Steve Jobs", loadedAt)
  }

  /** Three entries with ids "1", "2", "3", all owned by the demo user, dated
      one, two and three days before load time, so strictly newest first. */
  lemma DemoMoodsShape(loadedAt: Timestamp)
    ensures |DemoMoods(loadedAt)| == 3
    ensures DemoMoods(loadedAt)[0].id == "1" && DemoMoods(loadedAt)[1].id == "2" && DemoMoods(loadedAt)[2].id == "3"
    ensures forall i :: 0 <= i < 3 ==> DemoMoods(loadedAt)[i].userId == DemoUser.id
    ensures forall i :: 0 <= i < 3 ==> DemoMoods(loadedAt)[i].createdAt == loadedAt - (i + 1) * DayMs
    ensures forall i, j :: 0 <= i < j < 3 ==> DemoMoods(loadedAt)[i].createdAt > DemoMoods(loadedAt)[j].createdAt
  {
  }

  /** Every fixture stays within the mood form's ranges. */
  lemma DemoMoodsInRange(loadedAt: Timestamp)
    ensures forall e :: e in DemoMoods(loadedAt) ==>
      1 <= e.mood <= 10 && 1 <= e.energy <= 10 && 0.0 <= e.sleep <= 24.0 && e.activity != ""
  {
  }
}
