/** The dashboard page: it fetches the mood list once, keeps the three most
    recent entries, and summarises them as a rounded average and a trend
    between the two newest entries. */
module Dashboard {
  import opened Types
  import Demo
  import Api
  import Session

  datatype DashboardState = DashboardState(recentMoods: seq<MoodEntry>, loading: bool)

  const InitialDashboard: DashboardState := DashboardState([], true)

  const RecentCount: nat := 3

  /** The effect of the page's fetch: only a delivered list replaces the
      recent moods, and loading ends whatever happened. */
  function FetchRecentMoods(s: DashboardState, settled: Settled<seq<MoodEntry>>): (s': DashboardState)
    ensures !s'.loading
    ensures Delivered(settled) ==> s'.recentMoods <= settled.response.data.value
    ensures Delivered(settled) ==>
      |s'.recentMoods| == if |settled.response.data.value| < 3 then |settled.response.data.value| else 3
    ensures !Delivered(settled) ==> s'.recentMoods == s.recentMoods
  {
    if Delivered(settled) then DashboardState(Take(settled.response.data.value, RecentCount), false)
    else s.(loading := false)
  }

  function SumMoods(moods: seq<MoodEntry>): int
  {
    if |moods| == 0 then 0 else moods[0].mood + SumMoods(moods[1..])
  }

  /** `Math.round(s / n)` for n > 0: the nearest integer, halves rounded up. */
  function RoundDiv(s: int, n: nat): (r: int)
    requires n > 0
    ensures n * (2 * r - 1) <= 2 * s < n * (2 * r + 1)
  {
    var q := (2 * s + n) / (2 * n);
    DivBounds(2 * s + n, 2 * n);
    q
  }

  /** Euclidean division by a positive divisor brackets the dividend. */
  lemma DivBounds(a: int, d: int)
    requires d > 0
    ensures d * (a / d) <= a < d * (a / d) + d
  {
  }

  /** No other integer satisfies the rounding bracket, so it pins the result. */
  lemma RoundDivUnique(s: int, n: nat, r: int)
    requires n > 0
    requires n * (2 * r - 1) <= 2 * s < n * (2 * r + 1)
    ensures RoundDiv(s, n) == r
  {
    var q := RoundDiv(s, n);
    if q < r {
      assert 2 * q + 1 <= 2 * r - 1;
      MulMonotone(n, 2 * q + 1, 2 * r - 1);
      assert false;
    } else if q > r {
      assert 2 * r + 1 <= 2 * q - 1;
      MulMonotone(n, 2 * r + 1, 2 * q - 1);
      assert false;
    }
  }

  lemma MulMonotone(n: nat, a: int, b: int)
    requires a <= b
    ensures n * a <= n * b
  {
  }

  /** The "Average Mood" card: 0 with no entries, otherwise the mean mood
      rounded as `Math.round` rounds. */
  function AverageMood(moods: seq<MoodEntry>): (r: int)
    ensures |moods| == 0 ==> r == 0
    ensures |moods| > 0 ==> |moods| * (2 * r - 1) <= 2 * SumMoods(moods) < |moods| * (2 * r + 1)
  {
    if |moods| == 0 then 0 else RoundDiv(SumMoods(moods), |moods|)
  }

  /** Each mood in [lo, hi] bounds the sum between n*lo and n*hi. */
  lemma {:induction false} SumMoodsBounds(moods: seq<MoodEntry>, lo: int, hi: int)
    requires forall i :: 0 <= i < |moods| ==> lo <= moods[i].mood <= hi
    ensures |moods| * lo <= SumMoods(moods) <= |moods| * hi
    decreases |moods|
  {
    if |moods| > 0 {
      SumMoodsBounds(moods[1..], lo, hi);
    }
  }

  /** Rounding a quotient that lies in [lo, hi] stays in [lo, hi]. */
  lemma RoundDivInRange(s: int, n: nat, lo: int, hi: int)
    requires n > 0
    requires n * lo <= s <= n * hi
    ensures lo <= RoundDiv(s, n) <= hi
  {
    var r := RoundDiv(s, n);
    assert n * (2 * lo - 1) == 2 * (n * lo) - n;
    assert n * (2 * hi + 1) == 2 * (n * hi) + n;
    if r < lo {
      MulMonotone(n, 2 * r + 1, 2 * lo - 1);
      assert false;
    }
    if r > hi {
      MulMonotone(n, 2 * hi + 1, 2 * r - 1);
      assert false;
    }
  }

  /** With every mood in [lo, hi] the rounded average stays in [lo, hi];
      on the 1-10 scale it is therefore a valid mood. */
  lemma AverageMoodInRange(moods: seq<MoodEntry>, lo: int, hi: int)
    requires |moods| > 0
    requires forall i :: 0 <= i < |moods| ==> lo <= moods[i].mood <= hi
    ensures lo <= AverageMood(moods) <= hi
  {
    SumMoodsBounds(moods, lo, hi);
    RoundDivInRange(SumMoods(moods), |moods|, lo, hi);
  }

  datatype Trend = Improving | Declining | Stable

  /** The "Mood Trend" card compares the newest entry with the one before;
      with fewer than two entries it is stable. */
  function MoodTrend(moods: seq<MoodEntry>): (t: Trend)
    ensures |moods| < 2 ==> t == Stable
    ensures |moods| >= 2 ==> (t == Improving <==> moods[0].mood > moods[1].mood)
    ensures |moods| >= 2 ==> (t == Declining <==> moods[0].mood < moods[1].mood)
  {
    if |moods| < 2 then Stable
    else if moods[0].mood > moods[1].mood then Improving
    else if moods[0].mood < moods[1].mood then Declining
    else Stable
  }

  /** The trend is decided by the two newest entries alone, and swapping them
      swaps improving with declining. */
  lemma TrendSymmetric(a: MoodEntry, b: MoodEntry, rest: seq<MoodEntry>)
    ensures MoodTrend([a, b] + rest) == Improving <==> MoodTrend([b, a] + rest) == Declining
    ensures MoodTrend([a, b] + rest) == Stable <==> MoodTrend([b, a] + rest) == Stable
    ensures MoodTrend([a, b] + rest) == MoodTrend([a, b])
  {
  }

  /** The greeting falls back to "User" without a profile or with an empty name. */
  function GreetingName(user: Option<User>): (name: string)
    ensures name != ""
    ensures user.Some? && user.value.name != "" ==> name == user.value.name
    ensures user.None? || user.value.name == "" ==> name == "User"
  {
    if user.Some? && user.value.name != "" then user.value.name else "User"
  }

  /** In demo mode the dashboard shows the three fixtures, an average of 8
      (23 / 3 rounded), an improving trend (8 after 6), and greets the demo user. */
  lemma DemoDashboard(loadedAt: Timestamp, outcome: Api.FetchOutcome<seq<MoodEntry>>, st: Session.Storage)
    ensures var s := FetchRecentMoods(InitialDashboard, Resolved(Api.GetMoods(true, loadedAt, outcome)));
      && s.recentMoods == Demo.DemoMoods(loadedAt)
      && AverageMood(s.recentMoods) == 8
      && MoodTrend(s.recentMoods) == Improving
      && !s.loading
    ensures GreetingName(Session.GetUser(st, true)) == "Demo User"
  {
    var moods := Demo.DemoMoods(loadedAt);
    assert SumMoods(moods[3..]) == 0;
    assert SumMoods(moods[2..]) == 9 by { assert moods[2..][1..] == moods[3..]; }
    assert SumMoods(moods[1..]) == 15 by { assert moods[1..][1..] == moods[2..]; }
    RoundDivUnique(23, 3, 8);
  }
}
