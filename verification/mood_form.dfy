/** The mood form: its validation schema, the emoji shown beside the mood and
    energy sliders, and the submit handler's effect on the form state. */
module MoodForm {
  import opened Types
  import Demo
  import Api

  /** The values the form holds. The activity is unset until one is picked
      from the list; the notes field may be left untouched. */
  datatype FormValues = FormValues(mood: int, energy: int, activity: Option<string>, sleep: real, notes: Option<string>)

  /** The form opens at mood 5, energy 5, 8 hours of sleep, no activity. */
  const DefaultValues: FormValues := FormValues(5, 5, None, 8.0, None)

  /** One schema violation, one kind per constraint. */
  datatype Issue = MoodOutOfRange | EnergyOutOfRange | ActivityRequired | ActivityEmpty | SleepOutOfRange

  /** The message the schema itself gives for an issue; the other issues
      carry zod's built-in messages, which are not modelled. */
  function SchemaMessage(issue: Issue): (m: Option<string>)
    ensures m.Some? <==> issue == ActivityEmpty
    ensures m.Some? ==> m.value == "Please select an activity"
  {
    if issue == ActivityEmpty then Some("Please select an activity") else None
  }

  /** The schema's constraints, field by field. */
  predicate SchemaHolds(v: FormValues)
  {
    && 1 <= v.mood <= 10
    && 1 <= v.energy <= 10
    && v.activity.Some? && |v.activity.value| >= 1
    && 0.0 <= v.sleep <= 24.0
  }

  datatype Validation = Parsed(data: MoodFormData) | Refused(issues: seq<Issue>)

  function MoodIssues(v: FormValues): seq<Issue>
  {
    if 1 <= v.mood <= 10 then [] else [MoodOutOfRange]
  }

  function EnergyIssues(v: FormValues): seq<Issue>
  {
    if 1 <= v.energy <= 10 then [] else [EnergyOutOfRange]
  }

  function ActivityIssues(v: FormValues): seq<Issue>
  {
    if v.activity.None? then [ActivityRequired] else if |v.activity.value| < 1 then [ActivityEmpty] else []
  }

  function SleepIssues(v: FormValues): seq<Issue>
  {
    if 0.0 <= v.sleep <= 24.0 then [] else [SleepOutOfRange]
  }

  /** The issues for one value, in field order. */
  function Issues(v: FormValues): seq<Issue>
  {
    MoodIssues(v) + EnergyIssues(v) + ActivityIssues(v) + SleepIssues(v)
  }

  /** Each issue is reported exactly when its constraint fails. */
  lemma IssuesExact(v: FormValues)
    ensures |Issues(v)| == 0 <==> SchemaHolds(v)
    ensures MoodOutOfRange in Issues(v) <==> !(1 <= v.mood <= 10)
    ensures EnergyOutOfRange in Issues(v) <==> !(1 <= v.energy <= 10)
    ensures ActivityRequired in Issues(v) <==> v.activity.None?
    ensures ActivityEmpty in Issues(v) <==> v.activity == Some("")
    ensures SleepOutOfRange in Issues(v) <==> !(0.0 <= v.sleep <= 24.0)
  {
    var m, e, a, s := MoodIssues(v), EnergyIssues(v), ActivityIssues(v), SleepIssues(v);
    assert forall x :: x in Issues(v) <==> x in m || x in e || x in a || x in s;
  }

  /** The schema accepts exactly the values meeting every constraint, and
      then hands on the fields unchanged; otherwise it names each violated
      constraint and no other. */
  function Validate(v: FormValues): (r: Validation)
    ensures r.Parsed? <==> SchemaHolds(v)
    ensures r.Parsed? ==> r.data == MoodFormData(v.mood, v.energy, v.activity.value, v.sleep, v.notes)
    ensures r.Refused? ==> |r.issues| > 0
    ensures r.Refused? ==> (MoodOutOfRange in r.issues <==> !(1 <= v.mood <= 10))
    ensures r.Refused? ==> (EnergyOutOfRange in r.issues <==> !(1 <= v.energy <= 10))
    ensures r.Refused? ==> (ActivityRequired in r.issues <==> v.activity.None?)
    ensures r.Refused? ==> (ActivityEmpty in r.issues <==> v.activity == Some(""))
    ensures r.Refused? ==> (SleepOutOfRange in r.issues <==> !(0.0 <= v.sleep <= 24.0))
  {
    IssuesExact(v);
    var issues := Issues(v);
    if |issues| == 0 then Parsed(MoodFormData(v.mood, v.energy, v.activity.value, v.sleep, v.notes))
    else Refused(issues)
  }

  /** The defaults are within range, yet the form cannot be submitted until
      an activity is chosen: that is the only complaint. */
  lemma DefaultsNeedActivity()
    ensures Validate(DefaultValues) == Refused([ActivityRequired])
  {
  }

  const Activities: seq<string> := [
    "Work/Study", "Exercise", "Social Time", "Relaxation", "Hobbies",
    "Family Time", "Outdoor Activities", "Reading", "Entertainment", "Other"
  ]

  /** Ten distinct choices, and picking any of them on the default form makes
      it valid. */
  lemma ActivitiesDistinctAndValid(i: nat)
    requires i < |Activities|
    ensures |Activities| == 10
    ensures forall j, k :: 0 <= j < k < |Activities| ==> Activities[j] != Activities[k]
    ensures Validate(DefaultValues.(activity := Some(Activities[i]))).Parsed?
  {
  }

  /** Every demo fixture, read back into the form, passes the schema. */
  lemma DemoMoodsSatisfySchema(loadedAt: Timestamp, i: nat)
    requires i < |Demo.DemoMoods(loadedAt)|
    ensures var e := Demo.DemoMoods(loadedAt)[i];
      Validate(FormValues(e.mood, e.energy, Some(e.activity), e.sleep, e.notes)).Parsed?
  {
  }

  // ---- slider emoji ----------------------------------------------------------

  /** The slider bucket: at most 2, 4, 6, 8, or above. */
  function Bucket(value: int): (b: nat)
    ensures b < 5
  {
    if value <= 2 then 0
    else if value <= 4 then 1
    else if value <= 6 then 2
    else if value <= 8 then 3
    else 4
  }

  /** A larger value never falls in a lower bucket. */
  lemma BucketMonotone(a: int, b: int)
    requires a <= b
    ensures Bucket(a) <= Bucket(b)
  {
  }

  /** On the 1-10 scale the buckets are consecutive pairs of values. */
  lemma BucketPairs(value: int)
    requires 1 <= value <= 10
    ensures Bucket(value) == (value - 1) / 2
  {
  }

  const MoodEmojis: seq<string> := ["😢", "😕", "😐", "🙂", "😊"]
  const EnergyEmojis: seq<string> := ["😴", "😪", "😐", "😊", "⚡"]

  function MoodEmoji(value: int): (e: string)
    ensures e in MoodEmojis
  {
    MoodEmojis[Bucket(value)]
  }

  function EnergyEmoji(value: int): (e: string)
    ensures e in EnergyEmojis
  {
    EnergyEmojis[Bucket(value)]
  }

  /** The face each band of the scale shows, for both sliders. */
  lemma EmojiThresholds(v: int)
    ensures v <= 2 ==> MoodEmoji(v) == "😢" && EnergyEmoji(v) == "😴"
    ensures 2 < v <= 4 ==> MoodEmoji(v) == "😕" && EnergyEmoji(v) == "😪"
    ensures 4 < v <= 6 ==> MoodEmoji(v) == "😐" && EnergyEmoji(v) == "😐"
    ensures 6 < v <= 8 ==> MoodEmoji(v) == "🙂" && EnergyEmoji(v) == "😊"
    ensures v > 8 ==> MoodEmoji(v) == "😊" && EnergyEmoji(v) == "⚡"
  {
  }

  /** Each scale's symbols are distinct, so the symbol shown identifies the
      bucket. The scales share two faces: the neutral one in the middle
      bucket, and the smile that tops the mood scale but marks 7-8 energy. */
  lemma EmojiIdentifiesBucket(a: int, b: int)
    ensures MoodEmoji(a) == MoodEmoji(b) <==> Bucket(a) == Bucket(b)
    ensures EnergyEmoji(a) == EnergyEmoji(b) <==> Bucket(a) == Bucket(b)
    ensures MoodEmoji(a) == EnergyEmoji(b) <==> Bucket(a) == Bucket(b) == 2 || (Bucket(a) == 4 && Bucket(b) == 3)
  {
  }

  // ---- submit ------------------------------------------------------------------

  datatype FormState = FormState(
    values: FormValues,
    loading: bool,
    error: string,
    success: bool,
    successCalls: nat)   // how often `onSuccess` has been invoked

  const InitialForm: FormState := FormState(DefaultValues, false, "", false, 0)

  const FailedToLog: string := "Failed to log mood"
  const UnexpectedError: string := "An unexpected error occurred"

  /** The synchronous start of `onSubmit`. */
  function BeginSubmit(s: FormState): (s': FormState)
    ensures s'.loading && s'.error == "" && !s'.success
    ensures s'.values == s.values && s'.successCalls == s.successCalls
  {
    s.(loading := true, error := "", success := false)
  }

  /** `onSubmit` from start to `finally`: a successful envelope resets the
      form and calls `onSuccess` once; a failed one or a throw reports an
      error and keeps the values. */
  function OnSubmit(s: FormState, settled: Settled<MoodEntry>): (s': FormState)
    ensures !s'.loading
    ensures settled.Resolved? && settled.response.success ==>
      s'.success && s'.error == "" && s'.values == DefaultValues && s'.successCalls == s.successCalls + 1
    ensures !(settled.Resolved? && settled.response.success) ==>
      !s'.success && s'.values == s.values && s'.successCalls == s.successCalls && s'.error != ""
    ensures settled.Resolved? && !settled.response.success ==>
      s'.error == OrElse(settled.response.message, FailedToLog)
    ensures settled.Rejected? ==> s'.error == UnexpectedError
  {
    var b := BeginSubmit(s);
    match settled
    case Resolved(response) =>
      if response.success then
        b.(success := true, values := DefaultValues, successCalls := b.successCalls + 1, loading := false)
      else
        b.(error := OrElse(response.message, FailedToLog), loading := false)
    case Rejected =>
      b.(error := UnexpectedError, loading := false)
  }

  /** Pressing submit: refused values never reach the API. */
  function SubmitForm(s: FormState, settled: Settled<MoodEntry>): (s': FormState)
    ensures !SchemaHolds(s.values) ==> s' == s
    ensures SchemaHolds(s.values) ==> s' == OnSubmit(s, settled)
  {
    if Validate(s.values).Parsed? then OnSubmit(s, settled) else s
  }

  /** Unlike the login and register pages, the form checks only
      `response.success`: a live create answered 2xx with a `null` body
      still counts as logged. */
  lemma EmptyCreateStillSucceeds(s: FormState, data: MoodFormData, stampId: string, now: Timestamp)
    ensures var s' := OnSubmit(s, Resolved(Api.CreateMood(false, data, stampId, now, Api.OkEmpty)));
      s'.success && s'.values == DefaultValues && s'.successCalls == s.successCalls + 1
  {
  }

  /** In demo mode a valid submission always succeeds: the form resets and
      `onSuccess` runs exactly once. */
  lemma DemoSubmitSucceeds(s: FormState, stampId: string, now: Timestamp, outcome: Api.FetchOutcome<MoodEntry>)
    requires SchemaHolds(s.values)
    ensures var data := Validate(s.values).data;
      var s' := SubmitForm(s, Resolved(Api.CreateMood(true, data, stampId, now, outcome)));
      s'.success && s'.values == DefaultValues && s'.successCalls == s.successCalls + 1 && !s'.loading
  {
  }
}
