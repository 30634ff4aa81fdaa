/** The mood list: it fetches all entries once, then shows a skeleton while
    loading, an empty-state message when there is nothing, or the five newest
    entries with colour-coded mood and energy badges. */
module MoodList {
  import opened Types

  datatype ListState = ListState(moods: seq<MoodEntry>, loading: bool)

  const InitialList: ListState := ListState([], true)

  /** Only a delivered list replaces the entries; loading ends regardless. */
  function FetchMoods(s: ListState, settled: Settled<seq<MoodEntry>>): (s': ListState)
    ensures !s'.loading
    ensures Delivered(settled) ==> s'.moods == settled.response.data.value
    ensures !Delivered(settled) ==> s'.moods == s.moods
  {
    if Delivered(settled) then ListState(settled.response.data.value, false)
    else s.(loading := false)
  }

  const ShownCount: nat := 5

  datatype ListView = Skeleton | EmptyState | Entries(shown: seq<MoodEntry>)

  function View(s: ListState): (v: ListView)
    ensures v.Skeleton? <==> s.loading
    ensures v.EmptyState? <==> !s.loading && |s.moods| == 0
    ensures v.Entries? ==> v.shown <= s.moods && |v.shown| == if |s.moods| < 5 then |s.moods| else 5
    ensures v.Entries? ==> |v.shown| > 0
  {
    if s.loading then Skeleton
    else if |s.moods| == 0 then EmptyState
    else Entries(Take(s.moods, ShownCount))
  }

  /** A failed or thrown first fetch ends in the empty state. */
  lemma FailedFetchShowsEmpty(settled: Settled<seq<MoodEntry>>)
    requires !Delivered(settled)
    ensures View(FetchMoods(InitialList, settled)) == EmptyState
  {
  }

  /** A delivered non-empty list shows its first entries in order: entry i
      on screen is entry i of the response. */
  lemma DeliveredListShowsPrefix(settled: Settled<seq<MoodEntry>>, i: nat)
    requires Delivered(settled) && |settled.response.data.value| > 0
    requires i < 5 && i < |settled.response.data.value|
    ensures View(FetchMoods(InitialList, settled)).Entries?
    ensures i < |View(FetchMoods(InitialList, settled)).shown|
    ensures View(FetchMoods(InitialList, settled)).shown[i] == settled.response.data.value[i]
  {
  }

  datatype Colour = Red | Yellow | Blue | Green | Gray | Orange | Purple

  /** The Tailwind classes each badge colour stands for. */
  function Classes(c: Colour): string
  {
    match c
    case Red => "bg-red-100 text-red-800"
    case Yellow => "bg-yellow-100 text-yellow-800"
    case Blue => "bg-blue-100 text-blue-800"
    case Green => "bg-green-100 text-green-800"
    case Gray => "bg-gray-100 text-gray-800"
    case Orange => "bg-orange-100 text-orange-800"
    case Purple => "bg-purple-100 text-purple-800"
  }

  /** The badge band: at most 3, 5, 7, or above. */
  function Band(value: int): (b: nat)
    ensures b < 4
  {
    if value <= 3 then 0 else if value <= 5 then 1 else if value <= 7 then 2 else 3
  }

  const MoodColours: seq<Colour> := [Red, Yellow, Blue, Green]
  const EnergyColours: seq<Colour> := [Gray, Orange, Blue, Purple]

  function MoodColour(mood: int): (c: Colour)
    ensures c in MoodColours
  {
    MoodColours[Band(mood)]
  }

  function EnergyColour(energy: int): (c: Colour)
    ensures c in EnergyColours
  {
    EnergyColours[Band(energy)]
  }

  /** `getMoodColor`: the class string of the mood badge. */
  function MoodBadge(mood: int): string
  {
    Classes(MoodColour(mood))
  }

  /** `getEnergyColor`: the class string of the energy badge. */
  function EnergyBadge(energy: int): string
  {
    Classes(EnergyColour(energy))
  }

  /** Bands never go down as the value grows, each scale's colours are
      distinct, and the scales agree only on blue for 6-7. */
  lemma ColourBands(a: int, b: int)
    ensures a <= b ==> Band(a) <= Band(b)
    ensures MoodColour(a) == MoodColour(b) <==> Band(a) == Band(b)
    ensures EnergyColour(a) == EnergyColour(b) <==> Band(a) == Band(b)
    ensures MoodColour(a) == EnergyColour(b) <==> Band(a) == Band(b) == 2
  {
  }

  /** Concretely: 1-3 red, 4-5 yellow, 6-7 blue, 8-10 green for mood, and
      gray, orange, blue, purple for energy over the same bands, each with
      its Tailwind classes. */
  lemma ColourThresholds(v: int)
    ensures v <= 3 ==> MoodColour(v) == Red && EnergyColour(v) == Gray
    ensures 4 <= v <= 5 ==> MoodColour(v) == Yellow && EnergyColour(v) == Orange
    ensures 6 <= v <= 7 ==> MoodColour(v) == Blue && EnergyColour(v) == Blue
    ensures v >= 8 ==> MoodColour(v) == Green && EnergyColour(v) == Purple
    ensures v <= 3 ==> MoodBadge(v) == "bg-red-100 text-red-800" && EnergyBadge(v) == "bg-gray-100 text-gray-800"
    ensures 4 <= v <= 5 ==>
      MoodBadge(v) == "bg-yellow-100 text-yellow-800" && EnergyBadge(v) == "bg-orange-100 text-orange-800"
    ensures 6 <= v <= 7 ==> MoodBadge(v) == "bg-blue-100 text-blue-800" && EnergyBadge(v) == "bg-blue-100 text-blue-800"
    ensures v >= 8 ==> MoodBadge(v) == "bg-green-100 text-green-800" && EnergyBadge(v) == "bg-purple-100 text-purple-800"
  {
  }

  /** Each colour has its own classes, so two badges of one scale look the
      same exactly when their values share a band. */
  lemma BadgeBands(a: int, b: int)
    ensures MoodBadge(a) == MoodBadge(b) <==> Band(a) == Band(b)
    ensures EnergyBadge(a) == EnergyBadge(b) <==> Band(a) == Band(b)
  {
    ColourBands(a, b);
  }

  /** The notes paragraph: rendered, with the notes verbatim, only for
      present and non-empty notes. */
  function NotesParagraph(e: MoodEntry): (p: Option<string>)
    ensures p.Some? <==> e.notes.Some? && e.notes.value != ""
    ensures p.Some? ==> p.value == e.notes.value
  {
    if e.notes.Some? && e.notes.value != "" then e.notes else None
  }
}
