/** The run statistics of an import: outcome counters, latency extremes and
    the total duration, with the tool's -1 sentinels. */
module Statistics {

  datatype Stats = Stats(
    attempts: int,
    created: int,
    updated: int,
    replaced: int,
    existing: int,
    notExists: int,
    skipped: int,
    errors: int,
    unknowns: int,
    min: int,
    max: int,
    duration: int)

  /** The outcome counters, one per terminal kind of a record. */
  datatype Counter = Created | Updated | Replaced | Exists | NotExists | Skipped | Errors | Unknowns

  function Count(s: Stats, c: Counter): int
  {
    match c
    case Created => s.created
    case Updated => s.updated
    case Replaced => s.replaced
    case Exists => s.existing
    case NotExists => s.notExists
    case Skipped => s.skipped
    case Errors => s.errors
    case Unknowns => s.unknowns
  }

  /** The sum of all outcome counters. */
  function Total(s: Stats): int
  {
    s.created + s.updated + s.replaced + s.existing + s.notExists + s.skipped + s.errors + s.unknowns
  }

  /** The statistics hold the same counter values. */
  predicate SameCounts(s: Stats, t: Stats)
  {
    forall c :: Count(s, c) == Count(t, c)
  }

  /** Leaves everything but the counters alone. */
  predicate SameFrame(s: Stats, t: Stats)
  {
    s.attempts == t.attempts && s.min == t.min && s.max == t.max && s.duration == t.duration
  }

  /** Statistics are determined by their counters and the other four fields. */
  lemma SameStats(s: Stats, t: Stats)
    requires SameCounts(s, t) && SameFrame(s, t)
    ensures s == t
  {
    assert Count(s, Created) == Count(t, Created) && Count(s, Updated) == Count(t, Updated);
    assert Count(s, Replaced) == Count(t, Replaced) && Count(s, Exists) == Count(t, Exists);
    assert Count(s, NotExists) == Count(t, NotExists) && Count(s, Skipped) == Count(t, Skipped);
    assert Count(s, Errors) == Count(t, Errors) && Count(s, Unknowns) == Count(t, Unknowns);
  }

  /** `stats.<counter>++`: exactly one counter goes up by one, nothing else moves. */
  function Bump(s: Stats, c: Counter): (r: Stats)
    ensures Count(r, c) == Count(s, c) + 1
    ensures forall d :: d != c ==> Count(r, d) == Count(s, d)
    ensures SameFrame(r, s)
    ensures Total(r) == Total(s) + 1
  {
    match c
    case Created => s.(created := s.created + 1)
    case Updated => s.(updated := s.updated + 1)
    case Replaced => s.(replaced := s.replaced + 1)
    case Exists => s.(existing := s.existing + 1)
    case NotExists => s.(notExists := s.notExists + 1)
    case Skipped => s.(skipped := s.skipped + 1)
    case Errors => s.(errors := s.errors + 1)
    case Unknowns => s.(unknowns := s.unknowns + 1)
  }

  /** Two increments commute. */
  lemma BumpCommutes(s: Stats, a: Counter, b: Counter)
    ensures Bump(Bump(s, a), b) == Bump(Bump(s, b), a)
  {
    SameStats(Bump(Bump(s, a), b), Bump(Bump(s, b), a));
  }

  /** The latency fields are either both the -1 sentinel (nothing timed yet)
      or an ordered pair of durations. */
  predicate LatencyInv(s: Stats)
  {
    (s.min == -1 && s.max == -1) || (0 <= s.min <= s.max)
  }

  /** The latency bookkeeping after a successful call that took `dur`:
      the maximum rises to `dur` if below it; the minimum is replaced when it
      is still the sentinel, or when it is positive and above `dur`. */
  function Observe(s: Stats, dur: int): (r: Stats)
    ensures SameCounts(r, s)
    ensures r.attempts == s.attempts && r.duration == s.duration
    ensures LatencyInv(s) && dur >= 0 ==> LatencyInv(r) && r.min <= dur <= r.max
    ensures LatencyInv(s) && dur >= 0 ==> r.max >= s.max && (s.min >= 0 ==> r.min <= s.min)
  {
    var max := if dur > s.max then dur else s.max;
    var min := if s.min < 0 || (s.min > 0 && dur < s.min) then dur else s.min;
    s.(min := min, max := max)
  }

  /** The smallest of a non-empty list of durations. */
  function SeqMin(ds: seq<nat>): (m: nat)
    requires |ds| > 0
    ensures m in ds
    ensures forall i :: 0 <= i < |ds| ==> m <= ds[i]
  {
    if |ds| == 1 then ds[0]
    else
      var m := SeqMin(ds[..|ds| - 1]);
      assert forall i :: 0 <= i < |ds| - 1 ==> ds[..|ds| - 1][i] == ds[i];
      if ds[|ds| - 1] < m then ds[|ds| - 1] else m
  }

  /** The largest of a non-empty list of durations. */
  function SeqMax(ds: seq<nat>): (m: nat)
    requires |ds| > 0
    ensures m in ds
    ensures forall i :: 0 <= i < |ds| ==> ds[i] <= m
  {
    if |ds| == 1 then ds[0]
    else
      var m := SeqMax(ds[..|ds| - 1]);
      assert forall i :: 0 <= i < |ds| - 1 ==> ds[..|ds| - 1][i] == ds[i];
      if ds[|ds| - 1] > m then ds[|ds| - 1] else m
  }

  /** The latency pair the statistics should report after successes timed at
      `ds`: the sentinels when there were none, else the least and the greatest. */
  function LatencyOf(ds: seq<nat>): (int, int)
  {
    if |ds| == 0 then (-1, -1) else (SeqMin(ds) as int, SeqMax(ds) as int)
  }

  /** The tool's update rule keeps the reported pair equal to the true extremes. */
  lemma ObserveTracksExtremes(s: Stats, ds: seq<nat>, d: nat)
    requires (s.min, s.max) == LatencyOf(ds)
    ensures (Observe(s, d).min, Observe(s, d).max) == LatencyOf(ds + [d])
  {
    var ds' := ds + [d];
    assert ds'[..|ds'| - 1] == ds;
    if |ds| > 0 {
      assert SeqMin(ds') == if d < SeqMin(ds) then d else SeqMin(ds);
      assert SeqMax(ds') == if d > SeqMax(ds) then d else SeqMax(ds);
    }
  }

  /** Two latency observations commute: the order of completion of two
      successful records does not change the reported pair. */
  lemma ObserveCommutes(s: Stats, a: nat, b: nat)
    requires LatencyInv(s)
    ensures Observe(Observe(s, a), b) == Observe(Observe(s, b), a)
  {
  }
}
