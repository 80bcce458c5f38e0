/** The import run: each row is normalised, validated and sent with the
    strategy's primary verb, possibly followed by one fallback call, and its
    outcome is folded into the run statistics.

    The API is replaced by a script: for each row, the reply to the primary
    call and the reply the fallback call would get. The rows are processed
    one after another; `TallyAllPermutation` shows the order of completion
    does not matter to the statistics. */
module Engine {
  import opened Results
  import opened Records
  import opened Importing
  import opened Validation
  import opened Statistics
  import opened Responses
  import opened Strategy
  import opened Options

  /** How a call's promise settled, and how many milliseconds after the call
      was made. */
  datatype Reply = Resolved(status: int, took: nat) | Rejected(error: ApiError, took: nat)

  /** The API's answers for one row: to the primary call, and to the fallback
      call if one is made. */
  datatype Script = Script(primary: Reply, fallback: Reply)

  /** A call made to the API, with the row it sends. */
  datatype Call = Call(verb: Verb, row: Row)

  /** The terminal state of one row. */
  datatype Outcome =
    | Invalid(skip: Skip)                 // failed `validateData`; no call
    | DryRun                              // `--dry-run`; no call
    | NoVerb                              // the strategy selected no verb; no call
    | Done(verb: Verb, latency: nat)      // the expected status came back
    | Unexpected(verb: Verb, status: int) // resolved with another status
    | Failed(error: ApiError)             // rejected, handed to the classifier

  datatype Processed = Processed(outcome: Outcome, calls: seq<Call>)

  /** The run-wide configuration the import command works with. */
  datatype Settings = Settings(
    contract: Contract,
    plan: Plan,
    exclude: seq<string>,
    extra: map<string, string>,
    dryRun: bool)

  /** Create answers 201; update and replace answer 200. */
  function ExpectedStatus(v: Verb): int
  {
    if v == Create then 201 else 200
  }

  /** The test the import makes on a rejected primary call before trying the
      fallback, as written at each call site. */
  predicate FallbackFires(primary: Verb, e: ApiError)
  {
    if primary == Create then
      e.response.Some? && e.response.value.status == 422 && e.response.value.data.Some?
      && e.response.value.data.value.result.Some? && e.response.value.data.value.result.value.userExists
    else
      e.response.Some? && e.response.value.status == 404 && e.response.value.data.Some?
      && e.response.value.data.value.title == Some("Not Found")
  }

  /** The inline fallback test agrees with the classifier: it fires exactly
      when the failure is classified as the plan's trigger. */
  lemma FallbackGate(primary: Verb, e: ApiError)
    ensures FallbackFires(primary, e) <==> Classify(e) == Trigger(primary)
  {
  }

  /** The outcome of the last call of a row; `since` is the time already spent
      on the primary call, since a fallback is timed from the primary's start. */
  function Conclude(v: Verb, reply: Reply, since: nat): (o: Outcome)
    ensures o.Done? <==> reply.Resolved? && reply.status == ExpectedStatus(v)
    ensures o.Done? ==> o.verb == v && o.latency == since + reply.took
    ensures o.Unexpected? <==> reply.Resolved? && reply.status != ExpectedStatus(v)
    ensures o.Failed? <==> reply.Rejected?
    ensures o.Failed? ==> o.error == reply.error
  {
    match reply
    case Resolved(status, took) =>
      if status == ExpectedStatus(v) then Done(v, since + took) else Unexpected(v, status)
    case Rejected(e, _) => Failed(e)
  }

  /** The row as the API sees it. */
  function Prepared(cfg: Settings, raw: Row): Row
  {
    Normalize(raw, cfg.exclude, cfg.extra)
  }

  /** The row passes `validateData` once normalised. */
  predicate Admitted(cfg: Settings, raw: Row)
  {
    ValidateData(Prepared(cfg, raw), cfg.contract).Pass?
  }

  /** The primary call failed in the way that makes the plan's fallback run. */
  predicate FallsBack(plan: Plan, script: Script)
  {
    plan.primary.Some? && plan.fallback.Some? && script.primary.Rejected?
    && Classify(script.primary.error) == Trigger(plan.primary.value)
  }

  /** A validated row: nothing is sent in a dry run or when no verb is
      selected; otherwise the primary call is made, and the fallback call
      follows when the primary failed with the plan's trigger. */
  function Dispatch(plan: Plan, dryRun: bool, row: Row, script: Script): (p: Processed)
    ensures !p.outcome.Invalid?
    ensures p.calls == [] <==> dryRun || plan.primary.None?
    ensures |p.calls| <= 2
    ensures forall i :: 0 <= i < |p.calls| ==> p.calls[i].row == row
    ensures |p.calls| >= 1 ==> plan.primary == Some(p.calls[0].verb)
    ensures |p.calls| == 2 <==> |p.calls| >= 1 && FallsBack(plan, script)
    ensures |p.calls| == 2 ==> plan.fallback == Some(p.calls[1].verb)
    ensures p.outcome.Done? ==> |p.calls| >= 1 && p.outcome.verb == p.calls[|p.calls| - 1].verb
    ensures p.outcome.Done? ==> Reaches(plan, p.outcome.verb)
  {
    if dryRun then Processed(DryRun, [])
    else
      match plan.primary
      case None => Processed(NoVerb, [])
      case Some(v) =>
        match script.primary
        case Resolved(_, _) => Processed(Conclude(v, script.primary, 0), [Call(v, row)])
        case Rejected(e, took) =>
          FallbackGate(v, e);
          if plan.fallback.Some? && FallbackFires(v, e) then
            var f := plan.fallback.value;
            Processed(Conclude(f, script.fallback, took), [Call(v, row), Call(f, row)])
          else
            Processed(Failed(e), [Call(v, row)])
  }

  /** How a sent row's terminal state resolves: the primary reply decides
      unless the fallback runs, in which case the fallback reply decides and
      its latency includes the time the primary call took. */
  lemma DispatchOutcome(plan: Plan, row: Row, script: Script)
    requires plan.primary.Some?
    ensures !FallsBack(plan, script) ==>
              Dispatch(plan, false, row, script).outcome == Conclude(plan.primary.value, script.primary, 0)
    ensures FallsBack(plan, script) ==>
              Dispatch(plan, false, row, script).outcome
              == Conclude(plan.fallback.value, script.fallback, script.primary.took)
  {
    if script.primary.Rejected? {
      FallbackGate(plan.primary.value, script.primary.error);
    }
  }

  /** The body of the per-row callback: a row that fails `validateData` is
      skipped with no call; any other row is dispatched, normalised. */
  function ProcessRow(cfg: Settings, raw: Row, script: Script): (p: Processed)
    ensures p.outcome.Invalid? <==> !Admitted(cfg, raw)
    ensures p.outcome.Invalid? ==> p.outcome.skip == ValidateData(Prepared(cfg, raw), cfg.contract).reason
    ensures p.calls == [] <==> !Admitted(cfg, raw) || cfg.dryRun || cfg.plan.primary.None?
    ensures forall i :: 0 <= i < |p.calls| ==> p.calls[i].row == Prepared(cfg, raw)
    ensures p.outcome.Done? ==> Reaches(cfg.plan, p.outcome.verb)
  {
    var row := Prepared(cfg, raw);
    match ValidateData(row, cfg.contract)
    case Fail(skip) => Processed(Invalid(skip), [])
    case Pass => Dispatch(cfg.plan, cfg.dryRun, row, script)
  }

  /** The counter a terminal state increments, if any. */
  function OutcomeCounter(o: Outcome): Option<Counter>
  {
    match o
    case Invalid(_) => Some(Skipped)
    case DryRun => None
    case NoVerb => None
    case Done(v, _) => Some(VerbCounter(v))
    case Unexpected(_, _) => Some(Unknowns)
    case Failed(e) => Some(CounterFor(Classify(e)))
  }

  /** A processed row's share of the statistics update. */
  function Tally(s: Stats, o: Outcome): (r: Stats)
    ensures forall c :: Count(r, c) == Count(s, c) + (if OutcomeCounter(o) == Some(c) then 1 else 0)
    ensures r.attempts == s.attempts && r.duration == s.duration
    ensures !o.Done? ==> r.min == s.min && r.max == s.max
    ensures LatencyInv(s) ==> LatencyInv(r)
  {
    match o
    case Invalid(_) => Bump(s, Skipped)
    case DryRun => s
    case NoVerb => s
    case Done(v, d) => Observe(Bump(s, VerbCounter(v)), d)
    case Unexpected(_, _) => Bump(s, Unknowns)
    case Failed(e) => HandleAPIClientError(s, e)
  }

  /** A success moves its verb's counter, then the latency pair. */
  lemma TallyDone(s: Stats, v: Verb, d: nat)
    ensures Tally(s, Done(v, d)) == Observe(Bump(s, VerbCounter(v)), d)
  {
  }

  /** A row increments exactly one counter unless it passed validation and no
      call was made (a dry run, or a strategy that selects no verb). */
  lemma OneCounterPerRow(cfg: Settings, raw: Row, script: Script)
    ensures OutcomeCounter(ProcessRow(cfg, raw, script).outcome).Some?
            <==> !Admitted(cfg, raw) || (!cfg.dryRun && cfg.plan.primary.Some?)
  {
    if Admitted(cfg, raw) && !cfg.dryRun && cfg.plan.primary.Some? {
      DispatchOutcome(cfg.plan, Prepared(cfg, raw), script);
    }
  }

  /** The latency a terminal state reports, if any. */
  function OutcomeLatency(o: Outcome): Option<nat>
  {
    if o.Done? then Some(o.latency) else None
  }

  function Counted(s: Stats, c: Option<Counter>): Stats
  {
    if c.Some? then Bump(s, c.value) else s
  }

  function Observed(s: Stats, d: Option<nat>): Stats
  {
    if d.Some? then Observe(s, d.value) else s
  }

  /** A row's update is a counter increment followed by a latency observation. */
  lemma TallyShape(s: Stats, o: Outcome)
    ensures Tally(s, o) == Observed(Counted(s, OutcomeCounter(o)), OutcomeLatency(o))
  {
  }

  lemma CountedCommutes(s: Stats, c: Option<Counter>, d: Option<Counter>)
    ensures Counted(Counted(s, c), d) == Counted(Counted(s, d), c)
  {
    if c.Some? && d.Some? {
      BumpCommutes(s, c.value, d.value);
    }
  }

  lemma CountedObservedCommute(s: Stats, c: Option<Counter>, d: Option<nat>)
    ensures Counted(Observed(s, d), c) == Observed(Counted(s, c), d)
  {
  }

  /** Two rows' updates commute. */
  lemma TallyCommutes(s: Stats, a: Outcome, b: Outcome)
    requires LatencyInv(s)
    ensures Tally(Tally(s, a), b) == Tally(Tally(s, b), a)
  {
    var ca, da := OutcomeCounter(a), OutcomeLatency(a);
    var cb, db := OutcomeCounter(b), OutcomeLatency(b);
    TallyShape(s, a);
    TallyShape(s, b);
    TallyShape(Tally(s, a), b);
    TallyShape(Tally(s, b), a);
    CountedObservedCommute(Counted(s, ca), cb, da);
    CountedObservedCommute(Counted(s, cb), ca, db);
    CountedCommutes(s, ca, cb);
    var both := Counted(Counted(s, ca), cb);
    assert LatencyInv(both);
    if da.Some? && db.Some? {
      ObserveCommutes(both, da.value, db.value);
    }
  }

  /** The terminal state of each row, in row order. */
  function Outcomes(cfg: Settings, rows: seq<Row>, scripts: seq<Script>): (os: seq<Outcome>)
    requires |rows| == |scripts|
    ensures |os| == |rows|
    ensures forall i :: 0 <= i < |rows| ==> os[i] == ProcessRow(cfg, rows[i], scripts[i]).outcome
  {
    seq(|rows|, i requires 0 <= i < |rows| => ProcessRow(cfg, rows[i], scripts[i]).outcome)
  }

  /** How many of the outcomes increment counter `c`. */
  function Hits(os: seq<Outcome>, c: Counter): (n: nat)
    ensures n <= |os|
    ensures n == 0 <==> forall i :: 0 <= i < |os| ==> OutcomeCounter(os[i]) != Some(c)
  {
    if |os| == 0 then 0
    else
      assert forall i :: 1 <= i < |os| ==> os[1..][i - 1] == os[i];
      (if OutcomeCounter(os[0]) == Some(c) then 1 else 0) + Hits(os[1..], c)
  }

  /** How many of the outcomes increment some counter. */
  function Counting(os: seq<Outcome>): (n: nat)
    ensures n <= |os|
    ensures n == |os| <==> forall i :: 0 <= i < |os| ==> OutcomeCounter(os[i]).Some?
  {
    if |os| == 0 then 0
    else
      assert forall i :: 1 <= i < |os| ==> os[1..][i - 1] == os[i];
      (if OutcomeCounter(os[0]).Some? then 1 else 0) + Counting(os[1..])
  }

  /** The latencies of the successful outcomes, in order. */
  function Successes(os: seq<Outcome>): (ds: seq<nat>)
    ensures |ds| <= |os|
    ensures |ds| == 0 <==> forall i :: 0 <= i < |os| ==> !os[i].Done?
  {
    if |os| == 0 then []
    else
      assert forall i :: 1 <= i < |os| ==> os[1..][i - 1] == os[i];
      Seen(os[0]) + Successes(os[1..])
  }

  /** The latency a row contributes: one entry when it succeeded, none otherwise. */
  function Seen(o: Outcome): seq<nat>
  {
    if o.Done? then [o.latency] else []
  }

  /** The outcomes tallied in order. Every counter rises by the number of
      outcomes that increment it, and the latency fields move only when some
      outcome succeeded. */
  function TallyAll(s: Stats, os: seq<Outcome>): (r: Stats)
    ensures forall c :: Count(r, c) == Count(s, c) + Hits(os, c)
    ensures Total(r) == Total(s) + Counting(os)
    ensures r.attempts == s.attempts && r.duration == s.duration
    ensures LatencyInv(s) ==> LatencyInv(r)
    ensures Successes(os) == [] ==> r.min == s.min && r.max == s.max
    decreases |os|
  {
    if |os| == 0 then s
    else TallyAll(Tally(s, os[0]), os[1..])
  }

  /** Tallying a non-empty list tallies its first outcome, then the rest. */
  lemma TallyAllStep(s: Stats, os: seq<Outcome>)
    requires |os| > 0
    ensures TallyAll(s, os) == TallyAll(Tally(s, os[0]), os[1..])
  {
  }

  /** Tallying a list in two parts is tallying the first part, then the second. */
  lemma {:induction false} TallyAllAppend(s: Stats, a: seq<Outcome>, b: seq<Outcome>)
    ensures TallyAll(s, a + b) == TallyAll(TallyAll(s, a), b)
    decreases |a|
  {
    if |a| > 0 {
      assert (a + b)[0] == a[0] && (a + b)[1..] == a[1..] + b;
      TallyAllStep(s, a + b);
      TallyAllStep(s, a);
      TallyAllAppend(Tally(s, a[0]), a[1..], b);
    } else {
      assert a + b == b;
    }
  }

  /** Tallying a list that starts with two outcomes tallies them, then the rest. */
  lemma TallyTwoFirst(t: Stats, x: Outcome, y: Outcome, b: seq<Outcome>)
    ensures TallyAll(t, [x, y] + b) == TallyAll(Tally(Tally(t, x), y), b)
  {
    assert ([x, y] + b)[1..] == [y] + b;
    assert ([y] + b)[1..] == b;
    TallyAllStep(t, [x, y] + b);
    TallyAllStep(Tally(t, x), [y] + b);
  }

  /** Two neighbouring outcomes can trade places anywhere in the list. */
  lemma TallyAllSwap(s: Stats, a: seq<Outcome>, x: Outcome, y: Outcome, b: seq<Outcome>)
    requires LatencyInv(s)
    ensures TallyAll(s, a + [x, y] + b) == TallyAll(s, a + [y, x] + b)
  {
    var t := TallyAll(s, a);
    assert a + [x, y] + b == a + ([x, y] + b);
    assert a + [y, x] + b == a + ([y, x] + b);
    TallyAllAppend(s, a, [x, y] + b);
    TallyAllAppend(s, a, [y, x] + b);
    SwapFront(t, x, y, b);
  }

  lemma SwapFront(t: Stats, x: Outcome, y: Outcome, b: seq<Outcome>)
    requires LatencyInv(t)
    ensures TallyAll(t, [x, y] + b) == TallyAll(t, [y, x] + b)
  {
    TallyTwoFirst(t, x, y, b);
    TallyTwoFirst(t, y, x, b);
    TallyCommutes(t, x, y);
  }

  /** An outcome can be moved to the front of the list. */
  lemma {:induction false} MoveToFront(s: Stats, p: seq<Outcome>, x: Outcome, q: seq<Outcome>)
    requires LatencyInv(s)
    ensures TallyAll(s, p + [x] + q) == TallyAll(s, [x] + p + q)
    decreases |p|
  {
    if |p| > 0 {
      var front, y := p[..|p| - 1], p[|p| - 1];
      assert p == front + [y];
      MoveShapes(front, y, x, q);
      TallyAllSwap(s, front, y, x, q);
      MoveToFront(s, front, x, [y] + q);
      assert TallyAll(s, p + [x] + q) == TallyAll(s, front + [x, y] + q);
    } else {
      assert p + [x] + q == [x] + p + q;
    }
  }

  /** The list rearrangements `MoveToFront` goes through. */
  lemma MoveShapes(front: seq<Outcome>, y: Outcome, x: Outcome, q: seq<Outcome>)
    ensures (front + [y]) + [x] + q == front + [y, x] + q
    ensures front + [x, y] + q == front + [x] + ([y] + q)
    ensures [x] + front + ([y] + q) == [x] + (front + [y]) + q
  {
  }

  /** Any reordering of the outcomes gives the same statistics: the order in
      which concurrently processed rows complete does not matter. */
  lemma {:induction false} TallyAllPermutation(s: Stats, os: seq<Outcome>, ps: seq<Outcome>)
    requires LatencyInv(s)
    requires multiset(os) == multiset(ps)
    ensures TallyAll(s, os) == TallyAll(s, ps)
    decreases |os|
  {
    if |os| == 0 {
      assert |ps| == |multiset(ps)| == 0;
    } else {
      var x := os[0];
      assert x in multiset(ps);
      var k :| 0 <= k < |ps| && ps[k] == x;
      var p, q := ps[..k], ps[k + 1..];
      RemoveAt(os, ps, k);
      MoveToFront(s, p, x, q);
      TallyAllStep(s, os);
      TallyAllStep(s, [x] + p + q);
      TallyAllPermutation(Tally(s, x), os[1..], p + q);
    }
  }

  /** Taking the first outcome of `os` out of `ps`, where it sits at `k`. */
  lemma RemoveAt(os: seq<Outcome>, ps: seq<Outcome>, k: nat)
    requires |os| > 0 && k < |ps| && ps[k] == os[0]
    requires multiset(os) == multiset(ps)
    ensures ps == ps[..k] + [os[0]] + ps[k + 1..]
    ensures ([os[0]] + ps[..k] + ps[k + 1..])[1..] == ps[..k] + ps[k + 1..]
    ensures ([os[0]] + ps[..k] + ps[k + 1..])[0] == os[0]
    ensures multiset(os[1..]) == multiset(ps[..k] + ps[k + 1..])
  {
    var p, q := ps[..k], ps[k + 1..];
    assert ps == p + [os[0]] + q;
    WithoutFirst(os);
    WithoutAt(ps, k);
  }

  /** The multiset of a list without its first element. */
  lemma WithoutFirst(os: seq<Outcome>)
    requires |os| > 0
    ensures multiset(os[1..]) == multiset(os) - multiset{os[0]}
  {
    assert os == [os[0]] + os[1..];
  }

  /** The multiset of a list without its element at `k`. */
  lemma WithoutAt(ps: seq<Outcome>, k: nat)
    requires k < |ps|
    ensures multiset(ps[..k] + ps[k + 1..]) == multiset(ps) - multiset{ps[k]}
  {
    assert ps == ps[..k] + [ps[k]] + ps[k + 1..];
  }

  /** The rows folded in order, each with its script. */
  function Fold(cfg: Settings, rows: seq<Row>, scripts: seq<Script>, s: Stats): Stats
    requires |rows| == |scripts|
  {
    TallyAll(s, Outcomes(cfg, rows, scripts))
  }

  /** Outside a dry run, with a strategy that names a verb, every row moves
      exactly one counter. */
  lemma EveryRowCounts(cfg: Settings, rows: seq<Row>, scripts: seq<Script>, s: Stats)
    requires |rows| == |scripts| && !cfg.dryRun && cfg.plan.primary.Some?
    ensures Total(Fold(cfg, rows, scripts, s)) == Total(s) + |rows|
  {
    var os := Outcomes(cfg, rows, scripts);
    forall i | 0 <= i < |os| ensures OutcomeCounter(os[i]).Some? {
      OneCounterPerRow(cfg, rows[i], scripts[i]);
    }
  }

  /** In a dry run a row either fails validation or is merely reported. */
  lemma DryRunRow(cfg: Settings, raw: Row, script: Script)
    requires cfg.dryRun
    ensures ProcessRow(cfg, raw, script).outcome == (if Admitted(cfg, raw) then DryRun
                                                    else Invalid(ValidateData(Prepared(cfg, raw), cfg.contract).reason))
  {
  }

  /** A dry run sends nothing and counts nothing except the rows that fail
      validation, each as skipped. */
  lemma DryRunCountsOnlySkips(cfg: Settings, rows: seq<Row>, scripts: seq<Script>, s: Stats)
    requires |rows| == |scripts| && cfg.dryRun
    ensures forall i :: 0 <= i < |rows| ==> ProcessRow(cfg, rows[i], scripts[i]).calls == []
    ensures Fold(cfg, rows, scripts, s)
            == s.(skipped := s.skipped + Hits(Outcomes(cfg, rows, scripts), Skipped))
    ensures Hits(Outcomes(cfg, rows, scripts), Skipped) == 0
            <==> forall i :: 0 <= i < |rows| ==> Admitted(cfg, rows[i])
  {
    var os := Outcomes(cfg, rows, scripts);
    forall i | 0 <= i < |os| ensures os[i].Invalid? || os[i].DryRun? {
      DryRunRow(cfg, rows[i], scripts[i]);
    }
    OnlySkipsMove(s, os);
  }

  /** Outcomes that make no call move only the skipped counter. */
  lemma OnlySkipsMove(s: Stats, os: seq<Outcome>)
    requires forall i :: 0 <= i < |os| ==> os[i].Invalid? || os[i].DryRun?
    ensures TallyAll(s, os) == s.(skipped := s.skipped + Hits(os, Skipped))
  {
    var r := TallyAll(s, os);
    var t := s.(skipped := s.skipped + Hits(os, Skipped));
    forall c ensures Count(r, c) == Count(t, c) {
      if c != Skipped {
        assert Hits(os, c) == 0;
      }
    }
    assert Successes(os) == [];
    SameStats(r, t);
  }

  /** A row never moves the counter of a verb its plan cannot reach. */
  lemma UnreachedRow(cfg: Settings, raw: Row, script: Script, v: Verb)
    requires !Reaches(cfg.plan, v)
    ensures OutcomeCounter(ProcessRow(cfg, raw, script).outcome) != Some(VerbCounter(v))
  {
    var o := ProcessRow(cfg, raw, script).outcome;
    assert o.Done? ==> o.verb != v;
  }

  /** The counter of a verb the plan can never complete is left as it was
      (the -1 sentinel, in a real run). */
  lemma UnreachedVerbUntouched(cfg: Settings, rows: seq<Row>, scripts: seq<Script>, s: Stats, v: Verb)
    requires |rows| == |scripts| && !Reaches(cfg.plan, v)
    ensures Count(Fold(cfg, rows, scripts, s), VerbCounter(v)) == Count(s, VerbCounter(v))
  {
    var os := Outcomes(cfg, rows, scripts);
    forall i | 0 <= i < |os| ensures OutcomeCounter(os[i]) != Some(VerbCounter(v)) {
      UnreachedRow(cfg, rows[i], scripts[i], v);
    }
  }

  /** Concatenation is associative. */
  lemma Associate(a: seq<nat>, b: seq<nat>, c: seq<nat>)
    ensures a + b + c == a + (b + c)
  {
  }

  /** One row's update keeps the reported pair equal to the extremes of the
      latencies seen so far, the row's own included when it succeeded. */
  lemma LatencyStep(s: Stats, o: Outcome, ds: seq<nat>)
    requires (s.min, s.max) == LatencyOf(ds)
    ensures (Tally(s, o).min, Tally(s, o).max) == LatencyOf(ds + Seen(o))
  {
    if o.Done? {
      var b := Bump(s, VerbCounter(o.verb));
      assert Tally(s, o) == Observe(b, o.latency);
      ObserveTracksExtremes(b, ds, o.latency);
    } else {
      assert ds + Seen(o) == ds;
    }
  }

  /** The reported `min` and `max` are exactly the least and greatest latency of
      the successful rows, and stay -1 when there were none. */
  lemma {:induction false} LatencyTracksSuccesses(s: Stats, os: seq<Outcome>, ds: seq<nat>)
    requires (s.min, s.max) == LatencyOf(ds)
    ensures (TallyAll(s, os).min, TallyAll(s, os).max) == LatencyOf(ds + Successes(os))
    decreases |os|
  {
    if |os| > 0 {
      var t := Tally(s, os[0]);
      LatencyStep(s, os[0], ds);
      LatencyTracksSuccesses(t, os[1..], ds + Seen(os[0]));
      Associate(ds, Seen(os[0]), Successes(os[1..]));
    } else {
      assert ds + Successes(os) == ds;
    }
  }

  /** The rows folded into fresh statistics, with `attempts` set to the
      number of rows before the first one is processed. */
  function Run(cfg: Settings, rows: seq<Row>, scripts: seq<Script>): (s: Stats)
    requires |rows| == |scripts|
    ensures s.attempts == |rows| && s.duration == -1
    ensures LatencyInv(s)
    ensures !cfg.dryRun && cfg.plan.primary.Some? ==> Total(s) == Total(InitialStats(cfg.plan)) + |rows|
    ensures forall v :: !Reaches(cfg.plan, v) ==> Count(s, VerbCounter(v)) == -1
    ensures forall c :: Count(s, c) >= Count(InitialStats(cfg.plan), c)
    ensures !cfg.dryRun && cfg.plan.primary.Some? ==> Tallied(s) == s.attempts
  {
    var start := InitialStats(cfg.plan).(attempts := |rows|);
    assert SameCounts(start, InitialStats(cfg.plan));
    EveryRowCountsIfSent(cfg, rows, scripts, start);
    UnreachedUntouchedAll(cfg, rows, scripts, start);
    var s := Fold(cfg, rows, scripts, start);
    TalliedDiscountsSentinels(s, cfg.plan);
    s
  }

  lemma UnreachedUntouchedAll(cfg: Settings, rows: seq<Row>, scripts: seq<Script>, s: Stats)
    requires |rows| == |scripts|
    ensures forall v :: !Reaches(cfg.plan, v) ==> Count(Fold(cfg, rows, scripts, s), VerbCounter(v)) == Count(s, VerbCounter(v))
  {
    forall v | !Reaches(cfg.plan, v)
      ensures Count(Fold(cfg, rows, scripts, s), VerbCounter(v)) == Count(s, VerbCounter(v))
    {
      UnreachedVerbUntouched(cfg, rows, scripts, s, v);
    }
  }

  /** The import after the option handlers: the header row (byte-order mark
      removed) is checked first and a failure aborts with the missing columns;
      otherwise every row is processed and the elapsed time is recorded. */
  function Import(cfg: Settings, headers: seq<string>, rows: seq<Row>, scripts: seq<Script>, elapsed: int)
    : (r: Result<Stats, seq<string>>)
    requires |rows| == |scripts|
    ensures r.Failure? <==> ValidateHeaders(StripBom(headers), cfg.contract).Fail?
    ensures r.Failure? ==> r.error == ValidateHeaders(StripBom(headers), cfg.contract).reason
    ensures r.Success? ==> r.value == Run(cfg, rows, scripts).(duration := elapsed)
  {
    match ValidateHeaders(StripBom(headers), cfg.contract)
    case Fail(missing) => Failure(missing)
    case Pass => Success(Run(cfg, rows, scripts).(duration := elapsed))
  }

  lemma EveryRowCountsIfSent(cfg: Settings, rows: seq<Row>, scripts: seq<Script>, s: Stats)
    requires |rows| == |scripts|
    ensures !cfg.dryRun && cfg.plan.primary.Some? ==> Total(Fold(cfg, rows, scripts, s)) == Total(s) + |rows|
  {
    if !cfg.dryRun && cfg.plan.primary.Some? {
      EveryRowCounts(cfg, rows, scripts, s);
    }
  }

  /** The counters with the -1 sentinels read as zero. */
  function Tallied(s: Stats): int
  {
    (if s.created < 0 then 0 else s.created)
    + (if s.updated < 0 then 0 else s.updated)
    + (if s.replaced < 0 then 0 else s.replaced)
    + s.existing + s.notExists + s.skipped + s.errors + s.unknowns
  }

  /** With the sentinels where the plan cannot reach and every other counter
      non-negative, reading the sentinels as zero adds back what they took off. */
  lemma TalliedDiscountsSentinels(r: Stats, p: Plan)
    requires forall c :: Count(r, c) >= Count(InitialStats(p), c)
    requires forall v :: !Reaches(p, v) ==> Count(r, VerbCounter(v)) == -1
    ensures Tallied(r) == Total(r) - Total(InitialStats(p))
  {
    var init := InitialStats(p);
    assert r.existing >= 0 by { assert Count(r, Exists) >= Count(init, Exists); }
    assert r.notExists >= 0 by { assert Count(r, NotExists) >= Count(init, NotExists); }
    assert r.skipped >= 0 by { assert Count(r, Skipped) >= Count(init, Skipped); }
    assert r.errors >= 0 by { assert Count(r, Errors) >= Count(init, Errors); }
    assert r.unknowns >= 0 by { assert Count(r, Unknowns) >= Count(init, Unknowns); }
    SentinelOrCount(r, p, Create);
    SentinelOrCount(r, p, Update);
    SentinelOrCount(r, p, Replace);
    TalliedSum(r, init);
  }

  /** A verb counter is the sentinel when the plan cannot reach the verb, and
      at least zero when it can. */
  lemma SentinelOrCount(r: Stats, p: Plan, v: Verb)
    requires forall c :: Count(r, c) >= Count(InitialStats(p), c)
    requires forall v :: !Reaches(p, v) ==> Count(r, VerbCounter(v)) == -1
    ensures Count(r, VerbCounter(v)) == Count(InitialStats(p), VerbCounter(v))
            || (Count(r, VerbCounter(v)) >= 0 && Count(InitialStats(p), VerbCounter(v)) == 0)
  {
  }

  lemma TalliedSum(r: Stats, init: Stats)
    requires init.existing == 0 && init.notExists == 0 && init.skipped == 0 && init.errors == 0 && init.unknowns == 0
    requires r.created == init.created == -1 || (r.created >= 0 && init.created == 0)
    requires r.updated == init.updated == -1 || (r.updated >= 0 && init.updated == 0)
    requires r.replaced == init.replaced == -1 || (r.replaced >= 0 && init.replaced == 0)
    requires r.existing >= 0 && r.notExists >= 0 && r.skipped >= 0 && r.errors >= 0 && r.unknowns >= 0
    ensures Tallied(r) == Total(r) - Total(init)
  {
  }

  /** The command-line values the import command acts on. */
  datatype Invocation = Invocation(
    importing: string,
    strategy: string,
    exclude: Option<string>,
    extras: seq<string>,
    dryRun: bool)

  datatype ConfigError = UnknownImporting | UnknownStrategy | BadExtra

  /** The option handlers: any rejected value stops the tool before a row is read. */
  function Configure(inv: Invocation): (r: Result<Settings, ConfigError>)
    ensures r.Success? <==>
      ResolveImporting(inv.importing).Some? && Resolve(inv.strategy).Some? && CollectExtras(inv.extras).Some?
    ensures r.Success? ==> r.value.plan.primary.Some? && Some(r.value.plan) == Resolve(inv.strategy)
    ensures r.Success? ==> Some(r.value.contract) == ResolveImporting(inv.importing)
    ensures r.Success? ==> Some(r.value.extra) == CollectExtras(inv.extras)
    ensures r.Success? ==> r.value.exclude == ExcludeList(inv.exclude) && r.value.dryRun == inv.dryRun
    ensures Resolve(inv.strategy).None? ==> r.Failure?
  {
    match ResolveImporting(inv.importing)
    case None => Failure(UnknownImporting)
    case Some(contract) =>
      match CollectExtras(inv.extras)
      case None => Failure(BadExtra)
      case Some(extra) =>
        match Resolve(inv.strategy)
        case None => Failure(UnknownStrategy)
        case Some(plan) => Success(Settings(contract, plan, ExcludeList(inv.exclude), extra, inv.dryRun))
  }
}
