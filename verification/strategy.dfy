/** The `--strategy` option: the seven accepted identifiers and their
    decomposition into a primary verb and an optional fallback verb. */
module Strategy {
  import opened Results
  import opened Text
  import opened Statistics
  import opened Responses

  /** The three write operations of the API (POST, PATCH, PUT). */
  datatype Verb = Create | Update | Replace

  /** The identifiers the option handler accepts; anything else makes the tool exit. */
  const Identifiers: seq<string> := [
    "create-only", "create-or-replace", "create-or-update",
    "update-only", "update-or-create",
    "replace-only", "replace-or-create"]

  /** A decomposed strategy. `primary` is `None` only for an identifier with no
      known prefix, which the option handler never lets through. */
  datatype Steps = Steps(primary: Option<Verb>, fallback: Option<Verb>)

  /** The fallbacks the tool can take: create falls back to update or replace,
      update and replace fall back to create. */
  predicate AllowedFallback(primary: Verb, fallback: Verb)
  {
    (primary == Create && fallback != Create) || (primary != Create && fallback == Create)
  }

  predicate Coherent(p: Steps)
  {
    p.fallback.Some? ==> p.primary.Some? && AllowedFallback(p.primary.value, p.fallback.value)
  }

  /** The flags the import sets from the identifier can only take these shapes. */
  type Plan = p: Steps | Coherent(p) witness Steps(None, None)

  /** The prefix selects the primary verb; a suffix naming another verb selects
      the fallback, among the pairs the tool supports. */
  function Decompose(id: string): (p: Plan)
    ensures StartsWith(id, "create") ==> p.primary == Some(Create)
    ensures !StartsWith(id, "create") && StartsWith(id, "update") ==> p.primary == Some(Update)
    ensures !StartsWith(id, "create") && !StartsWith(id, "update") && StartsWith(id, "replace") ==> p.primary == Some(Replace)
    ensures p.fallback == Some(Create) ==> EndsWith(id, "create")
    ensures p.fallback == Some(Update) ==> EndsWith(id, "update")
    ensures p.fallback == Some(Replace) ==> EndsWith(id, "replace")
  {
    if StartsWith(id, "create") then
      Steps(Some(Create),
            if EndsWith(id, "update") then Some(Update)
            else if EndsWith(id, "replace") then Some(Replace)
            else None)
    else if StartsWith(id, "update") then
      // an `update-or-replace` suffix is recognised but has no fallback
      Steps(Some(Update), if EndsWith(id, "create") then Some(Create) else None)
    else if StartsWith(id, "replace") then
      // likewise `replace-or-update`
      Steps(Some(Replace), if EndsWith(id, "create") then Some(Create) else None)
    else
      Steps(None, None)
  }

  /** The option handler, then the decomposition done before the rows are processed. */
  function Resolve(id: string): (r: Option<Plan>)
    ensures r.Some? <==> id in Identifiers
    ensures r.Some? ==> r.value.primary.Some?
  {
    if id in Identifiers then Some(Decompose(id)) else None
  }

  function VerbName(v: Verb): string
  {
    match v
    case Create => "create"
    case Update => "update"
    case Replace => "replace"
  }

  /** The identifier that spells a plan. */
  function Identifier(p: Plan): string
    requires p.primary.Some?
  {
    VerbName(p.primary.value) + (if p.fallback.None? then "-only" else "-or-" + VerbName(p.fallback.value))
  }

  /** The identifiers with the `create` prefix and what they decompose into. */
  lemma CreateStrategies()
    ensures Resolve("create-only") == Some(Steps(Some(Create), None))
    ensures Resolve("create-or-replace") == Some(Steps(Some(Create), Some(Replace)))
    ensures Resolve("create-or-update") == Some(Steps(Some(Create), Some(Update)))
  {
    assert Identifiers[0] == "create-only";
    Spelling("create-only");
    assert Identifiers[1] == "create-or-replace";
    Spelling("create-or-replace");
    assert Identifiers[2] == "create-or-update";
    Spelling("create-or-update");
  }

  /** The identifiers with the `update` prefix and what they decompose into. */
  lemma UpdateStrategies()
    ensures Resolve("update-only") == Some(Steps(Some(Update), None))
    ensures Resolve("update-or-create") == Some(Steps(Some(Update), Some(Create)))
  {
    assert Identifiers[3] == "update-only";
    Spelling("update-only");
    assert Identifiers[4] == "update-or-create";
    Spelling("update-or-create");
  }

  /** The identifiers with the `replace` prefix and what they decompose into. */
  lemma ReplaceStrategies()
    ensures Resolve("replace-only") == Some(Steps(Some(Replace), None))
    ensures Resolve("replace-or-create") == Some(Steps(Some(Replace), Some(Create)))
  {
    ReplaceOnly();
    ReplaceOrCreate();
  }

  lemma ReplaceOnly()
    ensures Resolve("replace-only") == Some(Steps(Some(Replace), None))
  {
    assert Identifiers[5] == "replace-only";
    Spelling("replace-only");
  }

  lemma ReplaceOrCreate()
    ensures Resolve("replace-or-create") == Some(Steps(Some(Replace), Some(Create)))
  {
    assert Identifiers[6] == "replace-or-create";
    Spelling("replace-or-create");
  }

  /** Every accepted identifier spells out its own decomposition: the
      primary verb, then `-only` or `-or-` and the fallback verb. */
  lemma IdentifierRoundTrip(id: string)
    requires id in Identifiers
    ensures Resolve(id).Some? && Identifier(Resolve(id).value) == id
  {
    var i :| 0 <= i < |Identifiers| && Identifiers[i] == id;
    if i < 3 {
      CreateRoundTrip(i);
    } else if i < 5 {
      UpdateStrategies();
      UpdateSpellings();
    } else {
      ReplaceStrategies();
      ReplaceSpellings();
    }
  }

  lemma CreateRoundTrip(i: int)
    requires 0 <= i < 3
    ensures Resolve(Identifiers[i]).Some? && Identifier(Resolve(Identifiers[i]).value) == Identifiers[i]
  {
    CreateStrategies();
    CreateSpellings();
  }

  lemma CreateSpellings()
    ensures Identifier(Steps(Some(Create), None)) == "create-only"
    ensures Identifier(Steps(Some(Create), Some(Replace))) == "create-or-replace"
    ensures Identifier(Steps(Some(Create), Some(Update))) == "create-or-update"
  {
  }

  lemma UpdateSpellings()
    ensures Identifier(Steps(Some(Update), None)) == "update-only"
    ensures Identifier(Steps(Some(Update), Some(Create))) == "update-or-create"
  {
  }

  lemma ReplaceSpellings()
    ensures Identifier(Steps(Some(Replace), None)) == "replace-only"
    ensures Identifier(Steps(Some(Replace), Some(Create))) == "replace-or-create"
  {
  }

  /** Only the plans the identifiers spell can be selected: a fallback back to
      the same verb, or between update and replace, is never produced. */
  lemma ResolvedPlans(id: string)
    requires Resolve(id).Some?
    ensures Resolve(id).value in {Steps(Some(Create), None), Steps(Some(Create), Some(Replace)),
                                  Steps(Some(Create), Some(Update)), Steps(Some(Update), None),
                                  Steps(Some(Update), Some(Create)), Steps(Some(Replace), None),
                                  Steps(Some(Replace), Some(Create))}
  {
    CreateStrategies();
    UpdateStrategies();
    ReplaceStrategies();
  }

  /** The prefix and suffix tests on one identifier, evaluated. */
  lemma Spelling(id: string)
    requires |id| >= 11
    ensures StartsWith(id, "create") <==> id[..6] == "create"
    ensures StartsWith(id, "update") <==> id[..6] == "update"
    ensures StartsWith(id, "replace") <==> id[..7] == "replace"
    ensures EndsWith(id, "create") <==> id[|id| - 6..] == "create"
    ensures EndsWith(id, "update") <==> id[|id| - 6..] == "update"
    ensures EndsWith(id, "replace") <==> id[|id| - 7..] == "replace"
  {
  }

  /** The failure shape that makes the fallback fire after the primary verb fails:
      "already exists" after a create, "not found" after an update or replace. */
  function Trigger(primary: Verb): ErrorKind
  {
    if primary == Create then UserExists else NotFound
  }

  /** The plan can end with verb `v` succeeding. */
  predicate Reaches(p: Plan, v: Verb)
  {
    p.primary == Some(v) || p.fallback == Some(v)
  }

  function VerbCounter(v: Verb): (c: Counter)
  {
    match v
    case Create => Created
    case Update => Updated
    case Replace => Replaced
  }

  /** The statistics before any row is processed: the counter of a verb the
      plan cannot reach stays at -1; the latency and duration fields start at -1. */
  function InitialStats(p: Plan): (s: Stats)
    ensures forall v :: Count(s, VerbCounter(v)) == if Reaches(p, v) then 0 else -1
    ensures s.existing == 0 && s.notExists == 0 && s.skipped == 0 && s.errors == 0 && s.unknowns == 0
    ensures s.attempts == 0 && s.min == -1 && s.max == -1 && s.duration == -1
    ensures LatencyInv(s)
  {
    Stats(
      attempts := 0,
      created := if Reaches(p, Create) then 0 else -1,
      updated := if Reaches(p, Update) then 0 else -1,
      replaced := if Reaches(p, Replace) then 0 else -1,
      existing := 0, notExists := 0, skipped := 0, errors := 0, unknowns := 0,
      min := -1, max := -1, duration := -1)
  }
}
