/** Worked runs of the import on small, concrete inputs: two device rows under
    `update-or-create`, a header row without the key column, a create that
    falls back to an update, a row with an empty required field, and a
    strategy the option handler refuses. */
module Scenarios {
  import opened Results
  import opened Text
  import opened Records
  import opened Importing
  import opened Validation
  import opened Statistics
  import opened Responses
  import opened Strategy
  import opened Options
  import opened Engine

  const UpdateOrCreate: Plan := Steps(Some(Update), Some(Create))
  const CreateOrUpdate: Plan := Steps(Some(Create), Some(Update))

  /** Device rows, no exclusions, no extras, not a dry run. */
  function Devices(plan: Plan): Settings
  {
    Settings(Device, plan, [], map[], false)
  }

  function DeviceRow(mac: string, role: string): Row
  {
    map["mac" := Str(mac), "role_id" := Str(role)]
  }

  const NotFoundError: ApiError := ApiError(Some(Response(404, Some(Body(Some("Not Found"), None, None)))))
  const UserExistsError: ApiError :=
    ApiError(Some(Response(422, Some(Body(None, None, Some(Verdict(true, None)))))))

  /** Normalising a plain device row with no options leaves it as it is. */
  lemma PlainRowUnchanged(mac: string, role: string)
    ensures Normalize(DeviceRow(mac, role), [], map[]) == DeviceRow(mac, role)
  {
    var row := DeviceRow(mac, role);
    var r := Normalize(row, [], map[]);
    assert "mac" !in BooleanFields && "role_id" !in BooleanFields;
    assert r.Keys == row.Keys;
  }

  /** A device row whose key and role are both filled in is admitted. */
  lemma FilledRowAdmitted(plan: Plan, mac: string, role: string)
    requires mac != "" && role != ""
    ensures Admitted(Devices(plan), DeviceRow(mac, role))
    ensures Prepared(Devices(plan), DeviceRow(mac, role)) == DeviceRow(mac, role)
  {
    PlainRowUnchanged(mac, role);
    var row := DeviceRow(mac, role);
    assert Checked(Device) == ["mac", "role_id"];
    assert forall f :: f in Checked(Device) ==> !IsBlank(row, f);
  }

  /** Under `update-or-create`, a row the update finds is counted as updated,
      with the update's own latency. */
  lemma UpdateFound()
    ensures ProcessRow(Devices(UpdateOrCreate), DeviceRow("AA", "3"),
                       Script(Resolved(200, 5), Resolved(201, 0))).outcome == Done(Update, 5)
  {
    FilledRowAdmitted(UpdateOrCreate, "AA", "3");
    DispatchOutcome(UpdateOrCreate, DeviceRow("AA", "3"), Script(Resolved(200, 5), Resolved(201, 0)));
  }

  /** Under `update-or-create`, a row the update does not find is created,
      and its latency runs from the start of the update. */
  lemma CreatedAfterNotFound()
    ensures ProcessRow(Devices(UpdateOrCreate), DeviceRow("BB", "3"),
                       Script(Rejected(NotFoundError, 3), Resolved(201, 4))).outcome == Done(Create, 7)
    ensures ProcessRow(Devices(UpdateOrCreate), DeviceRow("BB", "3"),
                       Script(Rejected(NotFoundError, 3), Resolved(201, 4))).calls
            == [Call(Update, DeviceRow("BB", "3")), Call(Create, DeviceRow("BB", "3"))]
  {
    FilledRowAdmitted(UpdateOrCreate, "BB", "3");
    assert Classify(NotFoundError) == NotFound;
    DispatchOutcome(UpdateOrCreate, DeviceRow("BB", "3"), Script(Rejected(NotFoundError, 3), Resolved(201, 4)));
  }

  const TwoRows: seq<Row> := [DeviceRow("AA", "3"), DeviceRow("BB", "3")]
  const TwoScripts: seq<Script> :=
    [Script(Resolved(200, 5), Resolved(201, 0)), Script(Rejected(NotFoundError, 3), Resolved(201, 4))]

  lemma TwoOutcomes()
    ensures Outcomes(Devices(UpdateOrCreate), TwoRows, TwoScripts) == [Done(Update, 5), Done(Create, 7)]
  {
    OutcomesOfTwo(Devices(UpdateOrCreate), DeviceRow("AA", "3"), DeviceRow("BB", "3"),
                  Script(Resolved(200, 5), Resolved(201, 0)), Script(Rejected(NotFoundError, 3), Resolved(201, 4)));
    UpdateFound();
    CreatedAfterNotFound();
  }

  lemma OutcomesOfTwo(cfg: Settings, a: Row, b: Row, x: Script, y: Script)
    ensures Outcomes(cfg, [a, b], [x, y]) == [ProcessRow(cfg, a, x).outcome, ProcessRow(cfg, b, y).outcome]
  {
  }

  /** Starting from the `update-or-create` sentinels, an update in 5 ms then a
      create in 7 ms. */
  lemma TwoTallies()
    ensures TallyAll(InitialStats(UpdateOrCreate).(attempts := 2), [Done(Update, 5), Done(Create, 7)])
            == Stats(attempts := 2, created := 1, updated := 1, replaced := -1,
                     existing := 0, notExists := 0, skipped := 0, errors := 0, unknowns := 0,
                     min := 5, max := 7, duration := -1)
  {
    var s0 := InitialStats(UpdateOrCreate).(attempts := 2);
    assert s0 == Stats(2, 0, 0, -1, 0, 0, 0, 0, 0, -1, -1, -1);
    FirstTally();
    SecondTally();
    var s1 := Stats(2, 0, 1, -1, 0, 0, 0, 0, 0, 5, 5, -1);
    var s2 := Stats(2, 1, 1, -1, 0, 0, 0, 0, 0, 5, 7, -1);
    var os := [Done(Update, 5), Done(Create, 7)];
    TallyAllStep(s0, os);
    assert os[1..] == [Done(Create, 7)];
    TallyAllStep(s1, [Done(Create, 7)]);
    assert [Done(Create, 7)][1..] == [];
    assert TallyAll(s2, []) == s2;
  }

  lemma FirstTally()
    ensures Tally(Stats(2, 0, 0, -1, 0, 0, 0, 0, 0, -1, -1, -1), Done(Update, 5))
            == Stats(2, 0, 1, -1, 0, 0, 0, 0, 0, 5, 5, -1)
  {
    SuccessTally(Stats(2, 0, 0, -1, 0, 0, 0, 0, 0, -1, -1, -1), Update, 5, Stats(2, 0, 1, -1, 0, 0, 0, 0, 0, 5, 5, -1));
  }

  lemma SecondTally()
    ensures Tally(Stats(2, 0, 1, -1, 0, 0, 0, 0, 0, 5, 5, -1), Done(Create, 7))
            == Stats(2, 1, 1, -1, 0, 0, 0, 0, 0, 5, 7, -1)
  {
    SuccessTally(Stats(2, 0, 1, -1, 0, 0, 0, 0, 0, 5, 5, -1), Create, 7, Stats(2, 1, 1, -1, 0, 0, 0, 0, 0, 5, 7, -1));
  }

  /** A success tallied onto `s` gives `t` when `t` has the verb's counter one
      higher and the latency pair the update rule produces. */
  lemma SuccessTally(s: Stats, v: Verb, d: nat, t: Stats)
    requires forall c :: Count(t, c) == Count(s, c) + (if c == VerbCounter(v) then 1 else 0)
    requires SameFrame(t, Observe(s, d))
    ensures Tally(s, Done(v, d)) == t
  {
    var r := Tally(s, Done(v, d));
    TallyDone(s, v, d);
    SameStats(r, t);
  }

  /** The two rows together: one update, one create, `replaced` left at its
      sentinel, latencies 5 and 7; the file starts with a byte-order mark. */
  lemma UpdateOrCreateRun()
    ensures Import(Devices(UpdateOrCreate), ["\U{FEFF}mac", "role_id"], TwoRows, TwoScripts, 40)
            == Success(Stats(attempts := 2, created := 1, updated := 1, replaced := -1,
                             existing := 0, notExists := 0, skipped := 0, errors := 0, unknowns := 0,
                             min := 5, max := 7, duration := 40))
  {
    HeadersPresent();
    TwoOutcomes();
    TwoTallies();
  }

  /** The byte-order mark is removed before the header check, so a file that
      starts with one is accepted. */
  lemma HeadersPresent()
    ensures ValidateHeaders(StripBom(["\U{FEFF}mac", "role_id"]), Device).Pass?
  {
    assert StripBom(["\U{FEFF}mac", "role_id"]) == ["mac", "role_id"];
  }

  /** A header row without the key column aborts the import, naming it. */
  lemma MissingKeyColumn(rows: seq<Row>, scripts: seq<Script>)
    requires |rows| == |scripts|
    ensures Import(Devices(UpdateOrCreate), ["role_id", "notes"], rows, scripts, 0) == Failure(["mac"])
  {
    assert StripBom(["role_id", "notes"]) == ["role_id", "notes"];
    DeviceChecked();
    var r := ValidateHeaders(["role_id", "notes"], Device);
    assert r.Fail? && r.reason[0] == "mac";
    assert forall f :: f in r.reason ==> f == "mac";
    OnlyOne(r.reason, "mac");
  }

  /** The device contract checks `mac`, then `role_id`. */
  lemma DeviceChecked()
    ensures Checked(Device) == ["mac", "role_id"]
    ensures Distinct(Checked(Device))
  {
  }

  /** A list without repeats whose elements all equal `x` holds `x` once, if at all. */
  lemma OnlyOne(a: seq<string>, x: string)
    requires Distinct(a) && |a| > 0
    requires forall y :: y in a ==> y == x
    ensures a == [x]
  {
    assert a[0] in a;
    forall i | 0 <= i < |a| ensures a[i] == x && i == 0 {
      assert a[i] in a;
    }
    assert a[|a| - 1] == x;
  }

  /** Under `create-or-update`, a create refused because the device exists is
      retried as an update of the same row. */
  lemma CreateFallsBackToUpdate()
    ensures ProcessRow(Devices(CreateOrUpdate), DeviceRow("CC", "3"),
                       Script(Rejected(UserExistsError, 2), Resolved(200, 6))).calls
            == [Call(Create, DeviceRow("CC", "3")), Call(Update, DeviceRow("CC", "3"))]
  {
    FilledRowAdmitted(CreateOrUpdate, "CC", "3");
    assert Classify(UserExistsError) == UserExists;
    FallbackGate(Create, UserExistsError);
  }

  /** A row whose role is empty is skipped and reported under its key; no call is made. */
  lemma EmptyRoleSkipped()
    ensures ProcessRow(Devices(UpdateOrCreate), DeviceRow("DD", ""), Script(Resolved(200, 1), Resolved(201, 1)))
            == Processed(Invalid(Skip("DD", ["role_id"])), [])
  {
    var row := DeviceRow("DD", "");
    PlainRowUnchanged("DD", "");
    DeviceChecked();
    assert IsBlank(row, "role_id") && !IsBlank(row, "mac");
    var r := ValidateData(row, Device);
    assert r.Fail?;
    assert forall f :: f in r.reason.empty ==> f == "role_id";
    OnlyOne(r.reason.empty, "role_id");
    assert r.reason.shown == "DD";
  }

  /** A strategy outside the seven is refused before any row is read. */
  lemma UnknownStrategyRefused()
    ensures Configure(Invocation("device", "create-or-delete", None, [], false)).Failure?
  {
    assert "create-or-delete" !in Identifiers;
  }
}
