/** `validateHeaders` and `validateData`: the checks an entity contract imposes
    on the header row (fatal) and on each row (the row is skipped). */
module Validation {
  import opened Results
  import opened Text
  import opened Records
  import opened Importing

  /** The key column followed by the required columns, in the order they are checked. */
  function Checked(c: Contract): seq<string>
  {
    [c.key] + c.required
  }

  /** `validateHeaders`: passes when the key column and every required column
      are in the header row; otherwise fails with the missing ones, key first,
      then in the contract's order. */
  function ValidateHeaders(headers: seq<string>, c: Contract): (r: Check<seq<string>>)
    ensures r.Pass? <==> c.key in headers && forall f :: f in c.required ==> f in headers
    ensures r.Fail? ==> |r.reason| > 0
    ensures r.Fail? ==> forall f :: f in r.reason <==> f in Checked(c) && f !in headers
    ensures r.Fail? && c.key !in headers ==> r.reason[0] == c.key
    ensures r.Fail? ==> IsSubsequence(r.reason, Checked(c))
    ensures r.Fail? && Distinct(Checked(c)) ==> Distinct(r.reason)
  {
    var missing := Filter(Checked(c), f => f !in headers);
    assert forall f :: f in Checked(c) <==> f == c.key || f in c.required;
    if |missing| > 0 then
      assert missing[0] in missing;
      Fail(missing)
    else Pass
  }

  /** The message the tool prints before exiting on a bad header row. */
  function HeadersMessage(missing: seq<string>): string
  {
    "The following headers are required: " + Join(missing, ", ")
  }

  /** Why a row is skipped: the key as shown in the message, and the checked
      fields that are present but empty. */
  datatype Skip = Skip(shown: string, empty: seq<string>)

  /** A field the row carries with the empty string as its value. */
  predicate IsBlank(row: Row, f: string)
  {
    f in row && row[f] == Str("")
  }

  /** How JavaScript renders a field value, or an absent one, in a message. */
  function Show(v: Option<Value>): string
  {
    match v
    case None => "undefined"
    case Some(Str(s)) => s
    case Some(Bool(b)) => if b then "true" else "false"
  }

  /** `validateData`: fails when the key or a required field is present but
      empty. A field that is absent altogether is not reported (the CSV reader
      drops such rows). The key is shown as `?` when it is itself empty. */
  function ValidateData(row: Row, c: Contract): (r: Check<Skip>)
    ensures r.Pass? <==> forall f :: f in Checked(c) ==> !IsBlank(row, f)
    ensures r.Fail? ==> |r.reason.empty| > 0
    ensures r.Fail? ==> forall f :: f in r.reason.empty <==> f in Checked(c) && IsBlank(row, f)
    ensures r.Fail? ==> forall f :: f in r.reason.empty ==> f in row
    ensures r.Fail? ==> IsSubsequence(r.reason.empty, Checked(c))
    ensures r.Fail? && Distinct(Checked(c)) ==> Distinct(r.reason.empty)
    ensures r.Fail? ==> (r.reason.shown == "?" <==> IsBlank(row, c.key) || (c.key in row && row[c.key] == Str("?")))
  {
    var empty := Filter(Checked(c), f => IsBlank(row, f));
    var shown := if IsBlank(row, c.key) then "?" else Show(if c.key in row then Some(row[c.key]) else None);
    if |empty| > 0 then
      assert empty[0] in empty;
      Fail(Skip(shown, empty))
    else Pass
  }

  /** The line the tool prints for a skipped row. */
  function SkipMessage(skip: Skip): string
  {
    skip.shown + " - SKIPPING: " + "The following fields are empty: " + Join(skip.empty, ", ")
  }

  /** A row with an empty key is skipped and reported under `?`, with the key listed first. */
  lemma EmptyKeyIsReported(row: Row, c: Contract)
    requires IsBlank(row, c.key)
    ensures ValidateData(row, c).Fail?
    ensures ValidateData(row, c).reason.shown == "?"
    ensures ValidateData(row, c).reason.empty[0] == c.key
  {
    assert c.key in Checked(c);
    var empty := Filter(Checked(c), f => IsBlank(row, f));
    assert empty == [c.key] + Filter(c.required, f => IsBlank(row, f)) by {
      assert Checked(c)[1..] == c.required;
    }
  }

  /** A row with none of the checked fields passes: absence is never reported. */
  lemma AbsentFieldsPass(row: Row, c: Contract)
    requires forall f :: f in Checked(c) ==> f !in row
    ensures ValidateData(row, c).Pass?
  {
  }
}
