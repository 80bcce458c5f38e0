/** One CSV row as the import sees it, and `normalizeData`, which prepares a
    row before it is validated and sent. */
module Records {
  import opened Text

  /** A field value: the CSV reader yields strings; normalisation turns the
      boolean-typed fields into booleans. */
  datatype Value = Str(s: string) | Bool(b: bool)

  /** A row: field name to value. */
  type Row = map<string, Value>

  /** The fields `normalizeData` coerces to booleans. */
  const BooleanFields: set<string> := {"enabled"}

  /** The lower-cased spellings read as true. */
  const TruthyWords: set<string> := {"1", "true", "yes", "on"}

  /** A string value becomes `true` exactly when its lower-cased form is one of
      the truthy words; any other string becomes `false`; a boolean stays. */
  function Coerce(v: Value): (r: Value)
    ensures r.Bool?
    ensures v.Str? ==> (r.b <==> Lower(v.s) in TruthyWords)
    ensures v.Bool? ==> r == v
  {
    match v
    case Str(s) => Bool(Lower(s) == "1" || Lower(s) == "true" || Lower(s) == "yes" || Lower(s) == "on")
    case Bool(_) => v
  }

  /** Common spellings of true and false, in various letter cases. */
  lemma CoerceTable()
    ensures Coerce(Str("1")) == Bool(true)
    ensures Coerce(Str("true")) == Bool(true)
    ensures Coerce(Str("TRUE")) == Bool(true)
    ensures Coerce(Str("yes")) == Bool(true)
    ensures Coerce(Str("On")) == Bool(true)
    ensures Coerce(Str("0")) == Bool(false)
    ensures Coerce(Str("false")) == Bool(false)
    ensures Coerce(Str("no")) == Bool(false)
    ensures Coerce(Str("")) == Bool(false)
    ensures Coerce(Str("garbage")) == Bool(false)
  {
    assert Lower("1") == "1";
    assert Lower("true") == "true";
    assert Lower("TRUE") == "true";
    assert Lower("yes") == "yes";
    assert Lower("On") == "on";
    assert Lower("0") == "0";
    assert Lower("false") == "false";
    assert Lower("no") == "no";
    assert Lower("") == "";
    assert Lower("garbage") == "garbage";
  }

  /** The value field `k` ends up with when it held `v` before the coercion pass. */
  function Coerced(k: string, v: Value): Value
  {
    if k in BooleanFields then Coerce(v) else v
  }

  /** `normalizeData`: deletes the excluded columns, merges the `-x` extras over
      what is left (extras win), then coerces the boolean fields. */
  function Normalize(row: Row, exclude: seq<string>, extra: map<string, string>): (r: Row)
    ensures r.Keys == (row.Keys - set k | k in exclude) + extra.Keys
    ensures forall k :: k in exclude && k !in extra ==> k !in r
    ensures forall k :: k in extra ==> r[k] == Coerced(k, Str(extra[k]))
    ensures forall k :: k in extra && k !in BooleanFields ==> r[k] == Str(extra[k])
    ensures forall k :: k in row && k !in exclude && k !in extra ==> r[k] == Coerced(k, row[k])
    ensures forall k :: k in r && k in BooleanFields ==> r[k].Bool?
  {
    var kept := map k | k in row && k !in exclude :: row[k];
    var merged := kept + map k | k in extra :: Str(extra[k]);
    map k | k in merged :: if k in BooleanFields then Coerce(merged[k]) else merged[k]
  }

  /** Normalising an already normalised row with the same options changes nothing. */
  lemma NormalizeIdempotent(row: Row, exclude: seq<string>, extra: map<string, string>)
    ensures Normalize(Normalize(row, exclude, extra), exclude, extra) == Normalize(row, exclude, extra)
  {
    var once := Normalize(row, exclude, extra);
    var twice := Normalize(once, exclude, extra);
    forall k | k in twice
      ensures k in once && twice[k] == once[k]
    {
      if k !in extra {
        assert k in once && k !in exclude;
        assert twice[k] == Coerced(k, once[k]);
      }
    }
    assert twice.Keys == once.Keys;
  }
}
