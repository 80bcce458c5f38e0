/** The small parsers behind the command-line options of the import command:
    `-x key=value` extras, `--token`, `--exclude`, and the byte-order mark the
    CSV reader leaves on the first header. */
module Options {
  import opened Results
  import opened Text

  /** A name `-x` accepts: non-empty and made only of `\w` characters. */
  predicate IsKey(k: string)
  {
    |k| > 0 && forall i :: 0 <= i < |k| ==> IsWordChar(k[i])
  }

  /** The text before the first `=` of a `-x` argument (all of it when there is none). */
  function KeyOf(value: string): string
  {
    var eq := IndexOf(value, '=');
    if eq < 0 then value else value[..eq]
  }

  /** The text after the first `=` of a `-x` argument (possibly empty). */
  function ValueOf(value: string): string
  {
    var eq := IndexOf(value, '=');
    if eq < 0 then "" else value[eq + 1..]
  }

  /** An argument `collectPairs` accepts. */
  predicate IsPair(value: string)
  {
    '=' in value && IsKey(KeyOf(value))
  }

  /** `collectPairs`: adds one `key=value` argument to the extras collected so
      far. An argument without `=`, with `=` first, or whose key holds a
      non-word character makes the tool exit; the model returns `None`. */
  function CollectPairs(value: string, previous: map<string, string>): (r: Option<map<string, string>>)
    ensures r.Some? <==> IsPair(value)
    ensures r.Some? ==> r.value.Keys == previous.Keys + {KeyOf(value)}
    ensures r.Some? ==> r.value[KeyOf(value)] == ValueOf(value)
    ensures r.Some? ==> forall k :: k in previous && k != KeyOf(value) ==> r.value[k] == previous[k]
  {
    var eq := IndexOf(value, '=');
    if eq <= 0 || eq == |value| then None
    else
      var key := value[..eq];
      var val := value[eq + 1..];
      if exists i :: 0 <= i < |key| && !IsWordChar(key[i]) then None
      else Some(previous[key := val])
  }

  /** A well-formed argument is split at its first `=`: the key is what comes
      before it, and everything after it, further `=` signs included, is the value. */
  lemma {:induction false} CollectPairsRoundTrip(key: string, val: string, previous: map<string, string>)
    requires IsKey(key)
    ensures CollectPairs(key + "=" + val, previous) == Some(previous[key := val])
  {
    assert '=' !in key by {
      forall i | 0 <= i < |key| ensures key[i] != '=' {
        assert IsWordChar(key[i]);
      }
    }
    IndexOfAfter(key, '=', val);
    var s := key + "=" + val;
    assert s[..|key|] == key;
    assert s[|key| + 1..] == val;
  }

  /** Every occurrence of `-x`, folded left to right from an empty map, as
      Commander does with an option whose parser accumulates. */
  function CollectExtras(values: seq<string>): (r: Option<map<string, string>>)
    ensures r.Some? <==> forall i :: 0 <= i < |values| ==> IsPair(values[i])
    ensures r.Some? ==> r.value.Keys == set i | 0 <= i < |values| :: KeyOf(values[i])
    ensures r.Some? ==> forall i :: 0 <= i < |values| && IsLastFor(values, i) ==>
                          r.value[KeyOf(values[i])] == ValueOf(values[i])
  {
    if |values| == 0 then Some(map[])
    else
      var init := values[..|values| - 1];
      var last := values[|values| - 1];
      assert values == init + [last];
      match CollectExtras(init)
      case None => None
      case Some(m) =>
        var r := CollectPairs(last, m);
        if r.Some? then ExtrasStep(init, last, m); r else r
  }

  /** The inductive step of `CollectExtras`: one more well-formed argument. */
  lemma ExtrasStep(init: seq<string>, last: string, m: map<string, string>)
    requires IsPair(last)
    requires m.Keys == set i | 0 <= i < |init| :: KeyOf(init[i])
    requires forall i :: 0 <= i < |init| && IsLastFor(init, i) ==> m[KeyOf(init[i])] == ValueOf(init[i])
    ensures CollectPairs(last, m).Some?
    ensures CollectPairs(last, m).value.Keys == set i | 0 <= i < |init + [last]| :: KeyOf((init + [last])[i])
    ensures forall i :: 0 <= i < |init + [last]| && IsLastFor(init + [last], i) ==>
              CollectPairs(last, m).value[KeyOf((init + [last])[i])] == ValueOf((init + [last])[i])
  {
    ExtrasKeys(init, last);
    var values := init + [last];
    var n := |init|;
    var r := CollectPairs(last, m).value;
    forall i | 0 <= i < |values| && IsLastFor(values, i)
      ensures r[KeyOf(values[i])] == ValueOf(values[i])
    {
      if i < n {
        assert values[i] == init[i];
        forall j | i < j < n ensures KeyOf(init[j]) != KeyOf(init[i]) {
          assert values[j] == init[j];
        }
        assert KeyOf(values[i]) != KeyOf(values[n]);
      }
    }
  }

  /** The keys of one more argument are the keys before plus its own. */
  lemma ExtrasKeys(init: seq<string>, last: string)
    ensures (set i | 0 <= i < |init + [last]| :: KeyOf((init + [last])[i]))
            == (set i | 0 <= i < |init| :: KeyOf(init[i])) + {KeyOf(last)}
  {
    var values := init + [last];
    var n := |init|;
    assert forall i :: 0 <= i < n ==> values[i] == init[i];
    var keys := set i | 0 <= i < |values| :: KeyOf(values[i]);
    var before := set i | 0 <= i < n :: KeyOf(init[i]);
    forall x | x in keys ensures x in before + {KeyOf(last)} {
      var i :| 0 <= i < |values| && x == KeyOf(values[i]);
      if i < n { assert x == KeyOf(init[i]); }
    }
    forall x | x in before ensures x in keys {
      var i :| 0 <= i < n && x == KeyOf(init[i]);
      assert x == KeyOf(values[i]);
    }
    assert KeyOf(values[n]) in keys;
  }

  /** No later argument in `values` sets the same key as argument `i`. */
  predicate IsLastFor(values: seq<string>, i: int)
    requires 0 <= i < |values|
  {
    forall j :: i < j < |values| ==> KeyOf(values[j]) != KeyOf(values[i])
  }

  /** The token starts with `Bearer ` in any letter case. */
  predicate HasBearerPrefix(token: string)
  {
    |token| >= 7 && Lower(token[..7]) == "bearer "
  }

  /** The `--token` handler: drops a leading `Bearer ` (any case), since the
      client adds its own. */
  function StripBearer(token: string): (r: string)
    ensures HasBearerPrefix(token) ==> token == token[..7] + r
    ensures !HasBearerPrefix(token) ==> r == token
    ensures |r| <= |token|
  {
    if |token| >= 7 && Lower(token[..7]) == "bearer " then token[7..] else token
  }

  /** Pasting a header value with its scheme name gives back the bare token. */
  lemma BearerRoundTrip(token: string)
    ensures StripBearer("Bearer " + token) == token
    ensures StripBearer("BEARER " + token) == token
  {
    assert ("Bearer " + token)[..7] == "Bearer ";
    assert Lower("Bearer ") == "bearer ";
    assert ("BEARER " + token)[..7] == "BEARER ";
    assert Lower("BEARER ") == "bearer ";
  }

  /** The `--exclude` handler: a comma-separated list of column names; when the
      option is not given the list is empty. */
  function ExcludeList(raw: Option<string>): (r: seq<string>)
    ensures raw.None? ==> r == []
    ensures raw.Some? ==> |r| >= 1 && Join(r, ",") == raw.value
    ensures forall i :: 0 <= i < |r| ==> ',' !in r[i]
  {
    match raw
    case None => []
    case Some(s) => Split(s, ',')
  }

  /** Writing a list of comma-free column names out and reading it back gives the list. */
  lemma ExcludeRoundTrip(columns: seq<string>)
    requires |columns| >= 1
    requires forall i :: 0 <= i < |columns| ==> ',' !in columns[i]
    ensures ExcludeList(Some(Join(columns, ","))) == columns
  {
    SplitJoin(columns, ',');
  }

  /** U+FEFF, which a UTF-8 byte-order mark becomes once decoded. */
  const Bom: char := '\U{FEFF}'

  /** Drops a byte-order mark from the front of the first header name. */
  function StripBom(headers: seq<string>): (r: seq<string>)
    ensures |r| == |headers|
    ensures forall i :: 1 <= i < |headers| ==> r[i] == headers[i]
    ensures |headers| > 0 ==> headers[0] == r[0] || headers[0] == [Bom] + r[0]
    ensures |r| > 0 && |headers[0]| > 0 && headers[0][0] == Bom ==> headers[0] == [Bom] + r[0]
  {
    if |headers| > 0 && |headers[0]| > 0 && headers[0][0] == Bom
    then headers[0 := headers[0][1..]]
    else headers
  }

  /** A marked first header comes back unmarked; an unmarked header row is left alone. */
  lemma BomRoundTrip(first: string, rest: seq<string>)
    ensures StripBom([[Bom] + first] + rest) == [first] + rest
    ensures |first| == 0 || first[0] != Bom ==> StripBom([first] + rest) == [first] + rest
  {
    assert ([[Bom] + first] + rest)[0][1..] == first;
  }
}
