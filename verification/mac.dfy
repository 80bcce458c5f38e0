/** The MAC addresses the `generate` command writes for device rows: a random
    24-bit prefix followed by a 24-bit running index, printed as upper-case
    hex padded to twelve digits and grouped in dash-separated pairs. The
    random prefix is an input here. */
module Mac {
  import opened Results
  import opened Text

  /** The largest count the command accepts; the prefix is drawn below it. */
  const Ceil: nat := 16777215

  /** `256 * 256 * 256`: the prefix is shifted by 24 bits. */
  const Block: nat := 16777216

  /** Sixteen to the twelfth: every twelve-digit hex number is below it. */
  const Space: nat := 0x1_0000_0000_0000

  predicate IsHex(c: char)
  {
    '0' <= c <= '9' || 'A' <= c <= 'F'
  }

  predicate AllHex(s: string)
  {
    forall i :: 0 <= i < |s| ==> IsHex(s[i])
  }

  /** The upper-case digit for `d`. */
  function Digit(d: nat): (c: char)
    requires d < 16
    ensures IsHex(c) && DigitValue(c) == d
    ensures c == '0' <==> d == 0
  {
    if d < 10 then ('0' as int + d) as char else ('A' as int + d - 10) as char
  }

  function DigitValue(c: char): nat
    requires IsHex(c)
  {
    if c <= '9' then c as int - '0' as int else c as int - 'A' as int + 10
  }

  /** The number a string of hex digits denotes, most significant first. */
  function Value(s: string): nat
    requires AllHex(s)
  {
    if s == [] then 0 else Value(s[..|s| - 1]) * 16 + DigitValue(s[|s| - 1])
  }

  function Pow16(k: nat): nat
  {
    if k == 0 then 1 else 16 * Pow16(k - 1)
  }

  /** `n.toString(16).toUpperCase()`: the shortest spelling, `0` only for zero. */
  function ToHex(n: nat): (r: string)
    ensures |r| >= 1 && AllHex(r)
    ensures Value(r) == n
    ensures r[0] == '0' <==> n == 0
    decreases n
  {
    if n < 16 then [Digit(n)]
    else
      var front := ToHex(n / 16);
      var r := front + [Digit(n % 16)];
      assert r[..|r| - 1] == front;
      r
  }

  /** A number below `16^k` takes at most `k` digits. */
  lemma {:induction false} HexLength(n: nat, k: nat)
    requires k >= 1 && n < Pow16(k)
    ensures |ToHex(n)| <= k
    decreases n
  {
    if n >= 16 {
      assert k >= 2;
      assert n / 16 < Pow16(k - 1);
      HexLength(n / 16, k - 1);
    }
  }

  /** `k` zero digits. */
  function Zeros(k: nat): string
  {
    seq(k, _ => '0')
  }

  /** The `while (mac.length < 12) mac = '0' + mac` loop: zeros in front up to
      width `w`; a string already that wide is left alone. */
  function Pad(s: string, w: nat): (r: string)
    ensures r == (if |s| < w then Zeros(w - |s|) else "") + s
    decreases w - |s|
  {
    if |s| < w then
      var r := Pad("0" + s, w);
      assert Zeros(w - |s| - 1) + "0" == Zeros(w - |s|);
      r
    else s
  }

  /** A leading zero does not change the number. */
  lemma {:induction false} LeadingZero(s: string)
    requires AllHex(s)
    ensures AllHex("0" + s) && Value("0" + s) == Value(s)
    decreases |s|
  {
    if s != [] {
      var z := "0" + s;
      assert z[..|z| - 1] == "0" + s[..|s| - 1];
      LeadingZero(s[..|s| - 1]);
    }
  }

  /** Padding keeps the digits and the number they denote. */
  lemma {:induction false} PadValue(s: string, w: nat)
    requires AllHex(s)
    ensures AllHex(Pad(s, w)) && Value(Pad(s, w)) == Value(s)
    decreases w - |s|
  {
    if |s| < w {
      LeadingZero(s);
      PadValue("0" + s, w);
    }
  }

  /** `s.match(/.{2}/g)`: consecutive two-character pieces; an odd last
      character is dropped. */
  function Pairs(s: string): (r: seq<string>)
    ensures |r| == |s| / 2
    ensures forall i :: 0 <= i < |r| ==> r[i] == s[2 * i..2 * i + 2]
    decreases |s|
  {
    if |s| < 2 then []
    else
      var rest := Pairs(s[2..]);
      var r := [s[..2]] + rest;
      assert forall i :: 1 <= i < |r| ==> r[i] == rest[i - 1] == s[2..][2 * (i - 1)..2 * (i - 1) + 2];
      r
  }

  function Concat(pieces: seq<string>): string
  {
    if pieces == [] then "" else pieces[0] + Concat(pieces[1..])
  }

  /** An even-length string is its pairs put back together. */
  lemma {:induction false} PairsConcat(s: string)
    requires |s| % 2 == 0
    ensures Concat(Pairs(s)) == s
    decreases |s|
  {
    if |s| >= 2 {
      var p := Pairs(s);
      assert p[1..] == Pairs(s[2..]);
      PairsConcat(s[2..]);
      assert s == s[..2] + s[2..];
    }
  }

  /** The twelve-digit, dash-grouped spelling of `n`. */
  function FormatMac(n: nat): string
  {
    Join(Pairs(Pad(ToHex(n), 12)), "-")
  }

  /** Reading an address back: six dash-separated pairs of hex digits. */
  function ParseMac(m: string): (r: Option<nat>)
    ensures r.Some? ==> r.value < Space
  {
    var pieces := Split(m, '-');
    var digits := Concat(pieces);
    if |pieces| == 6 && (forall i :: 0 <= i < 6 ==> |pieces[i]| == 2) && AllHex(digits) then
      ConcatLength(pieces);
      ValueBound(digits);
      SpaceIsPow16();
      Some(Value(digits))
    else None
  }

  lemma {:induction false} ConcatLength(pieces: seq<string>)
    requires forall i :: 0 <= i < |pieces| ==> |pieces[i]| == 2
    ensures |Concat(pieces)| == 2 * |pieces|
    decreases |pieces|
  {
    if pieces != [] {
      ConcatLength(pieces[1..]);
    }
  }

  lemma {:induction false} ValueBound(s: string)
    requires AllHex(s)
    ensures Value(s) < Pow16(|s|)
    decreases |s|
  {
    if s != [] {
      ValueBound(s[..|s| - 1]);
    }
  }

  lemma SpaceIsPow16()
    ensures Pow16(12) == Space
  {
  }

  /** The padded digits of a number below `16^12` are exactly twelve. */
  lemma PaddedDigits(n: nat)
    requires n < Space
    ensures |Pad(ToHex(n), 12)| == 12
    ensures AllHex(Pad(ToHex(n), 12)) && Value(Pad(ToHex(n), 12)) == n
  {
    SpaceIsPow16();
    HexLength(n, 12);
    PadValue(ToHex(n), 12);
  }

  /** The pairs of a hex string hold no dash. */
  lemma PairsOfHex(s: string)
    requires AllHex(s)
    ensures forall i :: 0 <= i < |Pairs(s)| ==> '-' !in Pairs(s)[i]
  {
    var pairs := Pairs(s);
    forall i | 0 <= i < |pairs| ensures '-' !in pairs[i] {
      assert pairs[i] == [s[2 * i], s[2 * i + 1]];
      assert IsHex(s[2 * i]) && IsHex(s[2 * i + 1]);
    }
  }

  /** Every number below `16^12` is read back from its spelling. */
  lemma MacRoundTrip(n: nat)
    requires n < Space
    ensures ParseMac(FormatMac(n)) == Some(n)
  {
    var p := Pad(ToHex(n), 12);
    PaddedDigits(n);
    var pairs := Pairs(p);
    assert |pairs| == 6;
    PairsOfHex(p);
    SplitJoin(pairs, '-');
    PairsConcat(p);
    assert Split(FormatMac(n), '-') == pairs;
    assert Concat(pairs) == p;
  }

  /** The address of row `i` under `prefix`: `prefix * 256^3 + i`. */
  function GeneratedMac(prefix: nat, i: nat): string
    requires prefix < Ceil && i < Ceil
  {
    FormatMac(prefix * Block + i)
  }

  /** A generated address reads back as the prefix and the row index. */
  lemma GeneratedRoundTrip(prefix: nat, i: nat)
    requires prefix < Ceil && i < Ceil
    ensures ParseMac(GeneratedMac(prefix, i)) == Some(prefix * Block + i)
  {
    assert prefix * Block <= (Ceil - 1) * Block;
    MacRoundTrip(prefix * Block + i);
  }

  /** Two rows of one run never get the same address. */
  lemma GeneratedDistinct(prefix: nat, i: nat, j: nat)
    requires prefix < Ceil && i < Ceil && j < Ceil && i != j
    ensures GeneratedMac(prefix, i) != GeneratedMac(prefix, j)
  {
    GeneratedRoundTrip(prefix, i);
    GeneratedRoundTrip(prefix, j);
  }

  /** The count check of `generate`, then its device branch: a count that is
      not positive is refused, so is one above the ceiling; otherwise one
      address per row. `count` is the value after `parseInt`. */
  function GenerateMacs(prefix: nat, count: int): (r: Result<seq<string>, string>)
    requires prefix < Ceil
    ensures r.Success? <==> 1 <= count <= Ceil
    ensures count <= 0 ==> r == Failure("Count must be an integer")
    ensures count > Ceil ==> r == Failure("Count must be less than 16777215")
    ensures r.Success? ==> |r.value| == count
    ensures r.Success? ==> forall i :: 0 <= i < count ==> ParseMac(r.value[i]) == Some(prefix * Block + i)
  {
    if count <= 0 then Failure("Count must be an integer")
    else if count > Ceil then Failure("Count must be less than 16777215")
    else
      var macs := seq(count, i requires 0 <= i < count => GeneratedMac(prefix, i));
      forall i | 0 <= i < count ensures ParseMac(macs[i]) == Some(prefix * Block + i) {
        GeneratedRoundTrip(prefix, i);
      }
      Success(macs)
  }

  /** Every generated list is free of repeats. */
  lemma GeneratedListDistinct(prefix: nat, count: int)
    requires prefix < Ceil
    requires GenerateMacs(prefix, count).Success?
    ensures Distinct(GenerateMacs(prefix, count).value)
  {
    var macs := GenerateMacs(prefix, count).value;
    forall i, j | 0 <= i < j < |macs| ensures macs[i] != macs[j] {
      assert ParseMac(macs[i]) != ParseMac(macs[j]);
    }
  }
}
