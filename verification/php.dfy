/** The slice of PHP's runtime behaviour that the module's code relies on:
    truthiness of strings, `trim`/`rtrim`, integer-to-string conversion, and
    string-keyed arrays (ordered, with distinct keys) with `array_merge`. */
module Php {
  import opened Wrappers

  /** The placeholder shown in place of a stored API key. */
  const Mask: string := "********"

  /** A key value that stands for "no key given": "" or the mask. Such
      values are never encrypted, and the settings form never saves one
      over an existing key. */
  predicate Placeholder(s: string) {
    s == "" || s == Mask
  }

  /** `!empty($s)` for a string: PHP counts both "" and "0" as empty. */
  predicate Truthy(s: string) {
    s != "" && s != "0"
  }

  /** `!empty($x)` for an optional string (`null` is empty). */
  predicate TruthyOpt(x: Option<string>) {
    x.Some? && Truthy(x.value)
  }

  // ---------------------------------------------------------------------------
  // trim / rtrim
  // ---------------------------------------------------------------------------

  /** The characters `trim` strips by default: space, tab, LF, CR, NUL, VT. */
  predicate Blank(c: char) {
    c == ' ' || c == '\t' || c == '\n' || c == '\r' || c == '\0' || c == '\U{000B}'
  }

  /** `rtrim($s, $chars)` for a set of characters given as a predicate. */
  function TrimEndBy(s: string, strip: char -> bool): (r: string)
    ensures |r| <= |s| && r == s[..|r|]
    ensures forall i | |r| <= i < |s| :: strip(s[i])
    ensures r == [] || !strip(r[|r| - 1])
  {
    if |s| > 0 && strip(s[|s| - 1]) then TrimEndBy(s[..|s| - 1], strip) else s
  }

  /** The number of blanks `trim` cuts off the front of `s`. */
  function LeadingBlanks(s: string): (n: nat)
    ensures n <= |s|
    ensures forall k | 0 <= k < n :: Blank(s[k])
    ensures n == |s| || !Blank(s[n])
  {
    if |s| > 0 && Blank(s[0]) then 1 + LeadingBlanks(s[1..]) else 0
  }

  /** The number of blanks `trim` cuts off the end of `s`. */
  function TrailingBlanks(s: string): (n: nat)
    ensures n <= |s|
    ensures forall k | |s| - n <= k < |s| :: Blank(s[k])
    ensures n == |s| || !Blank(s[|s| - 1 - n])
  {
    if |s| > 0 && Blank(s[|s| - 1]) then 1 + TrailingBlanks(s[..|s| - 1]) else 0
  }

  /** `trim($s)`: the slice of `s` left after cutting blanks off both ends;
      it neither starts nor ends with a blank, and only blanks were cut. */
  function Trim(s: string): (r: string)
    ensures LeadingBlanks(s) + |r| <= |s|
    ensures r == s[LeadingBlanks(s)..LeadingBlanks(s) + |r|]
    ensures forall k | LeadingBlanks(s) + |r| <= k < |s| :: Blank(s[k])
    ensures r == [] || (!Blank(r[0]) && !Blank(r[|r| - 1]))
  {
    var i := LeadingBlanks(s);
    if i == |s| then []
    else
      var j := |s| - TrailingBlanks(s);
      assert !Blank(s[i]);
      s[i..j]
  }

  /** `rtrim($s, '/')`. */
  function TrimSlashes(s: string): (r: string)
    ensures |r| <= |s| && r == s[..|r|]
    ensures r == [] || r[|r| - 1] != '/'
    ensures forall i | |r| <= i < |s| :: s[i] == '/'
  {
    TrimEndBy(s, c => c == '/')
  }

  /** Trimming is idempotent: a trimmed string is its own trim. */
  lemma TrimIdempotent(s: string)
    ensures Trim(Trim(s)) == Trim(s)
  {
    var r := Trim(s);
    assert LeadingBlanks(r) == 0;
    assert TrailingBlanks(r) == 0;
  }

  /** A string with no blank at either end is left alone by `trim`; in
      particular the mask and the empty string are. */
  lemma TrimKeepsUnpadded(s: string)
    requires s == [] || (!Blank(s[0]) && !Blank(s[|s| - 1]))
    ensures Trim(s) == s
  {
    assert LeadingBlanks(s) == 0;
    assert TrailingBlanks(s) == 0;
  }

  // ---------------------------------------------------------------------------
  // Integers as decimal strings (`(string) $i`, string interpolation of ints)
  // ---------------------------------------------------------------------------

  function DigitChar(d: nat): char
    requires d < 10
  {
    "0123456789"[d]
  }

  predicate IsDigit(c: char) {
    '0' <= c <= '9'
  }

  /** The value of a string of decimal digits. */
  function DigitsValue(s: string): nat
    requires forall i | 0 <= i < |s| :: IsDigit(s[i])
  {
    if |s| == 0 then 0
    else
      assert IsDigit(s[|s| - 1]);
      DigitsValue(s[..|s| - 1]) * 10 + (s[|s| - 1] as int - '0' as int)
  }

  /** The canonical decimal rendering of a natural number: digits only, no
      leading zero, reading back as the number itself. */
  function NatToDecimal(n: nat): (r: string)
    ensures |r| > 0
    ensures forall i | 0 <= i < |r| :: IsDigit(r[i])
    ensures r[0] != '0' || r == "0"
    ensures DigitsValue(r) == n
  {
    if n < 10 then [DigitChar(n)]
    else
      var prefix := NatToDecimal(n / 10);
      var r := prefix + [DigitChar(n % 10)];
      assert r[..|r| - 1] == prefix;
      r
  }

  /** PHP's string conversion of an integer: a minus sign for negatives,
      followed by the decimal digits of the magnitude. */
  function IntToDecimal(i: int): (r: string)
    ensures |r| > 0
    ensures r[0] == '-' <==> i < 0
    ensures i >= 0 ==> r == NatToDecimal(i)
    ensures i < 0 ==> r[1..] == NatToDecimal(-i)
  {
    if i < 0 then "-" + NatToDecimal(-i) else NatToDecimal(i)
  }

  /** The text of an integer determines the integer: reading the digits
      after the optional sign gives the magnitude back. */
  lemma IntToDecimalInjective(i: int, j: int)
    requires IntToDecimal(i) == IntToDecimal(j)
    ensures i == j
  {
  }

  // ---------------------------------------------------------------------------
  // String-keyed arrays
  // ---------------------------------------------------------------------------

  function Keys<V>(m: seq<(string, V)>): (ks: seq<string>)
    ensures |ks| == |m|
  {
    if |m| == 0 then [] else [m[0].0] + Keys(m[1..])
  }

  predicate DistinctKeys<V>(m: seq<(string, V)>) {
    |m| == 0 || (m[0].0 !in Keys(m[1..]) && DistinctKeys(m[1..]))
  }

  /** A PHP array with string keys: ordered, every key at most once. */
  type Assoc<V> = m: seq<(string, V)> | DistinctKeys(m) witness []

  /** The key at position `i` is the `i`-th entry's key. */
  lemma {:induction false} KeysAt<V>(m: seq<(string, V)>, i: nat)
    requires i < |m|
    ensures Keys(m)[i] == m[i].0
  {
    if i > 0 {
      KeysAt(m[1..], i - 1);
    }
  }

  /** `$m[$k] ?? null`. */
  function Get<V>(m: seq<(string, V)>, k: string): (r: Option<V>)
    ensures r.Some? <==> k in Keys(m)
  {
    if |m| == 0 then None
    else if m[0].0 == k then Some(m[0].1)
    else Get(m[1..], k)
  }

  /** Looking a key up in a sequence that starts with `x`. */
  lemma GetCons<V>(x: (string, V), rest: seq<(string, V)>, k: string)
    ensures Get([x] + rest, k) == if x.0 == k then Some(x.1) else Get(rest, k)
    ensures Keys([x] + rest) == [x.0] + Keys(rest)
  {
    assert ([x] + rest)[1..] == rest;
  }

  /** In an array with distinct keys, looking up the key at position `i`
      yields the value at position `i`. */
  lemma {:induction false} GetAt<V>(m: Assoc<V>, i: nat)
    requires i < |m|
    ensures Get(m, m[i].0) == Some(m[i].1)
  {
    if i > 0 {
      var t: Assoc<V> := m[1..];
      GetAt(t, i - 1);
      KeysAt(t, i - 1);
    }
  }

  /** Two arrays with the same keys in the same order and the same lookups
      are equal. */
  lemma {:induction false} AssocExtensional<V>(a: Assoc<V>, b: Assoc<V>)
    requires Keys(a) == Keys(b)
    requires forall k :: Get(a, k) == Get(b, k)
    ensures a == b
    decreases |a|
  {
    if |a| > 0 {
      GetAt(a, 0);
      GetAt(b, 0);
      KeysAt(a, 0);
      KeysAt(b, 0);
      var ta: Assoc<V> := a[1..];
      var tb: Assoc<V> := b[1..];
      assert Keys(ta) == Keys(a)[1..] == Keys(b)[1..] == Keys(tb);
      forall k ensures Get(ta, k) == Get(tb, k) {
        GetCons(a[0], ta, k);
        GetCons(b[0], tb, k);
        assert a == [a[0]] + ta && b == [b[0]] + tb;
        if k == a[0].0 {
          assert k !in Keys(ta);
          assert k !in Keys(tb);
        }
      }
      AssocExtensional(ta, tb);
      assert a == [a[0]] + ta && b == [b[0]] + tb;
    }
  }
  /** `$m[$k] = $v`: overwrite in place when the key exists, otherwise append. */
  function Set<V>(m: Assoc<V>, k: string, v: V): (r: Assoc<V>)
    ensures k in Keys(m) ==> Keys(r) == Keys(m)
    ensures k !in Keys(m) ==> Keys(r) == Keys(m) + [k]
    decreases |m|
  {
    if |m| == 0 then
      GetCons((k, v), [], k);
      assert [(k, v)][1..] == [];
      [(k, v)]
    else
      var t: Assoc<V> := m[1..];
      if m[0].0 == k then
        GetCons((k, v), t, k);
        [(k, v)] + t
      else
        var rest := Set(t, k, v);
        GetCons(m[0], rest, k);
        [m[0]] + rest
  }

  /** After `$m[$k] = $v`, key `k` holds `v` and every other key is unchanged. */
  lemma {:induction false} GetSet<V>(m: Assoc<V>, k: string, v: V, k': string)
    ensures Get(Set(m, k, v), k') == if k' == k then Some(v) else Get(m, k')
    decreases |m|
  {
    if |m| == 0 {
      GetCons((k, v), [], k');
    } else {
      var t: Assoc<V> := m[1..];
      assert m == [m[0]] + t;
      GetCons(m[0], t, k');
      if m[0].0 == k {
        GetCons((k, v), t, k');
      } else {
        GetSet(t, k, v, k');
        GetCons(m[0], Set(t, k, v), k');
      }
    }
  }

  /** The same keys in the same order, each value transformed by `f`. */
  function MapValues<V>(m: Assoc<V>, f: (string, V) -> V): (r: Assoc<V>)
    ensures Keys(r) == Keys(m)
    ensures forall k :: Get(r, k) == if Get(m, k).Some? then Some(f(k, Get(m, k).value)) else None
    decreases |m|
  {
    if |m| == 0 then []
    else
      var t: Assoc<V> := m[1..];
      var x := (m[0].0, f(m[0].0, m[0].1));
      var rest := MapValues(t, f);
      assert m == [m[0]] + t;
      GetCons(x, rest, x.0);
      assert forall k :: Get([x] + rest, k) == (if x.0 == k then Some(x.1) else Get(rest, k)) by {
        forall k { GetCons(x, rest, k); }
      }
      assert forall k :: Get(m, k) == (if x.0 == k then Some(m[0].1) else Get(t, k)) by {
        forall k { GetCons(m[0], t, k); }
      }
      [x] + rest
  }

  /** No string occurs twice. */
  predicate Distinct(ks: seq<string>) {
    |ks| == 0 || (ks[0] !in ks[1..] && Distinct(ks[1..]))
  }

  /** The array pairing each of the distinct keys `ks` with the value at
      the same position of `vs`. */
  function Zip<V>(ks: seq<string>, vs: seq<V>): (r: Assoc<V>)
    requires |ks| == |vs| && Distinct(ks)
    ensures Keys(r) == ks
    ensures |r| == |ks| && forall i | 0 <= i < |ks| :: r[i] == (ks[i], vs[i])
    decreases |ks|
  {
    if |ks| == 0 then []
    else
      var rest := Zip(ks[1..], vs[1..]);
      var r := [(ks[0], vs[0])] + rest;
      GetCons((ks[0], vs[0]), rest, ks[0]);
      assert ks == [ks[0]] + ks[1..];
      r
  }

  /** The first key of a zipped array finds the first value. */
  lemma GetZipFirst<V>(ks: seq<string>, vs: seq<V>)
    requires |ks| == |vs| && Distinct(ks) && |ks| > 0
    ensures Get(Zip(ks, vs), ks[0]) == Some(vs[0])
  {
    GetAt(Zip(ks, vs), 0);
  }

  /** Each key of a zipped array finds the value at its own position. */
  lemma GetZip<V>(ks: seq<string>, vs: seq<V>, i: nat)
    requires |ks| == |vs| && Distinct(ks) && i < |ks|
    ensures Get(Zip(ks, vs), ks[i]) == Some(vs[i])
  {
    GetAt(Zip(ks, vs), i);
  }

  /** The array mapping each of the distinct keys `ks`, in order, to `f` of it. */
  function Tabulate<V>(ks: seq<string>, f: string -> V): (r: Assoc<V>)
    requires Distinct(ks)
    ensures Keys(r) == ks
    ensures forall k :: Get(r, k) == if k in ks then Some(f(k)) else None
    decreases |ks|
  {
    if |ks| == 0 then []
    else
      var rest := Tabulate(ks[1..], f);
      var x := (ks[0], f(ks[0]));
      assert forall k :: Get([x] + rest, k) == (if x.0 == k then Some(x.1) else Get(rest, k)) by {
        forall k { GetCons(x, rest, k); }
      }
      assert ks == [ks[0]] + ks[1..];
      [x] + rest
  }

  /** `array_merge($base, $over)` for string keys: every key of `over` is
      written into `base` in order, so `over` wins and new keys are appended. */
  function Merge<V>(base: Assoc<V>, over: Assoc<V>): (r: Assoc<V>)
    decreases |over|
  {
    if |over| == 0 then base
    else
      var t: Assoc<V> := over[1..];
      Merge(Set(base, over[0].0, over[0].1), t)
  }

  /** A merged array takes each key's value from `over` when present there,
      otherwise from `base`. */
  lemma {:induction false} GetMerge<V>(base: Assoc<V>, over: Assoc<V>, k: string)
    ensures Get(Merge(base, over), k) == if Get(over, k).Some? then Get(over, k) else Get(base, k)
    decreases |over|
  {
    if |over| > 0 {
      var t: Assoc<V> := over[1..];
      var b := Set(base, over[0].0, over[0].1);
      assert over == [over[0]] + t;
      GetMerge(b, t, k);
      GetSet(base, over[0].0, over[0].1, k);
      GetCons(over[0], t, k);
    }
  }

  /** The keys of `base` come first, in their order, in a merged array. */
  lemma {:induction false} MergeKeepsBaseOrder<V>(base: Assoc<V>, over: Assoc<V>)
    ensures |base| <= |Merge(base, over)|
    ensures Keys(Merge(base, over))[..|base|] == Keys(base)
    decreases |over|
  {
    if |over| > 0 {
      var t: Assoc<V> := over[1..];
      var b := Set(base, over[0].0, over[0].1);
      MergeKeepsBaseOrder(b, t);
      assert Keys(b)[..|base|] == Keys(base);
    }
  }
}
