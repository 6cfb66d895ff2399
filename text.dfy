/** The two pieces of JavaScript string behaviour the prompt relies on:
    `${n}` for a natural number and `Array.prototype.join`. */
module Text {

  predicate IsDigit(c: char) {
    '0' as int <= c as int <= '9' as int
  }

  function DigitChar(d: nat): (c: char)
    requires d < 10
    ensures IsDigit(c) && c as int - '0' as int == d
  {
    "0123456789"[d]
  }

  /** Decimal rendering of `n`, the way a template literal renders a number. */
  function NatToString(n: nat): (s: string)
    ensures |s| > 0
    ensures forall i :: 0 <= i < |s| ==> IsDigit(s[i])
    ensures |s| > 1 ==> s[0] != '0'
    decreases n
  {
    if n < 10 then [DigitChar(n)] else NatToString(n / 10) + [DigitChar(n % 10)]
  }

  /** Reads a string of decimal digits back into the number it denotes. */
  function ParseDecimal(s: string): nat
    requires forall i :: 0 <= i < |s| ==> IsDigit(s[i])
  {
    if s == [] then 0
    else
      assert IsDigit(s[|s| - 1]);
      10 * ParseDecimal(s[..|s| - 1]) + (s[|s| - 1] as int - '0' as int)
  }

  /** Rendering a number in decimal loses nothing: it can be read back. */
  lemma {:induction false} ParseNatToString(n: nat)
    ensures ParseDecimal(NatToString(n)) == n
    decreases n
  {
    if n >= 10 {
      var s := NatToString(n);
      assert s[..|s| - 1] == NatToString(n / 10);
      ParseNatToString(n / 10);
    }
  }

  /** `xs.join(sep)`: the elements in order, with `sep` between neighbours and
      nothing after the last one. */
  function Join(sep: string, xs: seq<string>): string {
    if |xs| == 0 then ""
    else if |xs| == 1 then xs[0]
    else xs[0] + sep + Join(sep, xs[1..])
  }

  /** Where the `k`-th element starts inside `Join(sep, xs)`: the lengths of the
      elements before it, each followed by one separator. */
  function Offset(sep: string, xs: seq<string>, k: nat): nat
    requires k <= |xs|
  {
    if k == 0 then 0 else |xs[0]| + |sep| + Offset(sep, xs[1..], k - 1)
  }

  /** Every element of a join appears, unchanged, at its offset; the offsets
      increase with the index, so the elements appear in their original order. */
  lemma {:induction false} JoinAt(sep: string, xs: seq<string>, k: nat)
    requires k < |xs|
    ensures OccursAt(Join(sep, xs), Offset(sep, xs, k), xs[k])
    ensures k + 1 < |xs| ==> Offset(sep, xs, k) + |xs[k]| + |sep| == Offset(sep, xs, k + 1)
    decreases k
  {
    if k == 0 {
      if |xs| > 1 {
        assert Join(sep, xs) == xs[0] + (sep + Join(sep, xs[1..]));
      }
    } else {
      var rest := xs[1..];
      JoinAt(sep, rest, k - 1);
      var o := Offset(sep, rest, k - 1);
      var head := xs[0] + sep;
      assert Join(sep, xs) == head + Join(sep, rest);
      assert Offset(sep, xs, k) == |head| + o;
      assert rest[k - 1] == xs[k];
      assert (head + Join(sep, rest))[|head| + o..|head| + o + |xs[k]|] == Join(sep, rest)[o..o + |xs[k]|];
    }
  }

  /** A join ends with its last element: its length is where that element
      starts plus its own length. */
  lemma {:induction false} JoinLength(sep: string, xs: seq<string>)
    requires |xs| > 0
    ensures |Join(sep, xs)| == Offset(sep, xs, |xs| - 1) + |xs[|xs| - 1]|
    decreases |xs|
  {
    if |xs| > 1 {
      JoinLength(sep, xs[1..]);
      assert xs[1..][|xs| - 2] == xs[|xs| - 1];
    }
  }

  /** Between neighbouring elements of a join stands the separator. */
  lemma {:induction false} JoinSep(sep: string, xs: seq<string>, k: nat)
    requires k + 1 < |xs|
    ensures OccursAt(Join(sep, xs), Offset(sep, xs, k) + |xs[k]|, sep)
    decreases k
  {
    var rest := xs[1..];
    if k == 0 {
      assert Join(sep, xs) == xs[0] + sep + Join(sep, rest);
      assert (xs[0] + sep + Join(sep, rest))[|xs[0]|..|xs[0]| + |sep|] == sep;
    } else {
      JoinSep(sep, rest, k - 1);
      var head := xs[0] + sep;
      assert Join(sep, xs) == head + Join(sep, rest);
      assert rest[k - 1] == xs[k];
      OccursAfter(head, Join(sep, rest), Offset(sep, rest, k - 1) + |xs[k]|, sep);
    }
  }

  /** `x` appears in `s` starting at position `o`. */
  predicate OccursAt(s: string, o: nat, x: string) {
    o + |x| <= |s| && s[o..o + |x|] == x
  }

  /** Text put in front of `s` shifts every occurrence by its length. */
  lemma OccursAfter(a: string, b: string, o: nat, x: string)
    requires OccursAt(b, o, x)
    ensures OccursAt(a + b, |a| + o, x)
  {
    assert (a + b)[|a| + o..|a| + o + |x|] == b[o..o + |x|];
  }

  /** Text around `b` on both sides: the same shift, to position `p`. */
  lemma OccursInside(a: string, b: string, c: string, o: nat, x: string, p: nat)
    requires OccursAt(b, o, x) && p == |a| + o
    ensures OccursAt(a + b + c, p, x)
  {
    assert (a + b + c)[p..p + |x|] == b[o..o + |x|];
  }

  lemma OccursExtend(s: string, t: string, o: nat, x: string)
    requires OccursAt(s, o, x)
    ensures OccursAt(s + t, o, x)
  {
    assert (s + t)[o..o + |x|] == s[o..o + |x|];
  }

  lemma OccursWhole(a: string, x: string)
    ensures OccursAt(a + x, |a|, x)
  {
    assert (a + x)[|a|..|a| + |x|] == x;
  }

  /** A join behind a heading `h`, framed by `a` before and `c` after: each
      element sits at its offset shifted by `|a| + |h|`. */
  lemma JoinFramed(a: string, h: string, sep: string, xs: seq<string>, c: string, k: nat)
    requires k < |xs|
    ensures OccursAt(a + (h + Join(sep, xs)) + c, |a| + |h| + Offset(sep, xs, k), xs[k])
  {
    var o := Offset(sep, xs, k);
    JoinAt(sep, xs, k);
    OccursAfter(h, Join(sep, xs), o, xs[k]);
    OccursInside(a, h + Join(sep, xs), c, |h| + o, xs[k], |a| + |h| + o);
  }

  /** In the same frame the separator follows every element but the last, and
      the next element starts right after it. */
  lemma JoinFramedSep(a: string, h: string, sep: string, xs: seq<string>, c: string, k: nat)
    requires k + 1 < |xs|
    ensures OccursAt(a + (h + Join(sep, xs)) + c, |a| + |h| + Offset(sep, xs, k) + |xs[k]|, sep)
    ensures |a| + |h| + Offset(sep, xs, k) + |xs[k]| + |sep| == |a| + |h| + Offset(sep, xs, k + 1)
  {
    var o := Offset(sep, xs, k);
    JoinAt(sep, xs, k);
    JoinSep(sep, xs, k);
    OccursAfter(h, Join(sep, xs), o + |xs[k]|, sep);
    OccursInside(a, h + Join(sep, xs), c, |h| + (o + |xs[k]|), sep, |a| + |h| + o + |xs[k]|);
  }
}
