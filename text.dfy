/** String helpers standing in for the Python string operations the renderer
    uses: `n * s`, `str.join`, `str(int)`, and the `{:Nd}` / `{:Ns}` format
    specifiers. */
module Text {

  /** `n * s` in Python, for n >= 0. */
  function Repeat(s: string, n: nat): (r: string)
    ensures |s| == 1 ==> |r| == n
    ensures forall c :: c in r ==> c in s
  {
    if n == 0 then "" else s + Repeat(s, n - 1)
  }

  /** n copies of s are n times as long as s. */
  lemma {:induction false} RepeatLength(s: string, n: nat)
    ensures |Repeat(s, n)| == n * |s|
  {
    if n > 0 {
      RepeatLength(s, n - 1);
    }
  }

  lemma {:induction false} RepeatOneChar(c: char, n: nat, i: nat)
    requires i < n
    ensures |Repeat([c], n)| == n && Repeat([c], n)[i] == c
  {
    if i > 0 {
      RepeatOneChar(c, n - 1, i - 1);
    }
  }

  /** The four parts of a concatenation, recovered by slicing at their lengths. */
  lemma Slices4(a: string, b: string, c: string, d: string)
    ensures var f := a + b + c + d;
      f[..|a|] == a && f[|a|..|a| + |b|] == b &&
      f[|a| + |b|..|a| + |b| + |c|] == c && f[|a| + |b| + |c|..] == d
  {
    var f := a + b + c + d;
    assert f == a + (b + (c + d));
    assert f[|a|..] == b + (c + d);
    assert f[|a| + |b|..] == c + d;
  }

  /** A slice that starts where a wider slice starts is a prefix of it. */
  lemma SliceOfSlice(f: string, i: nat, k: nat, j: nat)
    requires i <= k <= j <= |f|
    ensures f[i..k] == f[i..j][..k - i]
  {
  }

  /** `format(s, "{w}s")`: a string padded on the right with spaces to width w. */
  function PadRight(s: string, w: int): (r: string)
    ensures |r| == if w > |s| then w else |s|
    ensures r[..|s|] == s
    ensures forall i :: |s| <= i < |r| ==> r[i] == ' '
  {
    var fill := if w > |s| then Repeat(" ", w - |s|) else "";
    assert forall i :: 0 <= i < |fill| ==> fill[i] in " ";
    s + fill
  }

  /** `format(n, "{w}")` on a non-negative integer: right-aligned with spaces. */
  function PadLeft(s: string, w: int): (r: string)
    ensures |r| == if w > |s| then w else |s|
    ensures r[|r| - |s|..] == s
    ensures forall i :: 0 <= i < |r| - |s| ==> r[i] == ' '
  {
    var fill := if w > |s| then Repeat(" ", w - |s|) else "";
    assert forall i :: 0 <= i < |fill| ==> fill[i] in " ";
    fill + s
  }

  function DigitChar(d: nat): (c: char)
    requires d < 10
    ensures '0' <= c <= '9'
  {
    "0123456789"[d]
  }

  function Pow10(k: nat): (r: nat)
    ensures r >= 1
  {
    if k == 0 then 1 else 10 * Pow10(k - 1)
  }

  /** `str(n)` for a non-negative integer: its decimal digits, no leading zeros. */
  function NatToString(n: nat): (r: string)
    ensures |r| >= 1
    ensures forall i :: 0 <= i < |r| ==> '0' <= r[i] <= '9'
  {
    if n < 10 then [DigitChar(n)] else NatToString(n / 10) + [DigitChar(n % 10)]
  }

  /** The decimal reading of a string of digits. */
  function ParseDigits(s: string): nat
    requires forall i :: 0 <= i < |s| ==> '0' <= s[i] <= '9'
  {
    if s == [] then 0
    else 10 * ParseDigits(s[..|s| - 1]) + ((s[|s| - 1] as int) - ('0' as int))
  }

  lemma {:induction false} NatToStringRoundTrip(n: nat)
    ensures ParseDigits(NatToString(n)) == n
    ensures n >= 10 ==> NatToString(n)[0] != '0'
  {
    var r := NatToString(n);
    if n >= 10 {
      NatToStringRoundTrip(n / 10);
      assert r[..|r| - 1] == NatToString(n / 10);
      assert r[0] == NatToString(n / 10)[0];
    } else {
      assert r[..|r| - 1] == "";
    }
  }

  /** A number below 10^k (k >= 1) has at most k decimal digits, and one of
      at least 10^k has more than k. */
  lemma {:induction false} NatToStringLength(n: nat, k: nat)
    requires k >= 1
    ensures |NatToString(n)| <= k <==> n < Pow10(k)
  {
    if n >= 10 {
      if k == 1 {
        assert |NatToString(n / 10)| >= 1;
      } else {
        NatToStringLength(n / 10, k - 1);
      }
    }
  }

  /** `sep.join(parts)`: the parts separated by `sep`, with none after the last. */
  function Join(parts: seq<string>, sep: string): (r: string)
    ensures |parts| == 1 ==> r == parts[0]
    ensures |parts| >= 1 ==> parts[0] <= r && |parts[|parts| - 1]| <= |r|
    ensures |parts| >= 1 ==> r[|r| - |parts[|parts| - 1]|..] == parts[|parts| - 1]
  {
    if |parts| == 0 then ""
    else if |parts| == 1 then parts[0]
    else Join(parts[..|parts| - 1], sep) + sep + parts[|parts| - 1]
  }

  function Count(c: char, s: string): nat
  {
    if s == [] then 0 else Count(c, s[..|s| - 1]) + (if s[|s| - 1] == c then 1 else 0)
  }

  lemma {:induction false} CountAppend(c: char, a: string, b: string)
    ensures Count(c, a + b) == Count(c, a) + Count(c, b)
  {
    if b != [] {
      assert (a + b)[..|a + b| - 1] == a + b[..|b| - 1];
      CountAppend(c, a, b[..|b| - 1]);
    } else {
      assert a + b == a;
    }
  }

  /** When no part contains the one-character separator, the joined string
      holds exactly one separator fewer than there are parts: no separator
      follows the last part. */
  lemma {:induction false} JoinSeparators(parts: seq<string>, c: char)
    requires |parts| >= 1
    requires forall i :: 0 <= i < |parts| ==> Count(c, parts[i]) == 0
    ensures Count(c, Join(parts, [c])) == |parts| - 1
  {
    if |parts| > 1 {
      var init := parts[..|parts| - 1];
      JoinSeparators(init, c);
      CountAppend(c, Join(init, [c]), [c]);
      CountAppend(c, Join(init, [c]) + [c], parts[|parts| - 1]);
      assert Count(c, [c]) == 1 by {
        assert [c][..0] == [];
      }
    }
  }
}
