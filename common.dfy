/**
 * Small value-level helpers shared by the backend and the storefront models:
 * an Option type, JavaScript numbers as the storefront sees them, decimal
 * rendering of counters, `String.prototype.split` on one character and the
 * MongoDB ObjectId syntax check.
 */
module Common {

  datatype Option<+T> = None | Some(value: T)

  /** A JavaScript string value that is present and non-empty, i.e. truthy. */
  predicate Truthy(s: Option<string>) {
    s.Some? && s.value != ""
  }

  /** `s || fallback` on an optional string. */
  function OrElse(s: Option<string>, fallback: string): (t: string)
    ensures Truthy(s) ==> t == s.value
    ensures !Truthy(s) ==> t == fallback
  {
    if Truthy(s) then s.value else fallback
  }

  /** A JavaScript number as far as the storefront cares: an integer or NaN
      (what `Number("abc")` yields). Fractions are not modelled. */
  datatype JsNum = Num(n: int) | NaN

  /** `x || 0` for a number: NaN and 0 are falsy and both become 0. */
  function OrZero(x: JsNum): (r: int)
    ensures x.Num? ==> r == x.n
    ensures x.NaN? ==> r == 0
  {
    if x.Num? then x.n else 0
  }

  /** JavaScript `+` on numbers: NaN is absorbing. */
  function AddNum(a: JsNum, b: JsNum): (r: JsNum)
    ensures r.Num? <==> a.Num? && b.Num?
    ensures r.Num? ==> r.n == a.n + b.n
  {
    if a.Num? && b.Num? then Num(a.n + b.n) else NaN
  }

  // ---------------------------------------------------------------------
  // Decimal rendering (template literals `${n}` on a non-negative integer)
  // ---------------------------------------------------------------------

  predicate IsDigit(c: char) { '0' <= c <= '9' }

  function DigitChar(d: nat): (c: char)
    requires d < 10
    ensures IsDigit(c) && (c as int) - ('0' as int) == d
  {
    (('0' as int) + d) as char
  }

  /** The decimal digits of `n`, most significant first, without leading zeros. */
  function NatToString(n: nat): (s: string)
    ensures |s| >= 1
    ensures forall i :: 0 <= i < |s| ==> IsDigit(s[i])
    ensures |s| > 1 ==> s[0] != '0'
    decreases n
  {
    if n < 10 then [DigitChar(n)] else NatToString(n / 10) + [DigitChar(n % 10)]
  }

  function DigitValue(c: char): (d: nat)
    requires IsDigit(c)
    ensures d < 10
  {
    (c as int) - ('0' as int)
  }

  /** Reading a digit string back as a number. */
  function ParseNat(s: string): nat
    requires forall i :: 0 <= i < |s| ==> IsDigit(s[i])
    decreases |s|
  {
    if s == [] then 0
    else ParseNat(s[..|s| - 1]) * 10 + DigitValue(s[|s| - 1])
  }

  /** Rendering a counter loses nothing: the text reads back as the counter. */
  lemma {:induction false} ParseNatToString(n: nat)
    ensures ParseNat(NatToString(n)) == n
    decreases n
  {
    var s := NatToString(n);
    if n >= 10 {
      ParseNatToString(n / 10);
      assert s[..|s| - 1] == NatToString(n / 10);
    }
  }

  /** Different counters render differently. */
  lemma NatToStringInjective(m: nat, n: nat)
    requires NatToString(m) == NatToString(n)
    ensures m == n
  {
    ParseNatToString(m);
    ParseNatToString(n);
  }

  // ---------------------------------------------------------------------
  // `s.split(c)` for a one-character separator
  // ---------------------------------------------------------------------

  /** Position of the first `c` in `s`. */
  function IndexOf(s: string, c: char): (i: nat)
    requires c in s
    ensures i < |s| && s[i] == c && c !in s[..i]
  {
    if s[0] == c then 0 else assert c in s[1..]; 1 + IndexOf(s[1..], c)
  }

  /** JavaScript `s.split(c)`: the maximal `c`-free pieces between separators,
      empty pieces included, so that there is always at least one piece. */
  function Split(s: string, c: char): (parts: seq<string>)
    ensures |parts| >= 1
    ensures forall k :: 0 <= k < |parts| ==> c !in parts[k]
    decreases |s|
  {
    if c !in s then [s]
    else
      var i := IndexOf(s, c);
      [s[..i]] + Split(s[i + 1..], c)
  }

  /** `parts.join(c)`. */
  function Join(parts: seq<string>, c: char): string
    requires |parts| >= 1
  {
    if |parts| == 1 then parts[0] else parts[0] + [c] + Join(parts[1..], c)
  }

  /** Splitting loses nothing: joining the pieces gives the text back. */
  lemma {:induction false} JoinSplit(s: string, c: char)
    ensures Join(Split(s, c), c) == s
    decreases |s|
  {
    if c in s {
      var i := IndexOf(s, c);
      JoinSplit(s[i + 1..], c);
      assert s == s[..i] + [c] + s[i + 1..];
    }
  }

  /** A separator-free word followed by the separator is always the first piece. */
  lemma SplitAfterWord(w: string, c: char, t: string)
    requires c !in w
    ensures Split(w + [c] + t, c) == [w] + Split(t, c)
  {
    var s := w + [c] + t;
    assert s[|w|] == c;
    var i := IndexOf(s, c);
    assert i == |w| by {
      assert forall k :: 0 <= k < |w| ==> s[k] == w[k];
    }
    assert s[..i] == w;
    assert s[i + 1..] == t;
  }

  // ---------------------------------------------------------------------
  // MongoDB ObjectId syntax
  // ---------------------------------------------------------------------

  /** A digit of the lower-case hexadecimal form MongoDB gives every ObjectId. */
  predicate IsHexDigit(c: char) {
    ('0' <= c <= '9') || ('a' <= c <= 'f')
  }

  /** The strings `new ObjectId(s)` and `ObjectId.isValid(s)` accept, in the
      lower-case form every stored id and every token id has: 24 hex digits. */
  predicate IsObjectId(s: string) {
    |s| == 24 && forall i :: 0 <= i < |s| ==> IsHexDigit(s[i])
  }
  // ---------------------------------------------------------------------
  // Rows of lit marks (stars, progress steps)
  // ---------------------------------------------------------------------

  /** `count` marks, numbered from 1, where mark `k` is lit when `k <= level`. */
  function LitMarks(count: nat, level: int): (marks: seq<bool>)
    ensures |marks| == count
    ensures forall i :: 0 <= i < count ==> (marks[i] <==> i + 1 <= level)
  {
    seq(count, i requires 0 <= i < count => i + 1 <= level)
  }

  function CountLit(marks: seq<bool>): nat {
    if marks == [] then 0 else (if marks[0] then 1 else 0) + CountLit(marks[1..])
  }

  lemma {:induction false} CountLitConcat(a: seq<bool>, b: seq<bool>)
    ensures CountLit(a + b) == CountLit(a) + CountLit(b)
  {
    if a != [] {
      CountLitConcat(a[1..], b);
      assert (a + b)[0] == a[0];
      assert (a + b)[1..] == a[1..] + b;
    } else {
      assert a + b == b;
    }
  }

  lemma {:induction false} CountLitAll(a: seq<bool>, v: bool)
    requires forall i :: 0 <= i < |a| ==> a[i] == v
    ensures CountLit(a) == if v then |a| else 0
  {
    if a != [] {
      CountLitAll(a[1..], v);
    }
  }

  /** The lit marks form a prefix whose length is `level` clamped to `0..count`. */
  lemma LitMarksCount(count: nat, level: int)
    ensures CountLit(LitMarks(count, level)) == if level <= 0 then 0 else if level >= count then count else level
  {
    var m := LitMarks(count, level);
    var k := if level <= 0 then 0 else if level >= count then count else level;
    assert m == m[..k] + m[k..];
    CountLitAll(m[..k], true);
    CountLitAll(m[k..], false);
    CountLitConcat(m[..k], m[k..]);
  }
}
