/** The handful of JavaScript built-ins whose exact behaviour the music core
    depends on: truncating `%`, `Array.prototype.indexOf`, `String.prototype.includes`,
    `toLowerCase`/`toUpperCase`, `String(n)` and `split`, plus the shape of a
    JSON value as a request handler receives it. */
module Js {

  /** `undefined` or a value. */
  datatype Option<T> = None | Some(value: T)

  /** A JSON-decoded request field. `Undefined` is a missing key; `Arr` is
      a JSON array and `Obj` any other object. */
  datatype Value = Undefined | Null | Bool(b: bool) | Num(r: real) | NonFinite | Str(s: string) | Arr(elems: seq<Value>) | Obj

  /** The remainder of a non-negative number by 12 (its pitch class), by
      repeated subtraction of an octave. */
  function Mod12(n: nat): (r: nat)
    ensures r < 12
  {
    if n < 12 then n else Mod12(n - 12)
  }

  /** `i % n` for a non-negative `i` and a positive `n` (an index into a
      cycle of length `n`), by repeated subtraction of `n`. */
  function Wrap(i: nat, n: nat): (r: nat)
    requires n > 0
    ensures r < n
  {
    if i < n then i else Wrap(i - n, n)
  }

  /** `Mod12` is the remainder of division by 12. */
  lemma {:induction false} Mod12IsRemainder(n: nat)
    ensures Mod12(n) == n % 12
  {
    if n >= 12 {
      Mod12IsRemainder(n - 12);
    }
  }

  /** JavaScript `a % 12`: the remainder takes the sign of the dividend, whereas
      Dafny's own `%` is Euclidean and never negative. */
  function Rem12(a: int): (r: int)
    ensures -12 < r < 12
    ensures a >= 0 ==> r == Mod12(a)
    ensures a < 0 ==> r == -(Mod12(-a) as int)
  {
    if a >= 0 then Mod12(a) else -(Mod12(-a) as int)
  }

  /** Both remainders agree with Dafny's on non-negative numbers and differ by
      12 on negative non-multiples of 12. */
  lemma Rem12Remainder(a: int)
    ensures a >= 0 ==> Rem12(a) == a % 12
    ensures a < 0 && Rem12(a) != 0 ==> Rem12(a) + 12 == a % 12
  {
    if a >= 0 {
      Mod12IsRemainder(a);
    } else {
      Mod12IsRemainder(-a);
    }
  }

  /** JavaScript `a % m` for a positive modulus: the remainder of the
      division truncated toward zero, so it takes the sign of `a`. */
  function Rem(a: int, m: int): (r: int)
    requires m > 0
    ensures -m < r < m
    ensures a >= 0 ==> r == a % m
    ensures a < 0 ==> r <= 0
  {
    if a >= 0 then a % m else -((-a) % m)
  }

  /** `Array.prototype.indexOf`: the first position holding `x`, or -1. */
  function IndexOf<T(==)>(s: seq<T>, x: T): (r: int)
    ensures -1 <= r < |s|
    ensures r == -1 <==> x !in s
    ensures r >= 0 ==> s[r] == x && x !in s[..r]
  {
    if |s| == 0 then -1
    else if s[0] == x then 0
    else
      var k := IndexOf(s[1..], x);
      assert s[1..][..if k < 0 then 0 else k] == s[1..1 + (if k < 0 then 0 else k)];
      if k < 0 then -1 else k + 1
  }

  /** `t` occurs in `s` starting at position `i`. */
  predicate OccursAt(s: string, i: int, t: string)
  {
    0 <= i && i + |t| <= |s| && s[i..i + |t|] == t
  }

  /** `String.prototype.startsWith`, character by character. */
  predicate StartsWith(s: string, t: string)
  {
    |t| == 0 || (|s| > 0 && s[0] == t[0] && StartsWith(s[1..], t[1..]))
  }

  /** `startsWith` holds exactly when `t` is a prefix of `s`. */
  lemma {:induction false} StartsWithMeaning(s: string, t: string)
    ensures StartsWith(s, t) <==> OccursAt(s, 0, t)
  {
    if |t| > 0 && |s| > 0 {
      StartsWithMeaning(s[1..], t[1..]);
      if s[0] == t[0] && OccursAt(s[1..], 0, t[1..]) {
        assert s[..|t|] == [s[0]] + s[1..][..|t| - 1];
        assert t == [t[0]] + t[1..];
      }
      if OccursAt(s, 0, t) {
        assert s[..|t|][0] == t[0];
        assert s[1..][..|t| - 1] == s[..|t|][1..];
      }
    }
  }

  /** `String.prototype.includes`, scanning from the left. */
  predicate Includes(s: string, t: string)
  {
    StartsWith(s, t) || (|s| > 0 && Includes(s[1..], t))
  }

  /** An occurrence after the first character is one in the tail. */
  lemma OccursInTail(s: string, t: string, i: int)
    requires |s| > 0 && i >= 1
    ensures OccursAt(s, i, t) <==> OccursAt(s[1..], i - 1, t)
  {
    if i + |t| <= |s| {
      assert s[1..][i - 1..i - 1 + |t|] == s[i..i + |t|];
    }
  }

  /** `includes` holds exactly when `t` occurs at some position of `s`. */
  lemma {:induction false} IncludesMeaning(s: string, t: string)
    ensures Includes(s, t) <==> exists i :: OccursAt(s, i, t)
  {
    StartsWithMeaning(s, t);
    if |s| > 0 && !StartsWith(s, t) {
      IncludesMeaning(s[1..], t);
      if exists i :: OccursAt(s, i, t) {
        var i :| OccursAt(s, i, t);
        assert i != 0;
        OccursInTail(s, t, i);
      }
      if exists i :: OccursAt(s[1..], i, t) {
        var i :| OccursAt(s[1..], i, t);
        OccursInTail(s, t, i + 1);
      }
    } else if |s| == 0 && !StartsWith(s, t) {
      assert forall i :: !OccursAt(s, i, t);
    }
  }

  /** A string that contains the first character of `t` nowhere does not
      include `t`. */
  lemma IncludesNeedsFirst(s: string, t: string)
    requires |t| > 0 && forall k :: 0 <= k < |s| ==> s[k] != t[0]
    ensures !Includes(s, t)
  {
    IncludesMeaning(s, t);
    forall i | 0 <= i && i + |t| <= |s|
      ensures !OccursAt(s, i, t)
    {
      assert s[i..i + |t|][0] == s[i] != t[0];
    }
  }

  /** An occurrence at a known position makes `includes` hold. */
  lemma IncludesAt(s: string, t: string, i: int)
    requires OccursAt(s, i, t)
    ensures Includes(s, t)
  {
    IncludesMeaning(s, t);
  }

  predicate IsAsciiLower(c: char) { 'a' <= c <= 'z' }

  predicate IsAsciiUpper(c: char) { 'A' <= c <= 'Z' }

  predicate IsDigit(c: char) { '0' <= c <= '9' }

  /** Upper-case Latin-1 letters that `toLowerCase` maps 32 code points down. */
  predicate IsLatinUpper(c: char)
  {
    IsAsciiUpper(c) || ('\U{C0}' <= c <= '\U{DE}' && c != '\U{D7}')
  }

  function LowerChar(c: char): char
  {
    if IsLatinUpper(c) then (c as int + 32) as char else c
  }

  /** `toLowerCase`, on the ASCII and Latin-1 letters. */
  function ToLower(s: string): (r: string)
    ensures |r| == |s|
    ensures forall i :: 0 <= i < |s| ==> r[i] == LowerChar(s[i])
  {
    seq(|s|, i requires 0 <= i < |s| => LowerChar(s[i]))
  }

  function UpperChar(c: char): char
  {
    if IsAsciiLower(c) then (c as int - 32) as char else c
  }

  /** `toUpperCase`, on the ASCII letters. */
  function ToUpper(s: string): (r: string)
    ensures |r| == |s|
    ensures forall i :: 0 <= i < |s| ==> r[i] == UpperChar(s[i])
  {
    seq(|s|, i requires 0 <= i < |s| => UpperChar(s[i]))
  }

  lemma ToUpperIdempotent(s: string)
    ensures ToUpper(ToUpper(s)) == ToUpper(s)
  {
    var u := ToUpper(s);
    forall i | 0 <= i < |s| ensures ToUpper(u)[i] == u[i] {
      assert !IsAsciiLower(u[i]);
    }
  }

  /** No character that `toLowerCase` produces is an upper-case Latin-1 letter. */
  lemma ToLowerHasNoUpper(s: string, i: int)
    requires 0 <= i < |s|
    ensures !IsLatinUpper(ToLower(s)[i])
  {
  }

  function DigitChar(d: int): (c: char)
    requires 0 <= d < 10
    ensures IsDigit(c)
  {
    ('0' as int + d) as char
  }

  /** `String(n)` for a non-negative integer: its decimal digits. */
  function NatToString(n: nat): (r: string)
    ensures 1 <= |r|
    ensures forall i :: 0 <= i < |r| ==> IsDigit(r[i])
    ensures n < 10 <==> |r| == 1
    ensures r[|r| - 1] == DigitChar(n % 10)
  {
    if n < 10 then [DigitChar(n)] else NatToString(n / 10) + [DigitChar(n % 10)]
  }

  /** `String(n)` for any integer. */
  function IntToString(n: int): (r: string)
    ensures 1 <= |r|
    ensures n >= 0 ==> r == NatToString(n)
    ensures n < 0 ==> r[0] == '-' && r[1..] == NatToString(-n)
  {
    if n < 0 then "-" + NatToString(-n) else NatToString(n)
  }

  /** Two-digit numbers print as their tens digit followed by their units digit. */
  lemma {:induction false} TwoDigits(n: nat)
    requires 10 <= n < 100
    ensures NatToString(n) == [DigitChar(n / 10), DigitChar(n % 10)]
  {
    assert NatToString(n / 10) == [DigitChar(n / 10)];
  }

  function DigitOf(c: char): (d: nat)
    requires IsDigit(c)
    ensures d < 10
  {
    c as int - '0' as int
  }

  /** The value of a string of decimal digits. */
  function DigitsValue(s: string): (v: nat)
    requires forall i :: 0 <= i < |s| ==> IsDigit(s[i])
  {
    if |s| == 0 then 0 else 10 * DigitsValue(s[..|s| - 1]) + DigitOf(s[|s| - 1])
  }

  /** Printing then reading back a number gives the number. */
  lemma {:induction false} DigitsValueOfNatToString(n: nat)
    ensures DigitsValue(NatToString(n)) == n
  {
    var r := NatToString(n);
    if n >= 10 {
      DigitsValueOfNatToString(n / 10);
      assert r[..|r| - 1] == NatToString(n / 10);
    }
  }

  /** The number of occurrences of `c` in `s`. */
  function Count(s: string, c: char): nat
  {
    if |s| == 0 then 0 else (if s[0] == c then 1 else 0) + Count(s[1..], c)
  }

  /** `s.split(sep)` for a one-character separator. */
  function Split(s: string, sep: char): (r: seq<string>)
    ensures |r| == Count(s, sep) + 1
    ensures forall k, i :: 0 <= k < |r| && 0 <= i < |r[k]| ==> r[k][i] != sep
  {
    if |s| == 0 then [""]
    else if s[0] == sep then [""] + Split(s[1..], sep)
    else
      var rest := Split(s[1..], sep);
      [[s[0]] + rest[0]] + rest[1..]
  }

  /** Joining the pieces of a split with the separator gives back the string. */
  lemma {:induction false} SplitJoin(s: string, sep: char)
    ensures Join(Split(s, sep), sep) == s
  {
    if |s| > 0 {
      SplitJoin(s[1..], sep);
      var rest := Split(s[1..], sep);
      if s[0] != sep {
        JoinHead(rest, sep, s[0]);
      }
    }
  }

  /** `xs.join(sep)`. */
  function Join(xs: seq<string>, sep: char): string
  {
    if |xs| == 0 then "" else if |xs| == 1 then xs[0] else xs[0] + [sep] + Join(xs[1..], sep)
  }

  lemma JoinHead(xs: seq<string>, sep: char, c: char)
    requires |xs| >= 1
    ensures Join([[c] + xs[0]] + xs[1..], sep) == [c] + Join(xs, sep)
  {
    var ys := [[c] + xs[0]] + xs[1..];
    assert ys[1..] == xs[1..];
  }
  /** `s` does not contain `sep`. */
  predicate FreeOf(s: string, sep: char)
  {
    forall i :: 0 <= i < |s| ==> s[i] != sep
  }

  lemma {:induction false} SplitFree(a: string, sep: char)
    requires FreeOf(a, sep)
    ensures Split(a, sep) == [a]
  {
    if |a| > 0 {
      SplitFree(a[1..], sep);
      assert [a[0]] + a[1..] == a;
    }
  }

  lemma {:induction false} SplitPiece(a: string, sep: char, b: string)
    requires FreeOf(a, sep)
    ensures Split(a + [sep] + b, sep) == [a] + Split(b, sep)
  {
    var s := a + [sep] + b;
    if |a| == 0 {
      assert s[1..] == b;
    } else {
      SplitPiece(a[1..], sep, b);
      assert s[1..] == a[1..] + [sep] + b;
      assert [a[0]] + a[1..] == a;
    }
  }

  /** Splitting a join of separator-free pieces gives back the pieces. */
  lemma {:induction false} JoinSplit(xs: seq<string>, sep: char)
    requires |xs| >= 1
    requires forall k :: 0 <= k < |xs| ==> FreeOf(xs[k], sep)
    ensures Split(Join(xs, sep), sep) == xs
  {
    if |xs| == 1 {
      SplitFree(xs[0], sep);
    } else {
      JoinSplit(xs[1..], sep);
      SplitPiece(xs[0], sep, Join(xs[1..], sep));
    }
  }

  /** `Math.ceil`. */
  function Ceil(x: real): (r: int)
    ensures x <= r as real < x + 1.0
  {
    -((-x).Floor)
  }

  /** The integer part of a number, rounding toward zero, as `slice` reads
      its bounds. */
  function Trunc(x: real): (r: int)
    ensures x >= 0.0 ==> r == x.Floor
    ensures x < 0.0 ==> r == -((-x).Floor)
  {
    if x >= 0.0 then x.Floor else -((-x).Floor)
  }

  /** `Array.prototype.slice(0, end)`: a negative end counts back from the
      end of the array, a fractional one is truncated toward zero. */
  function SliceTo<T>(s: seq<T>, end: real): (r: seq<T>)
    ensures end >= 0.0 ==> r == s[..if end.Floor < |s| then end.Floor else |s|]
    ensures -1.0 < end < 0.0 ==> r == []
    ensures end <= -1.0 ==> r == s[..if |s| + Trunc(end) > 0 then |s| + Trunc(end) else 0]
  {
    var e := Trunc(end);
    if e < 0 then s[..if |s| + e > 0 then |s| + e else 0]
    else s[..if e < |s| then e else |s|]
  }
}
