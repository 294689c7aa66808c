/** String operations the source takes from JavaScript's `String.prototype`, restricted to
    ASCII: `toLowerCase`, `trim`, `includes`, and the global `parseInt` in base ten. */
module Text {
  import opened Wrappers

  function LowerChar(c: char): char
  {
    if 'A' <= c <= 'Z' then (c as int + 32) as char else c
  }

  /** `s.toLowerCase()` on ASCII letters; every other character is kept. */
  function Lower(s: string): (r: string)
    ensures |r| == |s|
    ensures forall i :: 0 <= i < |s| ==> r[i] == LowerChar(s[i])
  {
    if s == [] then [] else [LowerChar(s[0])] + Lower(s[1..])
  }

  /** The white-space characters `trim` and `parseInt` skip (the ASCII ones). */
  predicate IsSpace(c: char)
  {
    c == ' ' || c == '\t' || c == '\n' || c == '\r' || c == '\U{B}' || c == '\U{C}'
  }

  /** How many white-space characters `s` starts with. */
  function LeadingSpaces(s: string): (k: nat)
    ensures k <= |s|
    ensures forall i :: 0 <= i < k ==> IsSpace(s[i])
    ensures k < |s| ==> !IsSpace(s[k])
  {
    if s != [] && IsSpace(s[0]) then 1 + LeadingSpaces(s[1..]) else 0
  }

  /** Where the white space that `s` ends with begins. */
  function TrailingSpacesStart(s: string): (k: nat)
    ensures k <= |s|
    ensures forall i :: k <= i < |s| ==> IsSpace(s[i])
    ensures 0 < k ==> !IsSpace(s[k - 1])
  {
    if s != [] && IsSpace(s[|s| - 1]) then TrailingSpacesStart(s[..|s| - 1]) else |s|
  }

  /** `s.trimStart()`. */
  function TrimStart(s: string): string
  {
    s[LeadingSpaces(s)..]
  }

  /** `s.trim()`: a slice of `s` that neither starts nor ends with white space, all that was
      cut off being white space. */
  function Trim(s: string): (r: string)
    ensures exists i, j :: 0 <= i <= j <= |s| && r == s[i..j]
                        && (forall k :: 0 <= k < i ==> IsSpace(s[k]))
                        && (forall k :: j <= k < |s| ==> IsSpace(s[k]))
    ensures r != [] ==> !IsSpace(r[0]) && !IsSpace(r[|r| - 1])
  {
    var i := LeadingSpaces(s);
    var t := s[i..];
    var j := TrailingSpacesStart(t);
    var r := t[..j];
    assert r == s[i..i + j];
    assert forall k :: i + j <= k < |s| ==> IsSpace(s[k]) by {
      forall k | i + j <= k < |s| ensures IsSpace(s[k]) {
        assert s[k] == t[k - i];
      }
    }
    assert r != [] ==> r[0] == t[0] && r[|r| - 1] == t[j - 1];
    r
  }

  /** `s.includes(sub)`: `sub` occurs in `s` as a contiguous block. */
  predicate Contains(s: string, sub: string)
  {
    sub <= s || (s != [] && Contains(s[1..], sub))
  }

  /** Number of occurrences of `c` in `s`. */
  function CountChar(s: string, c: char): nat
  {
    if s == [] then 0 else CountChar(s[..|s| - 1], c) + (if s[|s| - 1] == c then 1 else 0)
  }

  lemma {:induction false} CountCharAppend(a: string, b: string, c: char)
    ensures CountChar(a + b, c) == CountChar(a, c) + CountChar(b, c)
  {
    if b == [] {
      assert a + b == a;
    } else {
      assert (a + b)[..|a + b| - 1] == a + b[..|b| - 1];
      CountCharAppend(a, b[..|b| - 1], c);
    }
  }

  lemma {:induction false} CountCharAbsent(s: string, c: char)
    requires forall i :: 0 <= i < |s| ==> s[i] != c
    ensures CountChar(s, c) == 0
  {
    if s != [] {
      CountCharAbsent(s[..|s| - 1], c);
    }
  }

  lemma CountAroundOne(a: string, c: char, b: string)
    ensures CountChar(a + [c] + b, c) == CountChar(a, c) + 1 + CountChar(b, c)
  {
    CountCharAppend(a + [c], b, c);
    CountCharAppend(a, [c], c);
  }

  /** A text holding `c` at position `p` only holds it once. */
  lemma CountOnceAt(s: string, c: char, p: int)
    requires 0 <= p < |s| && s[p] == c
    requires forall i :: 0 <= i < |s| && i != p ==> s[i] != c
    ensures CountChar(s, c) == 1
  {
    assert s == s[..p] + [c] + s[p + 1..];
    CountAroundOne(s[..p], c, s[p + 1..]);
    CountCharAbsent(s[..p], c);
    CountCharAbsent(s[p + 1..], c);
  }

  lemma CountTwiceAt(s: string, c: char, p: int, q: int)
    requires 0 <= p < q < |s| && s[p] == c && s[q] == c
    requires forall i :: 0 <= i < |s| && i != p && i != q ==> s[i] != c
    ensures CountChar(s, c) == 2
  {
    assert s == s[..q] + [c] + s[q + 1..];
    CountAroundOne(s[..q], c, s[q + 1..]);
    CountOnceAt(s[..q], c, p);
    CountCharAbsent(s[q + 1..], c);
  }

  predicate IsDigit(c: char) { '0' <= c <= '9' }

  /** The longest prefix of `s` made of decimal digits. */
  function LeadingDigits(s: string): (r: string)
    ensures r <= s
    ensures forall i :: 0 <= i < |r| ==> IsDigit(r[i])
    ensures |r| < |s| ==> !IsDigit(s[|r|])
  {
    if s != [] && IsDigit(s[0]) then [s[0]] + LeadingDigits(s[1..]) else []
  }

  function DigitsValue(d: string): nat
    requires forall i :: 0 <= i < |d| ==> IsDigit(d[i])
  {
    if d == [] then 0
    else
      assert IsDigit(d[|d| - 1]);
      10 * DigitsValue(d[..|d| - 1]) + (d[|d| - 1] as int - '0' as int)
  }

  /** `parseInt(s)` in base ten: leading white space is skipped, an optional sign is read, then
      the longest run of digits; no digit at all gives `NaN`, which is `None` here. */
  function ParseInt(s: string): Option<int>
  {
    var t := TrimStart(s);
    var signed := t != [] && (t[0] == '-' || t[0] == '+');
    var d := LeadingDigits(if signed then t[1..] else t);
    if d == [] then None
    else
      var v: int := DigitsValue(d);
      if signed && t[0] == '-' then Some(-v) else Some(v)
  }

  function DigitsOf(n: nat): (r: string)
    ensures r != [] && forall i :: 0 <= i < |r| ==> IsDigit(r[i])
    ensures DigitsValue(r) == n
  {
    if n < 10 then [('0' as int + n) as char]
    else
      var r := DigitsOf(n / 10) + [('0' as int + n % 10) as char];
      assert r[..|r| - 1] == DigitsOf(n / 10);
      r
  }

  /** `String(n)` for an integer `n`. */
  function NumberText(n: int): string
  {
    if n < 0 then "-" + DigitsOf(-n) else DigitsOf(n)
  }

  lemma {:induction false} LeadingDigitsAll(d: string)
    requires forall i :: 0 <= i < |d| ==> IsDigit(d[i])
    ensures LeadingDigits(d) == d
  {
    if d != [] {
      LeadingDigitsAll(d[1..]);
    }
  }

  lemma TrimStartNoSpace(s: string)
    requires s != [] && !IsSpace(s[0])
    ensures TrimStart(s) == s
  {
  }

  /** `parseInt` reads back what `String` writes for an integer. */
  lemma ParseIntNumberText(n: int)
    ensures ParseInt(NumberText(n)) == Some(n)
  {
    var s := NumberText(n);
    if n < 0 {
      var d := DigitsOf(-n);
      assert s == "-" + d && s[0] == '-' && s[1..] == d;
      TrimStartNoSpace(s);
      LeadingDigitsAll(d);
    } else {
      var d := DigitsOf(n);
      assert s == d && IsDigit(s[0]);
      TrimStartNoSpace(s);
      LeadingDigitsAll(d);
    }
  }
}
