/** Character classes and string helpers shared by the chatbot model.
    Python's string primitives (`str.isspace`, regex `\s` and `\w`, `lower`,
    `strip`, slicing, `in`, `join`, `str(int)`, `:.2f`) are given here as
    ordinary Dafny functions. */
module Text {
  import opened Outcomes

  /** Python's whitespace: `str.isspace()`, also what the regex class `\s`
      and `str.split()` use for str patterns. */
  predicate IsSpace(c: char) {
    || '\t' <= c <= '\r'           // \t \n \v \f \r
    || '\U{1C}' <= c <= ' '        // the four separators \x1c..\x1f and space
    || c == '\U{85}' || c == '\U{A0}' || c == '\U{1680}'
    || '\U{2000}' <= c <= '\U{200A}'
    || c == '\U{2028}' || c == '\U{2029}' || c == '\U{202F}' || c == '\U{205F}' || c == '\U{3000}'
  }

  /** The regex class `\w` on str patterns, restricted to ASCII and Latin-1:
      letters, digits, underscore, and the Latin-1 letters and numerals. */
  predicate IsWordChar(c: char) {
    || 'a' <= c <= 'z' || 'A' <= c <= 'Z' || '0' <= c <= '9' || c == '_'
    || c == '\U{AA}' || c == '\U{B2}' || c == '\U{B3}' || c == '\U{B5}' || c == '\U{B9}' || c == '\U{BA}'
    || '\U{BC}' <= c <= '\U{BE}'
    || '\U{C0}' <= c <= '\U{D6}' || '\U{D8}' <= c <= '\U{F6}' || '\U{F8}' <= c <= '\U{FF}'
  }

  predicate IsDigit(c: char) { '0' <= c <= '9' }

  function DigitChar(d: nat): char
    requires d < 10
  {
    "0123456789"[d]
  }

  function DigitValue(c: char): nat
    requires IsDigit(c)
  {
    c as int - '0' as int
  }

  /** `str.lower()` on one character (ASCII and Latin-1 capitals). */
  function LowerChar(c: char): char {
    if 'A' <= c <= 'Z' || '\U{C0}' <= c <= '\U{D6}' || '\U{D8}' <= c <= '\U{DE}'
    then (c as int + 32) as char
    else c
  }

  function Lower(s: string): (r: string)
    ensures |r| == |s|
    ensures forall i :: 0 <= i < |s| ==> r[i] == LowerChar(s[i])
  {
    seq(|s|, i requires 0 <= i < |s| => LowerChar(s[i]))
  }

  /** Lower-casing leaves lower-case letters and digits as they are. */
  lemma LowerFixed(s: string)
    requires forall i :: 0 <= i < |s| ==> 'a' <= s[i] <= 'z' || '0' <= s[i] <= '9'
    ensures Lower(s) == s
  {
    assert forall i :: 0 <= i < |s| ==> Lower(s)[i] == s[i];
  }

  lemma LowerConcat(a: string, b: string)
    ensures Lower(a + b) == Lower(a) + Lower(b)
  {
    assert forall i :: 0 <= i < |a + b| ==> Lower(a + b)[i] == (Lower(a) + Lower(b))[i];
  }

  /** Python's `sub in s`. */
  predicate Contains(s: string, sub: string)
    decreases |s|
  {
    if |sub| > |s| then false
    else s[..|sub|] == sub || (|s| > 0 && Contains(s[1..], sub))
  }

  /** `sub in s` holds exactly when `sub` occurs at some offset of `s`. */
  lemma {:induction false} ContainsAt(s: string, sub: string, k: nat)
    requires k + |sub| <= |s| && s[k..k + |sub|] == sub
    ensures Contains(s, sub)
    decreases k
  {
    if k > 0 {
      assert s[1..][k - 1..k - 1 + |sub|] == s[k..k + |sub|];
      ContainsAt(s[1..], sub, k - 1);
    }
  }

  lemma {:induction false} ContainsWitness(s: string, sub: string) returns (k: nat)
    requires Contains(s, sub)
    ensures k + |sub| <= |s| && s[k..k + |sub|] == sub
    decreases |s|
  {
    if s[..|sub|] == sub {
      k := 0;
    } else {
      var j := ContainsWitness(s[1..], sub);
      assert s[1..][j..j + |sub|] == s[1 + j..1 + j + |sub|];
      k := j + 1;
    }
  }

  /** Whatever occurs in the middle of a concatenation occurs in the whole. */
  lemma ContainsInside(a: string, b: string, c: string, sub: string)
    requires Contains(b, sub)
    ensures Contains(a + b + c, sub)
  {
    var k := ContainsWitness(b, sub);
    assert (a + b + c)[|a| + k..|a| + k + |sub|] == b[k..k + |sub|];
    ContainsAt(a + b + c, sub, |a| + k);
  }

  /** What occurs in an occurrence occurs in the whole. */
  lemma ContainsTransitive(s: string, mid: string, sub: string)
    requires Contains(s, mid) && Contains(mid, sub)
    ensures Contains(s, sub)
  {
    var k := ContainsWitness(s, mid);
    var j := ContainsWitness(mid, sub);
    forall x | 0 <= x < |sub|
      ensures s[k + j + x] == sub[x]
    {
      assert s[k..k + |mid|][j + x] == mid[j + x];
      assert mid[j..j + |sub|][x] == sub[x];
    }
    assert s[k + j..k + j + |sub|] == sub;
    ContainsAt(s, sub, k + j);
  }

  /** `middle` between `head` and `tail`: whatever surrounds it, the middle
      is still there. */
  function Between(head: string, middle: string, tail: string): (r: string)
    ensures Contains(r, middle)
  {
    ContainsSelf(middle);
    ContainsInside(head, middle, tail, middle);
    head + middle + tail
  }

  /** The head of a `Between` is in it too. */
  lemma BetweenContainsHead(head: string, middle: string, tail: string)
    ensures Contains(Between(head, middle, tail), head)
  {
    assert Between(head, middle, tail)[..|head|] == head;
  }

  /** Python's `s[:n]`. */
  function Take(s: string, n: nat): (r: string)
    ensures |r| <= n && r <= s
    ensures |s| <= n ==> r == s
    ensures |s| > n ==> |r| == n
  {
    if |s| <= n then s else s[..n]
  }

  function TrimStart(s: string): (r: string)
    ensures r == [] || !IsSpace(r[0])
    ensures |r| <= |s| && r == s[|s| - |r|..]
  {
    if s != [] && IsSpace(s[0]) then TrimStart(s[1..]) else s
  }

  function TrimEnd(s: string): (r: string)
    ensures r == [] || !IsSpace(r[|r| - 1])
    ensures r <= s
  {
    if s != [] && IsSpace(s[|s| - 1]) then TrimEnd(s[..|s| - 1]) else s
  }

  /** Python's `str.strip()`. */
  function Strip(s: string): (r: string)
    ensures r == [] || (!IsSpace(r[0]) && !IsSpace(r[|r| - 1]))
  {
    TrimEnd(TrimStart(s))
  }

  /** Stripping keeps only characters of the string. */
  lemma StripChars(s: string)
    ensures forall c :: c in Strip(s) ==> c in s
  {
    var u := TrimStart(s);
    forall c | c in Strip(s)
      ensures c in s
    {
      assert c in u;
      var k :| 0 <= k < |u| && u[k] == c;
      assert s[|s| - |u| + k] == c;
    }
  }

  /** `s.strip()` is empty exactly when every character of `s` is whitespace. */
  lemma {:induction false} StripEmpty(s: string)
    ensures Strip(s) == [] <==> forall i :: 0 <= i < |s| ==> IsSpace(s[i])
    decreases |s|
  {
    if s != [] && IsSpace(s[0]) {
      StripEmpty(s[1..]);
      assert forall i :: 1 <= i < |s| ==> s[i] == s[1..][i - 1];
    } else if s != [] {
      assert TrimStart(s) == s;
      TrimEndEmpty(s);
    }
  }

  lemma {:induction false} TrimEndEmpty(s: string)
    requires s != [] && !IsSpace(s[0])
    ensures TrimEnd(s) != []
    decreases |s|
  {
    if IsSpace(s[|s| - 1]) {
      TrimEndEmpty(s[..|s| - 1]);
    }
  }

  /** `sep.join(parts)`. */
  function JoinWith(parts: seq<string>, sep: string): string {
    if parts == [] then ""
    else if |parts| == 1 then parts[0]
    else parts[0] + sep + JoinWith(parts[1..], sep)
  }

  /** `str(n)` for a natural number. */
  function NatToString(n: nat): (r: string)
    ensures |r| > 0
    ensures forall i :: 0 <= i < |r| ==> IsDigit(r[i])
  {
    if n < 10 then [DigitChar(n)] else NatToString(n / 10) + [DigitChar(n % 10)]
  }

  /** `str(i)` for an integer. */
  function IntToString(i: int): string {
    if i < 0 then "-" + NatToString(-i) else NatToString(i)
  }

  /** The value of a run of decimal digits, most significant first. */
  function DigitsValue(ds: string): nat
    requires forall i :: 0 <= i < |ds| ==> IsDigit(ds[i])
  {
    if ds == [] then 0 else DigitsValue(ds[..|ds| - 1]) * 10 + DigitValue(ds[|ds| - 1])
  }

  /** Decimal digits, optionally grouped by single underscores between
      digits (`1_000`). */
  predicate GroupedDigits(s: string) {
    && s != [] && IsDigit(s[0])
    && (forall i :: 0 <= i < |s| ==> IsDigit(s[i]) || s[i] == '_')
    && (forall i :: 0 <= i < |s| && s[i] == '_' ==> i + 1 < |s| && IsDigit(s[i + 1]))
  }

  function DropUnderscores(s: string): (r: string)
    ensures forall i :: 0 <= i < |r| ==> r[i] != '_'
    ensures (forall i :: 0 <= i < |s| ==> IsDigit(s[i]) || s[i] == '_') ==>
      forall i :: 0 <= i < |r| ==> IsDigit(r[i])
  {
    if s == [] then []
    else DropUnderscores(s[..|s| - 1]) + (if s[|s| - 1] == '_' then [] else [s[|s| - 1]])
  }

  /** Grouped digits as a number; `None` for anything else. */
  function ParseDigits(body: string): Option<nat> {
    if !GroupedDigits(body) then None
    else Some(DigitsValue(DropUnderscores(body)))
  }

  /** A number with at most one leading sign. */
  function ParseSigned(t: string): Option<int> {
    if t == [] then None
    else
      var body := if t[0] == '-' || t[0] == '+' then t[1..] else t;
      match ParseDigits(body)
      case None => None
      case Some(n) => Some(if t[0] == '-' then 0 - n else n)
  }

  /** `int(s)` for a string: surrounding whitespace is ignored, one sign is
      allowed, and the rest must be grouped decimal digits; anything else
      raises `ValueError`, here `None`. */
  function ParseInt(s: string): (r: Option<int>)
    ensures r.Some? ==> Strip(s) != []
  {
    ParseSigned(Strip(s))
  }

  lemma DigitRoundTrip(d: nat)
    requires d < 10
    ensures IsDigit(DigitChar(d)) && DigitValue(DigitChar(d)) == d
  {
  }

  lemma {:induction false} NatToStringValue(n: nat)
    ensures DigitsValue(NatToString(n)) == n
  {
    if n >= 10 {
      NatToStringValue(n / 10);
      var r := NatToString(n);
      assert r[..|r| - 1] == NatToString(n / 10);
      DigitRoundTrip(n % 10);
    } else {
      DigitRoundTrip(n);
    }
  }

  lemma {:induction false} DropUnderscoresOfDigits(s: string)
    requires forall i :: 0 <= i < |s| ==> IsDigit(s[i])
    ensures DropUnderscores(s) == s
  {
    if s != [] {
      DropUnderscoresOfDigits(s[..|s| - 1]);
      assert s[..|s| - 1] + [s[|s| - 1]] == s;
    }
  }

  lemma StripKeeps(s: string)
    requires s != [] && !IsSpace(s[0]) && !IsSpace(s[|s| - 1])
    ensures Strip(s) == s
  {
  }

  lemma ParseDigitsOfNat(n: nat)
    ensures ParseDigits(NatToString(n)) == Some(n)
  {
    NatToStringValue(n);
    DropUnderscoresOfDigits(NatToString(n));
  }

  lemma IntToStringStripped(i: int)
    ensures Strip(IntToString(i)) == IntToString(i)
  {
    var s := IntToString(i);
    var digits := NatToString(if i < 0 then -i else i);
    assert s[|s| - 1] == digits[|digits| - 1];
    assert !IsSpace(s[0]) && !IsSpace(s[|s| - 1]);
    StripKeeps(s);
  }

  /** `int(str(i)) == i`. */
  lemma ParseIntRoundTrip(i: int)
    ensures ParseInt(IntToString(i)) == Some(i)
  {
    IntToStringStripped(i);
    ParseSignedRoundTrip(i);
  }

  lemma ParseSignedRoundTrip(i: int)
    ensures ParseSigned(IntToString(i)) == Some(i)
  {
    var n: nat := if i < 0 then -i else i;
    var d := NatToString(n);
    ParseDigitsOfNat(n);
    ParseSignedDigits(d, n);
    assert IntToString(i) == if i < 0 then "-" + d else d;
  }

  /** Digits read as themselves, and after a minus sign as their negation. */
  lemma ParseSignedDigits(d: string, n: nat)
    requires ParseDigits(d) == Some(n) && IsDigit(d[0])
    ensures ParseSigned(d) == Some(n) && ParseSigned("-" + d) == Some(0 - n)
  {
    assert ("-" + d)[1..] == d;
  }

  /** Round half to even, on a non-negative real. */
  function RoundHalfEven(y: real): nat
    requires y >= 0.0
  {
    var f := y.Floor;
    var d := y - f as real;
    if d > 0.5 || (d == 0.5 && f % 2 == 1) then f + 1 else f
  }

  /** `f"{x:.2f}"`, taken on the exact value of `x`. */
  function FormatFixed2(x: real): string {
    var n := RoundHalfEven(100.0 * (if x < 0.0 then -x else x));
    (if x < 0.0 then "-" else "") + NatToString(n / 100) + "." + [DigitChar(n % 100 / 10), DigitChar(n % 10)]
  }

  // Concatenation and prefixes, stated once for every sequence type.

  lemma AppendAssociative<T>(a: seq<T>, b: seq<T>, c: seq<T>)
    ensures a + b + c == a + (b + c)
  {
  }

  lemma ConsTail<T>(a: seq<T>, r: seq<T>)
    requires a != []
    ensures [a[0]] + (a[1..] + r) == a + r
  {
    assert [a[0]] + a[1..] == a;
  }

  lemma SplitAt<T>(s: seq<T>, n: nat)
    requires n < |s|
    ensures s == s[..n] + [s[n]] + s[n + 1..]
  {
  }

  lemma PrefixOfAppend<T>(a: seq<T>, b: seq<T>)
    ensures a <= a + b
  {
  }

  lemma PrefixTransitive<T>(a: seq<T>, b: seq<T>, c: seq<T>)
    requires a <= b && b <= c
    ensures a <= c
  {
  }

  lemma PrefixExtend<T>(x: seq<T>, a: seq<T>, b: seq<T>)
    requires a <= b
    ensures x + a <= x + b
  {
    assert (x + b)[..|x + a|] == x + b[..|a|];
  }

  /** A piece that follows `before` inside `mid` (and a head of that piece)
      follows `front + before` in `p == front + mid + back`. */
  lemma NestedPrefix<T>(p: seq<T>, front: seq<T>, before: seq<T>, piece: seq<T>, head: seq<T>, mid: seq<T>, back: seq<T>)
    requires p == front + mid + back
    requires before + piece <= mid && head <= piece
    ensures front + before + piece <= p && front + before + head <= p
  {
    PrefixExtend(before, head, piece);
    PrefixTransitive(before + head, before + piece, mid);
    assert front + before + piece == front + (before + piece);
    assert front + before + head == front + (before + head);
    PrefixExtend(front, before + piece, mid);
    PrefixExtend(front, before + head, mid);
    PrefixOfAppend(front + mid, back);
    PrefixTransitive(front + before + piece, front + mid, p);
    PrefixTransitive(front + before + head, front + mid, p);
  }

  /** Regrouping a five-part concatenation around its third part. */
  lemma Regroup<T>(a: seq<T>, b: seq<T>, c: seq<T>, d: seq<T>, e: seq<T>, f: seq<T>)
    ensures a + (b + c) + d + e + f == (a + b) + c + (d + e + f)
  {
  }

  lemma SliceAfterPrefix<T>(p: seq<T>, x: seq<T>, y: seq<T>)
    requires x + y <= p
    ensures |x| + |y| <= |p| && p[|x|..|x| + |y|] == y
  {
  }

  /** Every string contains itself. */
  lemma ContainsSelf(s: string)
    ensures Contains(s, s)
  {
    assert s[..|s|] == s;
  }

  /** The concatenation of `f(n, x)` for the elements `x` of `xs`, in order,
      `n` being the element's 1-based position (Python's `enumerate(xs, 1)`). */
  function ConcatNumbered<T>(xs: seq<T>, f: (nat, T) -> string): string {
    if xs == [] then "" else ConcatNumbered(xs[..|xs| - 1], f) + f(|xs|, xs[|xs| - 1])
  }

  lemma ConcatNumberedSnoc<T>(xs: seq<T>, f: (nat, T) -> string, i: nat)
    requires i < |xs|
    ensures ConcatNumbered(xs[..i + 1], f) == ConcatNumbered(xs[..i], f) + f(i + 1, xs[i])
  {
    assert xs[..i + 1][..i] == xs[..i];
  }

  /** One more item adds its own piece, numbered one past the others. */
  lemma ConcatNumberedAppend<T>(xs: seq<T>, x: T, f: (nat, T) -> string)
    ensures ConcatNumbered(xs + [x], f) == ConcatNumbered(xs, f) + f(|xs| + 1, x)
  {
    var longer := xs + [x];
    assert longer[..|longer| - 1] == xs && longer[|longer| - 1] == x;
  }

  lemma {:induction false} ConcatNumberedPrefix<T>(xs: seq<T>, f: (nat, T) -> string, j: nat)
    requires j <= |xs|
    ensures ConcatNumbered(xs[..j], f) <= ConcatNumbered(xs, f)
    decreases |xs| - j
  {
    if j == |xs| {
      assert xs[..j] == xs;
    } else {
      ConcatNumberedPrefix(xs, f, j + 1);
      ConcatNumberedSnoc(xs, f, j);
      PrefixTransitive(ConcatNumbered(xs[..j], f), ConcatNumbered(xs[..j + 1], f), ConcatNumbered(xs, f));
    }
  }

  /** Every element's piece occurs in the concatenation. */
  lemma ConcatNumberedContains<T>(xs: seq<T>, f: (nat, T) -> string, i: nat)
    requires i < |xs|
    ensures Contains(ConcatNumbered(xs, f), f(i + 1, xs[i]))
  {
    ConcatNumberedPrefix(xs, f, i + 1);
    ConcatNumberedSnoc(xs, f, i);
    PrefixEndContained(ConcatNumbered(xs, f), ConcatNumbered(xs[..i], f), f(i + 1, xs[i]));
  }

  /** The last part of a prefix occurs in the whole. */
  lemma PrefixEndContained(p: string, x: string, y: string)
    requires x + y <= p
    ensures Contains(p, y)
  {
    SliceAfterPrefix(p, x, y);
    ContainsAt(p, y, |x|);
  }

  /** With non-empty pieces, later elements' pieces start strictly later. */
  lemma {:induction false} ConcatNumberedGrows<T>(xs: seq<T>, f: (nat, T) -> string, i: nat, j: nat)
    requires i < j <= |xs|
    requires forall k :: i <= k < j ==> |f(k + 1, xs[k])| > 0
    ensures |ConcatNumbered(xs[..i], f)| < |ConcatNumbered(xs[..j], f)|
    decreases j - i
  {
    ConcatNumberedSnoc(xs, f, j - 1);
    if i < j - 1 {
      ConcatNumberedGrows(xs, f, i, j - 1);
    }
  }
}
