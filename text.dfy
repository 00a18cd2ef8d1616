/** The JavaScript string primitives the application relies on, stated over `seq<char>`:
    `toLowerCase` (on ASCII letters), `includes`, `indexOf`, `substring`, `split` with a
    string separator, `join`, `trim`, `padStart(2, '0')`, `Number.prototype.toString` and
    `parseInt` without a radix. */
module Text {

  datatype Option<+T> = None | Some(value: T)

  /** `toLowerCase` restricted to ASCII: only 'A'..'Z' change. */
  function Lower(c: char): (r: char)
    ensures 'A' <= c <= 'Z' ==> r as int == c as int + 32
    ensures !('A' <= c <= 'Z') ==> r == c
  {
    if 'A' <= c <= 'Z' then (c as int + 32) as char else c
  }

  function LowerStr(s: string): (r: string)
    ensures |r| == |s|
    ensures forall i :: 0 <= i < |s| ==> r[i] == Lower(s[i])
  {
    seq(|s|, i requires 0 <= i < |s| => Lower(s[i]))
  }

  lemma LowerIdempotent(c: char)
    ensures Lower(Lower(c)) == Lower(c)
  {
  }

  lemma LowerStrIdempotent(s: string)
    ensures LowerStr(LowerStr(s)) == LowerStr(s)
  {
    assert forall i :: 0 <= i < |s| ==> LowerStr(LowerStr(s))[i] == LowerStr(s)[i];
  }

  lemma LowerStrAppend(a: string, b: string)
    ensures LowerStr(a + b) == LowerStr(a) + LowerStr(b)
  {
    assert forall i :: 0 <= i < |a + b| ==> LowerStr(a + b)[i] == (LowerStr(a) + LowerStr(b))[i];
  }

  /** The characters JavaScript's `\s` class and `String.prototype.trim` treat as white space
      (WhiteSpace and LineTerminator of ECMA-262). */
  predicate IsSpace(c: char)
  {
    c == ' ' || c == '\t' || c == '\n' || c == '\r' || c == '\U{000B}' || c == '\U{000C}' ||
    c == '\U{00A0}' || c == '\U{1680}' || ('\U{2000}' <= c <= '\U{200A}') || c == '\U{2028}' ||
    c == '\U{2029}' || c == '\U{202F}' || c == '\U{205F}' || c == '\U{3000}' || c == '\U{FEFF}'
  }

  /** JavaScript's `\w` class: `[A-Za-z0-9_]`. */
  predicate IsWordChar(c: char)
  {
    ('a' <= c <= 'z') || ('A' <= c <= 'Z') || ('0' <= c <= '9') || c == '_'
  }

  predicate IsDigit(c: char)
  {
    '0' <= c <= '9'
  }

  /** `s.includes(sub)`: `sub` occurs in `s` at some position (the empty string occurs everywhere). */
  predicate Contains(s: string, sub: string)
    decreases |s|
  {
    sub <= s || (s != [] && Contains(s[1..], sub))
  }

  lemma {:induction false} ContainsAt(s: string, sub: string)
    ensures Contains(s, sub) <==> exists i :: 0 <= i <= |s| - |sub| && sub <= s[i..]
  {
    if Contains(s, sub) {
      var i := OccurrenceOf(s, sub);
      assert sub <= s[i..];
    }
    if exists i :: 0 <= i <= |s| - |sub| && sub <= s[i..] {
      var i :| 0 <= i <= |s| - |sub| && sub <= s[i..];
      assert s[i..i + |sub|] == sub;
      ContainsFromAt(s, sub, i);
    }
  }

  /** An occurrence at a known position is an occurrence. */
  lemma {:induction false} ContainsFromAt(s: string, sub: string, i: nat)
    requires i + |sub| <= |s| && s[i..i + |sub|] == sub
    ensures Contains(s, sub)
    decreases i
  {
    if i == 0 {
      assert sub <= s;
    } else {
      assert s[1..][i - 1..i - 1 + |sub|] == s[i..i + |sub|];
      ContainsFromAt(s[1..], sub, i - 1);
    }
  }

  /** A position at which a contained string occurs. */
  lemma {:induction false} OccurrenceOf(s: string, sub: string) returns (i: nat)
    requires Contains(s, sub)
    ensures i + |sub| <= |s| && s[i..i + |sub|] == sub
    decreases |s|
  {
    if sub <= s {
      assert s[..|sub|] == sub;
      i := 0;
    } else {
      var k := OccurrenceOf(s[1..], sub);
      assert s[1..][k..k + |sub|] == s[k + 1..k + 1 + |sub|];
      i := k + 1;
    }
  }

  lemma ContainsEmpty(s: string)
    ensures Contains(s, [])
  {
  }

  lemma {:induction false} ContainsInRight(a: string, b: string, sub: string)
    requires Contains(b, sub)
    ensures Contains(a + b, sub)
    decreases |a|
  {
    if a == [] {
      assert a + b == b;
    } else {
      ContainsInRight(a[1..], b, sub);
      assert (a + b)[1..] == a[1..] + b;
    }
  }

  lemma ContainsInLeft(a: string, b: string, sub: string)
    requires Contains(a, sub)
    ensures Contains(a + b, sub)
  {
    ContainsAt(a, sub);
    var i :| 0 <= i <= |a| - |sub| && sub <= a[i..];
    assert (a + b)[i..i + |sub|] == a[i..i + |sub|];
    ContainsFromAt(a + b, sub, i);
  }

  /** Containment is transitive. */
  lemma ContainsTrans(s: string, mid: string, sub: string)
    requires Contains(s, mid) && Contains(mid, sub)
    ensures Contains(s, sub)
  {
    var i := OccurrenceOf(s, mid);
    var j := OccurrenceOf(mid, sub);
    forall k | 0 <= k < |sub|
      ensures s[i + j + k] == sub[k]
    {
      assert s[i + j + k] == s[i..i + |mid|][j + k] == mid[j + k];
      assert mid[j + k] == mid[j..j + |sub|][k];
    }
    assert s[i + j..i + j + |sub|] == sub;
    ContainsFromAt(s, sub, i + j);
  }

  /** A needle that does not contain `c` but occurs in `a + [c] + b` occurs in `a` or in `b`. */
  lemma ContainsAcross(a: string, c: char, b: string, sub: string)
    requires c !in sub
    requires Contains(a + [c] + b, sub)
    ensures Contains(a, sub) || Contains(b, sub)
  {
    var s := a + [c] + b;
    ContainsAt(s, sub);
    var i :| 0 <= i <= |s| - |sub| && sub <= s[i..];
    if i + |sub| <= |a| {
      assert a[i..i + |sub|] == s[i..i + |sub|];
      ContainsFromAt(a, sub, i);
    } else if i > |a| {
      assert b[i - |a| - 1..i - |a| - 1 + |sub|] == s[i..i + |sub|];
      ContainsFromAt(b, sub, i - |a| - 1);
    } else {
      StraddleHasChar(a, c, b, sub, i);
      assert false;
    }
  }

  /** Nothing but the empty string occurs in the empty string. */
  lemma ContainsInEmpty(sub: string)
    ensures Contains([], sub) <==> sub == []
  {
  }

  /** A one-character string occurs exactly where its character does. */
  lemma {:induction false} ContainsChar(s: string, c: char)
    ensures Contains(s, [c]) <==> c in s
    decreases |s|
  {
    if s != [] {
      ContainsChar(s[1..], c);
      assert s == [s[0]] + s[1..];
    }
  }

  /** An occurrence that starts in `a` and ends past it covers the character after `a`. */
  lemma StraddleHasChar(a: string, c: char, b: string, sub: string, i: int)
    requires 0 <= i <= |a| < i + |sub| <= |a| + 1 + |b|
    requires sub <= (a + [c] + b)[i..]
    ensures c in sub
  {
    assert sub[|a| - i] == (a + [c] + b)[|a|];
  }

  /** `s.indexOf(sub)`: the first position where `sub` occurs, or -1. */
  function IndexOf(s: string, sub: string): (r: int)
    ensures r == -1 || 0 <= r <= |s| - |sub|
    ensures r >= 0 ==> sub <= s[r..]
    ensures r >= 0 ==> forall j :: 0 <= j < r ==> !(sub <= s[j..])
    ensures r >= 0 <==> Contains(s, sub)
    decreases |s|
  {
    if sub <= s then 0
    else if s == [] then -1
    else
      var k := IndexOf(s[1..], sub);
      assert forall j :: 0 < j <= |s| ==> s[1..][j - 1..] == s[j..];
      if k < 0 then -1 else k + 1
  }

  /** `s.substring(start, end)` for `0 <= start <= end <= |s|` after JavaScript's clamping. */
  function Substring(s: string, start: int, end: int): (r: string)
    ensures |r| <= |s|
    ensures 0 <= start <= end <= |s| ==> r == s[start..end]
    ensures 0 <= end <= start <= |s| ==> r == s[end..start]
  {
    var a := if start < 0 then 0 else if start > |s| then |s| else start;
    var b := if end < 0 then 0 else if end > |s| then |s| else end;
    if a <= b then s[a..b] else s[b..a]
  }

  /** `s.substring(0, n)`: the first `n` characters, or all of `s` when it is shorter. */
  function Take(s: string, n: nat): (r: string)
    ensures |r| == if |s| < n then |s| else n
    ensures r <= s
  {
    if |s| <= n then s else s[..n]
  }

  /** `s.split(sep)` for a non-empty separator: the pieces between the non-overlapping
      occurrences of `sep` found from left to right. */
  function SplitBy(s: string, sep: string): (parts: seq<string>)
    requires |sep| > 0
    ensures |parts| >= 1
    decreases |s|
  {
    if s == [] then [[]]
    else if sep <= s then [[]] + SplitBy(s[|sep|..], sep)
    else
      var rest := SplitBy(s[1..], sep);
      [[s[0]] + rest[0]] + rest[1..]
  }

  /** `parts.join(sep)`. */
  function Join(parts: seq<string>, sep: string): (s: string)
  {
    if parts == [] then []
    else if |parts| == 1 then parts[0]
    else parts[0] + sep + Join(parts[1..], sep)
  }

  /** Joining after extending the first piece by one character extends the result. */
  lemma JoinPrependChar(c: char, parts: seq<string>, sep: string)
    requires |parts| >= 1
    ensures Join([[c] + parts[0]] + parts[1..], sep) == [c] + Join(parts, sep)
  {
    var q := [[c] + parts[0]] + parts[1..];
    assert q[1..] == parts[1..];
    if |parts| > 1 {
      assert Join(q, sep) == ([c] + parts[0]) + sep + Join(parts[1..], sep);
    }
  }

  /** Joining after putting an empty piece in front puts a separator in front. */
  lemma JoinPrependEmpty(parts: seq<string>, sep: string)
    requires |parts| >= 1
    ensures Join([[]] + parts, sep) == sep + Join(parts, sep)
  {
    var q := [[]] + parts;
    assert q[1..] == parts;
  }

  /** Splitting and joining again gives back the original string. */
  lemma {:induction false} JoinSplit(s: string, sep: string)
    requires |sep| > 0
    ensures Join(SplitBy(s, sep), sep) == s
    decreases |s|
  {
    if s == [] {
    } else if sep <= s {
      JoinSplit(s[|sep|..], sep);
      JoinPrependEmpty(SplitBy(s[|sep|..], sep), sep);
      assert sep + s[|sep|..] == s;
    } else {
      JoinSplit(s[1..], sep);
      JoinPrependChar(s[0], SplitBy(s[1..], sep), sep);
      assert [s[0]] + s[1..] == s;
    }
  }

  /** With a one-character separator no piece contains that character. */
  lemma {:induction false} SplitPiecesAvoidSeparator(s: string, c: char)
    ensures forall k :: 0 <= k < |SplitBy(s, [c])| ==> c !in SplitBy(s, [c])[k]
    decreases |s|
  {
    if s != [] {
      SplitPiecesAvoidSeparator(s[1..], c);
    }
  }

  /** Text without the separator in it splits into one piece, itself. */
  lemma {:induction false} SplitWithoutSeparator(s: string, sep: string)
    requires |sep| > 0 && !Contains(s, sep)
    ensures SplitBy(s, sep) == [s]
    decreases |s|
  {
    if s != [] {
      assert !(sep <= s) && !Contains(s[1..], sep);
      SplitWithoutSeparator(s[1..], sep);
      assert [s[0]] + s[1..] == s;
    }
  }

  /** Splitting `a + sep + b` where `a` holds no occurrence that could reach into the separator
      (no character of `a` equals the separator's first character) yields `a` as the first
      piece and the pieces of `b` after it. */
  lemma {:induction false} SplitAfterPlainPrefix(a: string, sep: string, b: string)
    requires |sep| > 0 && sep[0] !in a
    ensures SplitBy(a + sep + b, sep) == [a] + SplitBy(b, sep)
    decreases |a|
  {
    var s := a + sep + b;
    if a == [] {
      assert s == sep + b;
      assert sep <= s;
      assert s[|sep|..] == b;
    } else {
      assert s[0] == a[0];
      assert s[1..] == a[1..] + sep + b;
      SplitAfterPlainPrefix(a[1..], sep, b);
      assert [a[0]] + a[1..] == a;
    }
  }

  /** A prefix of `s` free of `c` lies inside the first piece of splitting on `c`. */
  lemma {:induction false} SplitFirstCoversPlainPrefix(s: string, c: char, m: nat)
    requires m <= |s| && c !in s[..m]
    ensures |SplitBy(s, [c])[0]| >= m
    decreases |s|
  {
    if m > 0 {
      assert s[0] in s[..m];
      assert !([c] <= s);
      assert s[1..][..m - 1] == s[..m][1..];
      SplitFirstCoversPlainPrefix(s[1..], c, m - 1);
    }
  }

  /** A `c`-free needle found in `s` fits inside one piece of splitting `s` on `c`, so
      some piece is at least as long as the needle. */
  lemma {:induction false} NeedleWithinPiece(s: string, c: char, w: string)
    requires |w| > 0 && c !in w && Contains(s, w)
    ensures exists k :: 0 <= k < |SplitBy(s, [c])| && |SplitBy(s, [c])[k]| >= |w|
    decreases |s|
  {
    var parts := SplitBy(s, [c]);
    if w <= s {
      assert s[..|w|] == w;
      SplitFirstCoversPlainPrefix(s, c, |w|);
      assert |parts[0]| >= |w|;
    } else {
      assert s != [] && Contains(s[1..], w);
      NeedleWithinPiece(s[1..], c, w);
      var rest := SplitBy(s[1..], [c]);
      var k :| 0 <= k < |rest| && |rest[k]| >= |w|;
      if [c] <= s {
        assert parts[k + 1] == rest[k];
      } else if k == 0 {
        assert |parts[0]| == 1 + |rest[0]|;
      } else {
        assert parts[k] == rest[k];
      }
    }
  }

  /** The first piece of a split is a prefix of the string. */
  lemma {:induction false} SplitFirstIsPrefix(s: string, sep: string)
    requires |sep| > 0
    ensures SplitBy(s, sep)[0] <= s
    decreases |s|
  {
    if s != [] && !(sep <= s) {
      SplitFirstIsPrefix(s[1..], sep);
    }
  }

  /** Dropping white space at the front (`trimStart`). */
  function TrimStart(s: string): (r: string)
    ensures |r| <= |s|
    ensures r == s[|s| - |r|..]
    ensures r != [] ==> !IsSpace(r[0])
    ensures forall i :: 0 <= i < |s| - |r| ==> IsSpace(s[i])
    decreases |s|
  {
    if s != [] && IsSpace(s[0]) then TrimStart(s[1..]) else s
  }

  /** Dropping white space at the back (`trimEnd`). */
  function TrimEnd(s: string): (r: string)
    ensures |r| <= |s|
    ensures r == s[..|r|]
    ensures r != [] ==> !IsSpace(r[|r| - 1])
    ensures forall i :: |r| <= i < |s| ==> IsSpace(s[i])
    decreases |s|
  {
    if s != [] && IsSpace(s[|s| - 1]) then TrimEnd(s[..|s| - 1]) else s
  }

  /** `s.trim()`. */
  function Trim(s: string): (r: string)
    ensures |r| <= |s|
  {
    TrimEnd(TrimStart(s))
  }

  /** A string trims to nothing exactly when every character in it is white space. */
  lemma TrimEmptyIffBlank(s: string)
    ensures Trim(s) == [] <==> forall i :: 0 <= i < |s| ==> IsSpace(s[i])
  {
    var t := TrimStart(s);
    if t != [] {
      assert t[0] == s[|s| - |t|];
      assert TrimEnd(t)[0] == t[0];
    }
  }

  function DigitChar(d: nat): (c: char)
    requires d < 10
    ensures IsDigit(c) && c as int - '0' as int == d
  {
    ('0' as int + d) as char
  }

  /** `n.toString()` for a natural number. */
  function NatToString(n: nat): (s: string)
    ensures |s| >= 1
    ensures forall i :: 0 <= i < |s| ==> IsDigit(s[i])
    ensures n >= 10 ==> s[0] != '0'
    ensures |s| == 1 <==> n < 10
    decreases n
  {
    if n < 10 then [DigitChar(n)] else NatToString(n / 10) + [DigitChar(n % 10)]
  }

  /** `n.toString()` for an integer. */
  function IntToString(n: int): (s: string)
    ensures |s| >= 1
  {
    if n < 0 then "-" + NatToString(-n) else NatToString(n)
  }

  /** The value of a string of decimal digits, read left to right. */
  function DigitsValue(s: string): (v: nat)
    requires forall i :: 0 <= i < |s| ==> IsDigit(s[i])
    decreases |s|
  {
    if s == [] then 0
    else
      assert IsDigit(s[|s| - 1]);
      DigitsValue(s[..|s| - 1]) * 10 + (s[|s| - 1] as int - '0' as int)
  }

  lemma {:induction false} DigitsOfNat(n: nat)
    ensures DigitsValue(NatToString(n)) == n
    decreases n
  {
    if n >= 10 {
      DigitsOfNat(n / 10);
      var s := NatToString(n);
      assert s[..|s| - 1] == NatToString(n / 10);
    }
  }

  /** Decimal rendering is injective. */
  lemma NatToStringInjective(m: nat, n: nat)
    requires NatToString(m) == NatToString(n)
    ensures m == n
  {
    DigitsOfNat(m);
    DigitsOfNat(n);
  }

  /** The longest prefix of `s` whose characters satisfy `digit`. */
  function DigitRun(s: string, hex: bool): (r: string)
    ensures r <= s
    ensures forall i :: 0 <= i < |r| ==> IsRadixDigit(r[i], hex)
    ensures |r| < |s| ==> !IsRadixDigit(s[|r|], hex)
    decreases |s|
  {
    if s != [] && IsRadixDigit(s[0], hex) then [s[0]] + DigitRun(s[1..], hex) else []
  }

  predicate IsRadixDigit(c: char, hex: bool)
  {
    IsDigit(c) || (hex && (('a' <= c <= 'f') || ('A' <= c <= 'F')))
  }

  function RadixDigitValue(c: char, hex: bool): (v: nat)
    requires IsRadixDigit(c, hex)
    ensures v < (if hex then 16 else 10)
  {
    if IsDigit(c) then c as int - '0' as int
    else if 'a' <= c <= 'f' then c as int - 'a' as int + 10
    else c as int - 'A' as int + 10
  }

  function RadixValue(s: string, hex: bool): (v: nat)
    requires forall i :: 0 <= i < |s| ==> IsRadixDigit(s[i], hex)
    decreases |s|
  {
    if s == [] then 0
    else RadixValue(s[..|s| - 1], hex) * (if hex then 16 else 10) + RadixDigitValue(s[|s| - 1], hex)
  }

  lemma {:induction false} RadixValueDecimal(s: string)
    requires forall i :: 0 <= i < |s| ==> IsDigit(s[i])
    ensures RadixValue(s, false) == DigitsValue(s)
    decreases |s|
  {
    if s != [] {
      RadixValueDecimal(s[..|s| - 1]);
    }
  }

  /** What `parseInt` does after the sign: switch to base 16 after "0x" or "0X", then read
      the longest run of digits; `None` is NaN. */
  function ParseUnsigned(u: string): (r: Option<nat>)
  {
    var hex := HasHexPrefix(u);
    var digits := DigitRun(if hex then u[2..] else u, hex);
    if digits == [] then None else Some(RadixValue(digits, hex))
  }

  predicate HasHexPrefix(u: string)
  {
    |u| >= 2 && u[0] == '0' && (u[1] == 'x' || u[1] == 'X')
  }

  /** `parseInt(s)` with no radix: skip leading white space, read an optional sign, then the
      unsigned part; `None` is NaN. (-0 and 0 are the same integer here; both are falsy in
      JavaScript.) */
  function ParseInt(s: string): (r: Option<int>)
  {
    var t := TrimStart(s);
    var v := ParseUnsigned(ParseBody(s));
    if v.None? then None
    else
      var k: int := v.value;
      if t != [] && t[0] == '-' then Some(-k) else Some(k)
  }

  /** The text `parseInt` reads digits from: after leading blanks and an optional sign. */
  function ParseBody(s: string): string
  {
    var t := TrimStart(s);
    if t != [] && (t[0] == '-' || t[0] == '+') then t[1..] else t
  }

  lemma {:induction false} DigitRunOfDigits(s: string, rest: string)
    requires forall i :: 0 <= i < |s| ==> IsDigit(s[i])
    requires rest == [] || !IsRadixDigit(rest[0], false)
    ensures DigitRun(s + rest, false) == s
    decreases |s|
  {
    if s != [] {
      assert (s + rest)[1..] == s[1..] + rest;
      DigitRunOfDigits(s[1..], rest);
    } else {
      assert s + rest == rest;
    }
  }

  /** The unsigned part reads back the decimal rendering of a natural number, whatever
      follows it that is not a digit and does not make a "0x" prefix. */
  lemma ParseUnsignedOfNat(m: nat, rest: string)
    requires rest == [] || (!IsDigit(rest[0]) && rest[0] != 'x' && rest[0] != 'X')
    ensures ParseUnsigned(NatToString(m) + rest) == Some(m)
  {
    var digits := NatToString(m);
    var u := digits + rest;
    assert u[0] == digits[0];
    if |digits| >= 2 {
      assert u[1] == digits[1];
    } else if rest != [] {
      assert u[1] == rest[0];
    }
    assert !HasHexPrefix(u);
    DigitRunOfDigits(digits, rest);
    RadixValueDecimal(digits);
    DigitsOfNat(m);
  }

  /** Text that starts with a digit is read by `parseInt` as its unsigned part. */
  lemma ParseIntOfDigitStart(u: string)
    requires u != [] && IsDigit(u[0]) && ParseUnsigned(u).Some?
    ensures ParseInt(u) == Some(ParseUnsigned(u).value as int)
  {
    TrimStartOfDigitStart(u);
    assert ParseBody(u) == u;
  }

  lemma TrimStartOfDigitStart(u: string)
    requires u != [] && IsDigit(u[0])
    ensures TrimStart(u) == u
  {
  }

  /** Text that starts with a minus and then a digit is read by `parseInt` as the negated
      unsigned part. */
  lemma ParseIntOfMinusDigitStart(u: string)
    requires u != [] && IsDigit(u[0]) && ParseUnsigned(u).Some?
    ensures ParseInt("-" + u) == Some(-(ParseUnsigned(u).value as int))
  {
    var s := "-" + u;
    assert s[0] == '-' && s[1..] == u;
    assert TrimStart(s) == s;
    assert ParseBody(s) == u;
  }

  /** `parseInt` reads back the decimal rendering of any integer, whatever text follows it
      that is not a digit and does not start with an `x`. */
  lemma ParseIntOfIntToString(n: int, rest: string)
    requires rest == [] || (!IsDigit(rest[0]) && rest[0] != 'x' && rest[0] != 'X')
    ensures ParseInt(IntToString(n) + rest) == Some(n)
  {
    var m: nat := if n < 0 then -n else n;
    var u := NatToString(m) + rest;
    assert ParseUnsigned(u) == Some(m) && u != [] && IsDigit(u[0]) by {
      ParseUnsignedOfNat(m, rest);
      assert u[0] == NatToString(m)[0];
    }
    if n < 0 {
      assert IntToString(n) + rest == "-" + u;
      ParseIntOfMinusDigitStart(u);
    } else {
      assert IntToString(n) + rest == u;
      ParseIntOfDigitStart(u);
    }
  }

  /** `s.padStart(2, '0')`. */
  function PadStart2(s: string): (r: string)
    ensures |r| == if |s| >= 2 then |s| else 2
  {
    if |s| >= 2 then s else if |s| == 1 then "0" + s else "00"
  }

  /** Padding keeps the input at the end and puts only zeros in front of it. */
  lemma PadStart2Shape(s: string)
    ensures var r := PadStart2(s);
      r[|r| - |s|..] == s && forall i :: 0 <= i < |r| - |s| ==> r[i] == '0'
  {
  }
}
