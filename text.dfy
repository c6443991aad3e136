/** The JavaScript string operations the storefront relies on: `trim`,
    `replace(/\s+/g, '')`, `toLowerCase`, `startsWith`, `includes`,
    `split(/[,;]/)`, `parseInt` and `Number.prototype.toString`. */
module Text {
  import opened Wrappers

  /** The characters that JavaScript's `\s` class and `String.prototype.trim`
      both treat as white space (the two sets are the same). */
  predicate IsSpace(c: char) {
    || c == ' ' || c == '\t' || c == '\n' || c == '\r' || c == '\U{000B}' || c == '\U{000C}'
    || c == '\U{00A0}' || c == '\U{1680}' || ('\U{2000}' <= c <= '\U{200A}')
    || c == '\U{2028}' || c == '\U{2029}' || c == '\U{202F}' || c == '\U{205F}'
    || c == '\U{3000}' || c == '\U{FEFF}'
  }

  predicate AllSpace(s: string) {
    forall i :: 0 <= i < |s| ==> IsSpace(s[i])
  }

  /** Leading white space removed. */
  function TrimStart(s: string): (r: string)
    ensures |r| <= |s| && r == s[|s| - |r|..]
    ensures r == [] || !IsSpace(r[0])
    ensures AllSpace(s[..|s| - |r|])
  {
    if |s| > 0 && IsSpace(s[0]) then
      var r := TrimStart(s[1..]);
      assert s[1..][..|s| - 1 - |r|] == s[1..|s| - |r|];
      r
    else s
  }

  /** Trailing white space removed. */
  function TrimEnd(s: string): (r: string)
    ensures |r| <= |s| && r == s[..|r|]
    ensures r == [] || !IsSpace(r[|r| - 1])
    ensures AllSpace(s[|r|..])
  {
    if |s| > 0 && IsSpace(s[|s| - 1]) then
      var r := TrimEnd(s[..|s| - 1]);
      assert s[|r|..] == s[..|s| - 1][|r|..] + [s[|s| - 1]];
      r
    else s
  }

  /** `String.prototype.trim`. */
  function Trim(s: string): (r: string)
  {
    TrimEnd(TrimStart(s))
  }

  /** `trim()` yields the empty string exactly on white-space-only input. */
  lemma TrimEmptyIff(s: string)
    ensures Trim(s) == [] <==> AllSpace(s)
  {
    var t := TrimStart(s);
    assert s == s[..|s| - |t|] + t;
    if Trim(s) == [] {
      assert t[|Trim(s)|..] == t;
      assert t == [];
      assert s[..|s| - |t|] == s;
    } else {
      assert !IsSpace(Trim(s)[0]);
      assert Trim(s)[0] == t[0];
      assert s[|s| - |t|] == t[0];
    }
  }

  /** What trim keeps starts and ends with a non-space character, so a second
      trim changes nothing. */
  lemma TrimIdempotent(s: string)
    ensures Trim(Trim(s)) == Trim(s)
  {
    var r := Trim(s);
    if r != [] {
      assert r[0] == TrimStart(s)[0];
      assert TrimStart(r) == r;
    }
  }

  /** `s.replace(/\s+/g, '')`: every white-space character removed. */
  function RemoveSpaces(s: string): (r: string)
    ensures |r| <= |s|
    ensures forall i :: 0 <= i < |r| ==> !IsSpace(r[i])
  {
    if s == [] then []
    else (if IsSpace(s[0]) then [] else [s[0]]) + RemoveSpaces(s[1..])
  }

  lemma {:induction false} RemoveSpacesConcat(a: string, b: string)
    ensures RemoveSpaces(a + b) == RemoveSpaces(a) + RemoveSpaces(b)
  {
    if a != [] {
      var h := if IsSpace(a[0]) then [] else [a[0]];
      assert (a + b)[0] == a[0];
      assert (a + b)[1..] == a[1..] + b;
      RemoveSpacesConcat(a[1..], b);
      calc {
        RemoveSpaces(a + b);
        h + RemoveSpaces(a[1..] + b);
        h + (RemoveSpaces(a[1..]) + RemoveSpaces(b));
        (h + RemoveSpaces(a[1..])) + RemoveSpaces(b);
        RemoveSpaces(a) + RemoveSpaces(b);
      }
    } else {
      assert a + b == b;
    }
  }

  lemma {:induction false} RemoveSpacesOfAllSpace(s: string)
    requires AllSpace(s)
    ensures RemoveSpaces(s) == []
  {
    if s != [] {
      assert AllSpace(s[1..]) by {
        forall i | 0 <= i < |s| - 1 ensures IsSpace(s[1..][i]) { assert s[1..][i] == s[i + 1]; }
      }
      RemoveSpacesOfAllSpace(s[1..]);
    }
  }

  lemma {:induction false} RemoveSpacesNoSpace(s: string)
    requires forall i :: 0 <= i < |s| ==> !IsSpace(s[i])
    ensures RemoveSpaces(s) == s
  {
    if s != [] {
      RemoveSpacesNoSpace(s[1..]);
    }
  }

  /** Trimming first does not change what removing all white space gives:
      `s.trim().replace(/\s+/g, '') == s.replace(/\s+/g, '')`. */
  lemma TrimThenRemoveSpaces(s: string)
    ensures RemoveSpaces(Trim(s)) == RemoveSpaces(s)
  {
    RemoveSpacesOfTrimStart(s);
    RemoveSpacesOfTrimEnd(TrimStart(s));
  }

  lemma RemoveSpacesOfTrimStart(s: string)
    ensures RemoveSpaces(TrimStart(s)) == RemoveSpaces(s)
  {
    var t := TrimStart(s);
    var w := s[..|s| - |t|];
    assert s == w + t;
    RemoveSpacesConcat(w, t);
    RemoveSpacesOfAllSpace(w);
  }

  lemma RemoveSpacesOfTrimEnd(t: string)
    ensures RemoveSpaces(TrimEnd(t)) == RemoveSpaces(t)
  {
    var r := TrimEnd(t);
    var w := t[|r|..];
    assert t == r + w;
    RemoveSpacesConcat(r, w);
    RemoveSpacesOfAllSpace(w);
  }

  /** Removing white space twice is removing it once. */
  lemma RemoveSpacesIdempotent(s: string)
    ensures RemoveSpaces(RemoveSpaces(s)) == RemoveSpaces(s)
  {
    RemoveSpacesNoSpace(RemoveSpaces(s));
  }

  /** `toLowerCase` on the ASCII letters; every other character is kept. */
  function LowerChar(c: char): (r: char)
    ensures 'A' <= c <= 'Z' ==> r != c && 'a' <= r <= 'z'
    ensures !('A' <= c <= 'Z') ==> r == c
  {
    if 'A' <= c <= 'Z' then (c as int + 32) as char else c
  }

  function ToLower(s: string): (r: string)
    ensures |r| == |s|
    ensures forall i :: 0 <= i < |s| ==> r[i] == LowerChar(s[i])
  {
    seq(|s|, i requires 0 <= i < |s| => LowerChar(s[i]))
  }

  lemma ToLowerIdempotent(s: string)
    ensures ToLower(ToLower(s)) == ToLower(s)
  {
  }

  /** `s.startsWith(p)`. */
  predicate StartsWith(s: string, p: string) {
    |p| <= |s| && s[..|p|] == p
  }

  /** `s.includes(q)`: q occurs in s at some position. */
  predicate Contains(s: string, q: string)
    decreases |s|
  {
    StartsWith(s, q) || (|s| > 0 && Contains(s[1..], q))
  }

  /** Contains really is "occurs at some offset". */
  lemma {:induction false} ContainsAt(s: string, q: string)
    ensures Contains(s, q) <==> exists i :: 0 <= i <= |s| - |q| && StartsWith(s[i..], q)
    decreases |s|
  {
    if StartsWith(s, q) {
      assert s[0..] == s;
    }
    if |s| > 0 {
      ContainsAt(s[1..], q);
      if Contains(s[1..], q) {
        var i :| 0 <= i <= |s| - 1 - |q| && StartsWith(s[1..][i..], q);
        assert s[1..][i..] == s[i + 1..];
      }
      if exists i :: 0 <= i <= |s| - |q| && StartsWith(s[i..], q) {
        var i :| 0 <= i <= |s| - |q| && StartsWith(s[i..], q);
        if i > 0 {
          assert s[1..][i - 1..] == s[i..];
          assert 0 <= i - 1 <= |s| - 1 - |q| && StartsWith(s[1..][i - 1..], q);
        } else {
          assert s[i..] == s;
        }
      }
    } else {
      if exists i :: 0 <= i <= |s| - |q| && StartsWith(s[i..], q) {
        var i :| 0 <= i <= |s| - |q| && StartsWith(s[i..], q);
        assert i == 0 && s[i..] == s;
        assert StartsWith(s, q);
      }
    }
  }

  lemma StartsWithContains(s: string, q: string)
    requires StartsWith(s, q)
    ensures Contains(s, q)
  {
  }

  /** `s.replace(p, "")` with a non-empty string pattern: the first
      occurrence of `p` removed. */
  function RemoveFirst(s: string, p: string): (r: string)
    requires p != ""
    ensures !Contains(s, p) ==> r == s
    decreases |s|
  {
    if StartsWith(s, p) then s[|p|..]
    else if s == [] then []
    else [s[0]] + RemoveFirst(s[1..], p)
  }

  /** When `s` has no character that starts `p`, the first occurrence of `p`
      in `s + p` is the appended one: `(s + p).replace(p, "") == s`. */
  lemma {:induction false} RemoveFirstAppended(s: string, p: string)
    requires p != ""
    requires forall i :: 0 <= i < |s| ==> s[i] != p[0]
    ensures RemoveFirst(s + p, p) == s
  {
    if s == [] {
      assert s + p == p;
      assert StartsWith(p, p);
    } else {
      assert (s + p)[0] == s[0];
      assert !StartsWith(s + p, p);
      assert (s + p)[1..] == s[1..] + p;
      RemoveFirstAppended(s[1..], p);
      assert s == [s[0]] + s[1..];
    }
  }

  predicate IsNoteSeparator(c: char) { c == ',' || c == ';' }

  /** `s.split(/[,;]/)`: the pieces between separators, empty pieces included. */
  function SplitNotes(s: string): (parts: seq<string>)
    ensures |parts| >= 1
    ensures forall k, i :: 0 <= k < |parts| && 0 <= i < |parts[k]| ==> !IsNoteSeparator(parts[k][i])
  {
    if s == [] then [""]
    else
      var rest := SplitNotes(s[1..]);
      if IsNoteSeparator(s[0]) then [""] + rest
      else
        assert forall i :: 0 <= i < |rest[0]| ==> !IsNoteSeparator(rest[0][i]);
        [[s[0]] + rest[0]] + rest[1..]
  }

  function DigitChar(d: nat): (c: char)
    requires d < 10
    ensures '0' <= c <= '9'
  {
    ('0' as int + d) as char
  }

  predicate IsDigit(c: char) { '0' <= c <= '9' }

  function DigitValue(c: char): (d: nat)
    requires IsDigit(c)
    ensures d < 10
  {
    c as int - '0' as int
  }

  /** `String(n)` for a non-negative integer: its decimal digits. */
  function NatToString(n: nat): (r: string)
    ensures |r| >= 1
    ensures forall i :: 0 <= i < |r| ==> IsDigit(r[i])
  {
    if n < 10 then [DigitChar(n)] else NatToString(n / 10) + [DigitChar(n % 10)]
  }

  /** `String(n)` for any integer: a minus sign before the digits of a
      negative number. */
  function IntToString(n: int): (r: string)
    ensures |r| >= 1
  {
    if n < 0 then "-" + NatToString(-n) else NatToString(n)
  }

  /** Length of the run of decimal digits at the start of s. */
  function LeadingDigits(s: string): (k: nat)
    ensures k <= |s|
    ensures forall i :: 0 <= i < k ==> IsDigit(s[i])
    ensures k < |s| ==> !IsDigit(s[k])
  {
    if s != [] && IsDigit(s[0]) then 1 + LeadingDigits(s[1..]) else 0
  }

  /** The number a string of decimal digits denotes. */
  function DigitsValue(d: string): (v: nat)
    requires forall i :: 0 <= i < |d| ==> IsDigit(d[i])
  {
    if d == [] then 0 else DigitsValue(d[..|d| - 1]) * 10 + DigitValue(d[|d| - 1])
  }

  predicate AllDigits(s: string) {
    forall i :: 0 <= i < |s| ==> IsDigit(s[i])
  }

  predicate IsHexDigit(c: char) {
    IsDigit(c) || 'a' <= c <= 'f' || 'A' <= c <= 'F'
  }

  predicate AllHexDigits(s: string) {
    forall i :: 0 <= i < |s| ==> IsHexDigit(s[i])
  }

  function HexDigitValue(c: char): (d: nat)
    requires IsHexDigit(c)
    ensures d < 16
  {
    if IsDigit(c) then DigitValue(c)
    else if 'a' <= c <= 'f' then c as int - 'a' as int + 10
    else c as int - 'A' as int + 10
  }

  /** Length of the run of hexadecimal digits at the start of s. */
  function LeadingHexDigits(s: string): (k: nat)
    ensures k <= |s|
    ensures forall i :: 0 <= i < k ==> IsHexDigit(s[i])
    ensures k < |s| ==> !IsHexDigit(s[k])
  {
    if s != [] && IsHexDigit(s[0]) then 1 + LeadingHexDigits(s[1..]) else 0
  }

  /** The number a string of hexadecimal digits denotes. */
  function HexDigitsValue(d: string): (v: nat)
    requires AllHexDigits(d)
  {
    if d == [] then 0 else HexDigitsValue(d[..|d| - 1]) * 16 + HexDigitValue(d[|d| - 1])
  }

  /** s starts with `0x` or `0X`. */
  predicate HasHexPrefix(s: string) {
    |s| >= 2 && s[0] == '0' && (s[1] == 'x' || s[1] == 'X')
  }

  /** s without one leading sign character. */
  function Unsigned(t: string): (r: string)
    ensures r == t || (|t| > 0 && r == t[1..])
  {
    if |t| > 0 && (t[0] == '-' || t[0] == '+') then t[1..] else t
  }

  /** v, negated when `negative`. */
  function Signed(negative: bool, v: nat): int {
    var w: int := v;
    if negative then -w else w
  }

  /** What `parseInt` reads after the sign: `0x` or `0X` and the longest
      run of hexadecimal digits after it, or else the longest run of decimal
      digits; `None` when no digit follows. */
  function Magnitude(body: string): Option<nat> {
    if HasHexPrefix(body) then
      var k := LeadingHexDigits(body[2..]);
      if k == 0 then None else Some(HexDigitsValue(body[2..][..k]))
    else
      var k := LeadingDigits(body);
      if k == 0 then None else Some(DigitsValue(body[..k]))
  }

  /** `parseInt(s)` with no radix: leading white space, an optional sign,
      then the magnitude; `NaN` (here `None`) when no digit follows. */
  function ParseInt(s: string): (r: Option<int>)
  {
    SignedMagnitude(TrimStart(s))
  }

  /** The magnitude after an optional sign, negated after `-`. */
  function SignedMagnitude(t: string): Option<int> {
    match Magnitude(Unsigned(t))
    case None => None
    case Some(v) => Some(Signed(|t| > 0 && t[0] == '-', v))
  }

  /** `Number(s)` for a string whose value is an integer: the trimmed text
      is empty (0), a decimal integer with an optional sign, or `0x`/`0X`
      followed by hexadecimal digits only. `None` stands for `NaN`. */
  function StringToNumber(s: string): (r: Option<int>)
    ensures AllSpace(s) ==> r == Some(0)
  {
    TrimEmptyIff(s);
    TrimmedToNumber(Trim(s))
  }

  function TrimmedToNumber(t: string): Option<int> {
    if t == [] then Some(0)
    else if HasHexPrefix(t) then
      var h := t[2..];
      if h != [] && AllHexDigits(h) then Some(HexDigitsValue(h)) else None
    else
      var body := Unsigned(t);
      if body != [] && AllDigits(body) then Some(Signed(t[0] == '-', DigitsValue(body))) else None
  }

  lemma {:induction false} DigitsValueOfNatToString(n: nat)
    ensures DigitsValue(NatToString(n)) == n
  {
    var r := NatToString(n);
    if n >= 10 {
      DigitsValueOfNatToString(n / 10);
      assert r[..|r| - 1] == NatToString(n / 10);
    }
  }

  /** A run of digits followed by a non-digit is read exactly. */
  lemma {:induction false} LeadingDigitsStop(d: string, rest: string)
    requires AllDigits(d)
    requires rest == [] || !IsDigit(rest[0])
    ensures LeadingDigits(d + rest) == |d|
  {
    if d != [] {
      assert (d + rest)[1..] == d[1..] + rest;
      LeadingDigitsStop(d[1..], rest);
    } else {
      assert d + rest == rest;
    }
  }

  lemma {:induction false} LeadingHexDigitsStop(h: string, rest: string)
    requires AllHexDigits(h)
    requires rest == [] || !IsHexDigit(rest[0])
    ensures LeadingHexDigits(h + rest) == |h|
  {
    if h != [] {
      assert (h + rest)[1..] == h[1..] + rest;
      LeadingHexDigitsStop(h[1..], rest);
    } else {
      assert h + rest == rest;
    }
  }

  lemma {:induction false} TrimStartSkips(sp: string, x: string)
    requires AllSpace(sp)
    requires x == [] || !IsSpace(x[0])
    ensures TrimStart(sp + x) == x
  {
    if sp != [] {
      assert (sp + x)[1..] == sp[1..] + x;
      TrimStartSkips(sp[1..], x);
    } else {
      assert sp + x == x;
    }
  }

  predicate IsSign(sign: string) {
    sign == "" || sign == "-" || sign == "+"
  }

  lemma MagnitudeDecimal(d: string, rest: string)
    requires d != [] && AllDigits(d) && (rest == [] || !IsDigit(rest[0]))
    requires !HasHexPrefix(d + rest)
    ensures Magnitude(d + rest) == Some(DigitsValue(d))
  {
    LeadingDigitsStop(d, rest);
    assert (d + rest)[..|d|] == d;
  }

  lemma MagnitudeHex(x: char, h: string, rest: string)
    requires x == 'x' || x == 'X'
    requires h != [] && AllHexDigits(h) && (rest == [] || !IsHexDigit(rest[0]))
    ensures Magnitude(['0', x] + h + rest) == Some(HexDigitsValue(h))
  {
    var body := ['0', x] + h + rest;
    assert body[2..] == h + rest;
    LeadingHexDigitsStop(h, rest);
    assert (h + rest)[..|h|] == h;
  }

  lemma SignedMagnitudeOf(sign: string, body: string, v: nat)
    requires IsSign(sign)
    requires body != [] && body[0] != '-' && body[0] != '+'
    requires Magnitude(body) == Some(v)
    ensures SignedMagnitude(sign + body) == Some(Signed(sign == "-", v))
  {
    var x := sign + body;
    if sign == "" {
      assert x == body;
    } else {
      assert x[0] == sign[0];
      assert x[1..] == body;
    }
  }

  /** `parseInt` skips leading white space and one sign before reading the
      magnitude. */
  lemma ParseIntSkips(sp: string, sign: string, body: string, v: nat)
    requires AllSpace(sp) && IsSign(sign)
    requires body != [] && !IsSpace(body[0]) && body[0] != '-' && body[0] != '+'
    requires Magnitude(body) == Some(v)
    ensures ParseInt(sp + (sign + body)) == Some(Signed(sign == "-", v))
  {
    var x := sign + body;
    assert !IsSpace(x[0]) by {
      if sign != "" { assert x[0] == sign[0]; } else { assert x[0] == body[0]; }
    }
    TrimStartSkips(sp, x);
    SignedMagnitudeOf(sign, body, v);
  }

  /** `parseInt` reads the decimal digits up to the first non-digit. */
  lemma ParseIntReadsDecimal(sp: string, sign: string, d: string, rest: string)
    requires AllSpace(sp) && IsSign(sign)
    requires d != [] && AllDigits(d) && (rest == [] || !IsDigit(rest[0]))
    requires !HasHexPrefix(d + rest)
    ensures ParseInt(sp + sign + d + rest) == Some(Signed(sign == "-", DigitsValue(d)))
  {
    var body := d + rest;
    assert sp + sign + d + rest == sp + (sign + body);
    MagnitudeDecimal(d, rest);
    assert body[0] == d[0];
    assert !IsSpace(body[0]);
    ParseIntSkips(sp, sign, body, DigitsValue(d));
  }

  /** After the sign, `0x` or `0X` switches `parseInt` to base sixteen. */
  lemma ParseIntReadsHex(sp: string, sign: string, x: char, h: string, rest: string)
    requires AllSpace(sp) && IsSign(sign) && (x == 'x' || x == 'X')
    requires h != [] && AllHexDigits(h) && (rest == [] || !IsHexDigit(rest[0]))
    ensures ParseInt(sp + sign + ['0', x] + h + rest) == Some(Signed(sign == "-", HexDigitsValue(h)))
  {
    var body := ['0', x] + h + rest;
    assert sp + sign + ['0', x] + h + rest == sp + (sign + body);
    MagnitudeHex(x, h, rest);
    assert body[0] == '0';
    assert !IsSpace(body[0]);
    ParseIntSkips(sp, sign, body, HexDigitsValue(h));
  }

  /** No white-space character is a digit of either base. */
  lemma SpaceIsNoDigit(c: char)
    ensures IsSpace(c) ==> !IsHexDigit(c) && !IsDigit(c)
  {
  }

  lemma SplitAt(s: string, k: nat)
    requires k <= |s|
    ensures s == s[..k] + s[k..]
  {
  }

  /** Trimming splits s into leading white space, the trimmed text and
      trailing white space. */
  lemma TrimSplit(s: string) returns (lead: string, tail: string)
    ensures s == lead + Trim(s) + tail
    ensures AllSpace(lead) && AllSpace(tail)
  {
    var u := TrimStart(s);
    var r := TrimEnd(u);
    assert Trim(s) == r;
    lead := s[..|s| - |u|];
    tail := u[|r|..];
    SplitAt(s, |s| - |u|);
    SplitAt(u, |r|);
    ConcatAssoc(lead, r, tail);
  }

  lemma ConcatAssoc(a: string, b: string, c: string)
    ensures a + b + c == a + (b + c)
  {
  }

  lemma ConcatRegroup(a: string, b: string, c: string, e: string)
    ensures a + (b + c) + e == a + (b + (c + e))
  {
  }

  lemma ParseIntOfHexText(lead: string, t: string, tail: string)
    requires AllSpace(lead) && AllSpace(tail)
    requires HasHexPrefix(t) && t[2..] != [] && AllHexDigits(t[2..])
    ensures ParseInt(lead + t + tail) == Some(HexDigitsValue(t[2..]))
  {
    var h := t[2..];
    if tail != [] {
      SpaceIsNoDigit(tail[0]);
    }
    var body := t + tail;
    assert body == ['0', t[1]] + h + tail by { assert t == ['0', t[1]] + h; }
    MagnitudeHex(t[1], h, tail);
    assert body[0] == '0';
    assert !IsSpace(body[0]);
    ParseIntSkips(lead, "", body, HexDigitsValue(h));
    assert "" + body == body;
    ConcatAssoc(lead, t, tail);
  }

  /** A leading sign, split off. */
  lemma SignSplit(t: string) returns (sign: string)
    requires t != []
    ensures IsSign(sign) && t == sign + Unsigned(t)
    ensures sign == "-" <==> t[0] == '-'
  {
    if t[0] == '-' || t[0] == '+' {
      sign := [t[0]];
      assert t == [t[0]] + t[1..];
    } else {
      sign := "";
      assert t == "" + t;
    }
  }

  /** Digits followed by white space never look like a `0x` prefix. */
  lemma DigitsNoHexPrefix(d: string, tail: string)
    requires d != [] && AllDigits(d) && (tail == [] || IsSpace(tail[0]))
    ensures !HasHexPrefix(d + tail)
  {
    if tail != [] {
      SpaceIsNoDigit(tail[0]);
    }
    if |d| >= 2 {
      assert (d + tail)[1] == d[1];
    } else if tail != [] {
      assert (d + tail)[1] == tail[0];
    }
  }

  lemma ParseIntOfDecimalText(lead: string, t: string, tail: string)
    requires AllSpace(lead) && AllSpace(tail)
    requires t != [] && !HasHexPrefix(t) && Unsigned(t) != [] && AllDigits(Unsigned(t))
    ensures ParseInt(lead + t + tail) == Some(Signed(t[0] == '-', DigitsValue(Unsigned(t))))
  {
    var sign := SignSplit(t);
    var d := Unsigned(t);
    if tail != [] {
      SpaceIsNoDigit(tail[0]);
    }
    var body := d + tail;
    DigitsNoHexPrefix(d, tail);
    MagnitudeDecimal(d, tail);
    assert body[0] == d[0];
    SpaceIsNoDigit(d[0]);
    ParseIntSkips(lead, sign, body, DigitsValue(d));
    ConcatRegroup(lead, sign, d, tail);
  }

  /** `Number` agrees with `parseInt` wherever it gives a number for
      non-blank text. */
  lemma NumberAgreesWithParseInt(s: string)
    requires StringToNumber(s).Some? && !AllSpace(s)
    ensures ParseInt(s) == StringToNumber(s)
  {
    TrimEmptyIff(s);
    var t := Trim(s);
    var lead, tail := TrimSplit(s);
    if HasHexPrefix(t) {
      ParseIntOfHexText(lead, t, tail);
    } else {
      ParseIntOfDecimalText(lead, t, tail);
    }
  }

  /** Text that starts and ends with a non-space character is its own trim. */
  lemma TrimUnspaced(s: string)
    requires s != [] && !IsSpace(s[0]) && !IsSpace(s[|s| - 1])
    ensures Trim(s) == s
  {
    assert TrimStart(s) == s;
  }

  /** `Number` reads a signed run of decimal digits. */
  lemma NumberOfSignedDigits(sign: string, d: string)
    requires IsSign(sign) && d != [] && AllDigits(d)
    ensures StringToNumber(sign + d) == Some(Signed(sign == "-", DigitsValue(d)))
  {
    var s := sign + d;
    SpaceIsNoDigit(d[0]);
    SpaceIsNoDigit(d[|d| - 1]);
    assert s[|s| - 1] == d[|d| - 1];
    if sign == "" {
      assert s == d;
      assert !HasHexPrefix(s) by {
        if |d| >= 2 { assert IsDigit(d[1]); }
      }
    } else {
      assert s[0] == sign[0];
      assert s[1..] == d;
    }
    assert TrimmedToNumber(s) == Some(Signed(sign == "-", DigitsValue(d)));
    TrimUnspaced(s);
  }

  /** Round trip: `Number(String(n)) == n`. */
  lemma NumberOfIntToString(n: int)
    ensures StringToNumber(IntToString(n)) == Some(n)
  {
    var m: nat := if n < 0 then -n else n;
    var d := NatToString(m);
    var sign := if n < 0 then "-" else "";
    assert IntToString(n) == sign + d by {
      if n >= 0 { assert "" + d == d; }
    }
    NumberOfSignedDigits(sign, d);
    DigitsValueOfNatToString(m);
  }

  /** Round trip: `parseInt(String(n)) == n`, for every integer. */
  lemma ParseIntOfIntToString(n: int)
    ensures ParseInt(IntToString(n)) == Some(n)
  {
    var s := IntToString(n);
    NumberOfIntToString(n);
    assert !AllSpace(s) by {
      var d := NatToString(if n < 0 then -n else n);
      assert s[0] == if n < 0 then '-' else d[0];
      SpaceIsNoDigit(d[0]);
    }
    NumberAgreesWithParseInt(s);
  }

  lemma ParseIntOfNatToString(n: nat)
    ensures ParseInt(NatToString(n)) == Some(n)
  {
    ParseIntOfIntToString(n);
  }
}
