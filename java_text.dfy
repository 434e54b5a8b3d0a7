/**
 * The java.lang.String and java.lang.Integer operations the bot relies on,
 * written out with their Java meaning: prefix and substring tests, trim and
 * isBlank, decimal printing, Integer.parseInt, String.repeat and
 * String.replace. A Java string is modelled as a sequence of code points.
 */
module JavaText {
  import opened Wrappers
  import opened JavaMath

  /** String.startsWith */
  predicate StartsWith(s: string, p: string) {
    |p| <= |s| && s[..|p|] == p
  }

  /** String.contains: some suffix of s starts with sub. */
  predicate Contains(s: string, sub: string)
    decreases |s|
  {
    StartsWith(s, sub) || (|s| > 0 && Contains(s[1..], sub))
  }

  /** sub occurs in s at position i. */
  ghost predicate OccursAt(s: string, sub: string, i: int) {
    0 <= i && i + |sub| <= |s| && s[i..i + |sub|] == sub
  }

  lemma {:induction false} ContainsIffOccurs(s: string, sub: string)
    ensures Contains(s, sub) <==> exists i :: OccursAt(s, sub, i)
    decreases |s|
  {
    if StartsWith(s, sub) {
      assert OccursAt(s, sub, 0);
    } else if |s| == 0 {
    } else {
      ContainsIffOccurs(s[1..], sub);
      if Contains(s[1..], sub) {
        var i :| OccursAt(s[1..], sub, i);
        assert s[i + 1..i + 1 + |sub|] == s[1..][i..i + |sub|];
        assert OccursAt(s, sub, i + 1);
      } else {
        forall i | OccursAt(s, sub, i) ensures false {
          if i == 0 {
            assert false;
          } else {
            OccursShift(s, sub, i);
            assert false;
          }
        }
      }
    }
  }

  lemma OccursShift(s: string, sub: string, i: int)
    requires i > 0 && OccursAt(s, sub, i)
    ensures OccursAt(s[1..], sub, i - 1)
  {
    assert s[1..][i - 1..i - 1 + |sub|] == s[i..i + |sub|];
  }

  /** Characters that String.trim removes: every code point up to U+0020. */
  predicate TrimmedAway(c: char) {
    c <= ' '
  }

  /**
   * String.trim: s with every leading and trailing code point up to U+0020
   * removed. The result begins and ends with a kept character; TrimSlice
   * shows it is the slice of s between trimmable ends.
   */
  function Trim(s: string): (r: string)
    ensures |r| <= |s|
    ensures r == [] || (!TrimmedAway(r[0]) && !TrimmedAway(r[|r| - 1]))
  {
    if |s| > 0 && TrimmedAway(s[0]) then Trim(s[1..])
    else if |s| > 0 && TrimmedAway(s[|s| - 1]) then Trim(s[..|s| - 1])
    else s
  }

  /** Trim(s) is the slice s[i..j], and everything cut off is trimmable. */
  lemma {:induction false} TrimSlice(s: string) returns (i: nat, j: nat)
    ensures i <= j <= |s| && Trim(s) == s[i..j]
    ensures forall k :: 0 <= k < i ==> TrimmedAway(s[k])
    ensures forall k :: j <= k < |s| ==> TrimmedAway(s[k])
    decreases |s|
  {
    if |s| > 0 && TrimmedAway(s[0]) {
      var i', j' := TrimSlice(s[1..]);
      i, j := TrimSliceFront(s, s[1..], i', j');
    } else if |s| > 0 && TrimmedAway(s[|s| - 1]) {
      i, j := TrimSlice(s[..|s| - 1]);
      TrimSliceBack(s, s[..|s| - 1], i, j);
    } else {
      i, j := 0, |s|;
    }
  }

  /** The step of TrimSlice that drops a trimmable first character. */
  lemma TrimSliceFront(s: string, t: string, i': nat, j': nat) returns (i: nat, j: nat)
    requires |s| > 0 && TrimmedAway(s[0]) && t == s[1..]
    requires i' <= j' <= |t| && Trim(t) == t[i'..j']
    requires forall k :: 0 <= k < i' ==> TrimmedAway(t[k])
    requires forall k :: j' <= k < |t| ==> TrimmedAway(t[k])
    ensures i <= j <= |s| && Trim(s) == s[i..j]
    ensures forall k :: 0 <= k < i ==> TrimmedAway(s[k])
    ensures forall k :: j <= k < |s| ==> TrimmedAway(s[k])
  {
    i, j := i' + 1, j' + 1;
    assert t[i'..j'] == s[i..j];
    forall k | 0 < k < i ensures TrimmedAway(s[k]) {
      assert s[k] == t[k - 1];
    }
    forall k | j <= k < |s| ensures TrimmedAway(s[k]) {
      assert s[k] == t[k - 1];
    }
  }

  /** The step of TrimSlice that drops a trimmable last character. */
  lemma TrimSliceBack(s: string, t: string, i: nat, j: nat)
    requires |s| > 0 && !TrimmedAway(s[0]) && TrimmedAway(s[|s| - 1]) && t == s[..|s| - 1]
    requires i <= j <= |t| && Trim(t) == t[i..j]
    requires forall k :: 0 <= k < i ==> TrimmedAway(t[k])
    requires forall k :: j <= k < |t| ==> TrimmedAway(t[k])
    ensures i <= j <= |s| && Trim(s) == s[i..j]
    ensures forall k :: 0 <= k < i ==> TrimmedAway(s[k])
    ensures forall k :: j <= k < |s| ==> TrimmedAway(s[k])
  {
    assert t[i..j] == s[i..j];
    forall k | j <= k < |s| - 1 ensures TrimmedAway(s[k]) {
      assert s[k] == t[k];
    }
  }

  /** A string that starts and ends with a kept character is its own trim. */
  lemma TrimKept(s: string)
    requires s == [] || (!TrimmedAway(s[0]) && !TrimmedAway(s[|s| - 1]))
    ensures Trim(s) == s
  {
  }

  /** Trimming an already trimmed string changes nothing. */
  lemma {:induction false} TrimIdempotent(s: string)
    ensures Trim(Trim(s)) == Trim(s)
  {
    TrimKept(Trim(s));
  }

  /** Character.isWhitespace: the Unicode space, line and paragraph separators
   *  other than the three no-break spaces, plus the listed ASCII controls. */
  predicate IsWhitespace(c: char) {
    ('\U{9}' <= c <= '\U{D}') || ('\U{1C}' <= c <= '\U{1F}') || c == ' '
    || c == '\U{1680}' || ('\U{2000}' <= c <= '\U{2006}') || ('\U{2008}' <= c <= '\U{200A}')
    || c == '\U{2028}' || c == '\U{2029}' || c == '\U{205F}' || c == '\U{3000}'
  }

  /** String.isBlank: empty or whitespace only. */
  predicate IsBlank(s: string) {
    forall k :: 0 <= k < |s| ==> IsWhitespace(s[k])
  }

  predicate IsDigit(c: char) {
    '0' <= c <= '9'
  }

  predicate AllDigits(s: string) {
    forall k :: 0 <= k < |s| ==> IsDigit(s[k])
  }

  function DigitChar(d: nat): (c: char)
    requires d < 10
    ensures IsDigit(c) && c as int - '0' as int == d
  {
    ('0' as int + d) as char
  }

  /** The value of a run of decimal digits, most significant first. */
  function DigitsValue(s: string): nat
    requires AllDigits(s)
  {
    if s == [] then 0 else DigitsValue(s[..|s| - 1]) * 10 + (s[|s| - 1] as int - '0' as int)
  }

  /** Decimal digits of n without sign or leading zeros (Long.toString for n >= 0). */
  function NatToString(n: nat): (r: string)
    ensures |r| >= 1 && AllDigits(r)
    ensures n < 10 <==> |r| == 1
  {
    if n < 10 then [DigitChar(n)] else NatToString(n / 10) + [DigitChar(n % 10)]
  }

  /** Integer.toString / "%d": a minus sign for negative values. */
  function IntToString(i: int): string {
    if i < 0 then "-" + NatToString(-i) else NatToString(i)
  }

  /**
   * Integer.parseInt(s, 10): an optional '+' or '-', then at least one digit,
   * and a value inside the 32-bit range; anything else is a
   * NumberFormatException, modelled as None.
   */
  function ParseInt(s: string): (r: Option<int>)
    ensures r.Some? ==> INT_MIN <= r.value <= INT_MAX
    ensures s == [] ==> r.None?
  {
    if s == [] then None
    else
      var signed := s[0] == '-' || s[0] == '+';
      var body := if signed then s[1..] else s;
      if body == [] || !AllDigits(body) then None
      else
        var d: int := DigitsValue(body);
        var v := if s[0] == '-' then -d else d;
        if INT_MIN <= v <= INT_MAX then Some(v) else None
  }

  lemma {:induction false} DigitsValueOfNatToString(n: nat)
    ensures DigitsValue(NatToString(n)) == n
  {
    if n >= 10 {
      var r := NatToString(n);
      var p := NatToString(n / 10);
      assert r == p + [DigitChar(n % 10)];
      assert r[..|r| - 1] == p;
      DigitsValueOfNatToString(n / 10);
    }
  }

  /** Integer.parseInt reads back every 32-bit value that Integer.toString prints. */
  lemma ParseIntOfIntToString(n: int)
    requires INT_MIN <= n <= INT_MAX
    ensures ParseInt(IntToString(n)) == Some(n)
  {
    if n < 0 {
      ParseIntOfNegative(n);
    } else {
      ParseIntOfNatToString(n);
    }
  }

  lemma ParseIntOfNegative(n: int)
    requires INT_MIN <= n < 0
    ensures ParseInt("-" + NatToString(-n)) == Some(n)
  {
    var d := NatToString(-n);
    var s := "-" + d;
    assert s[0] == '-' && s[1..] == d;
    DigitsValueOfNatToString(-n);
    assert |d| > 0 && AllDigits(d) && DigitsValue(d) == -n;
  }

  lemma ParseIntOfNatToString(n: int)
    requires 0 <= n <= INT_MAX
    ensures ParseInt(NatToString(n)) == Some(n)
  {
    var d := NatToString(n);
    assert IsDigit(d[0]);
    DigitsValueOfNatToString(n);
  }

  /** String.repeat(n) for n >= 0. */
  function Repeat(s: string, n: nat): (r: string)
    ensures |s| == 1 ==> |r| == n && forall k :: 0 <= k < n ==> r[k] == s[0]
  {
    if n == 0 then [] else s + Repeat(s, n - 1)
  }

  /** The length of the longest prefix of s not containing c. */
  function IndexOfOrLength(s: string, c: char): (i: nat)
    ensures i <= |s|
    ensures forall k :: 0 <= k < i ==> s[k] != c
    ensures i < |s| ==> s[i] == c
  {
    if s == [] || s[0] == c then 0 else 1 + IndexOfOrLength(s[1..], c)
  }

  /** The index of c in p + [c] + q when p does not contain c. */
  lemma {:induction false} IndexOfAfterPrefix(p: string, c: char, q: string)
    requires forall k :: 0 <= k < |p| ==> p[k] != c
    ensures IndexOfOrLength(p + [c] + q, c) == |p|
  {
    if p != [] {
      assert (p + [c] + q)[1..] == p[1..] + [c] + q;
      IndexOfAfterPrefix(p[1..], c, q);
    }
  }

  /**
   * s.split(sep, 3)[1]: the text between the first separator and the next
   * one (or the end); None when s has no separator, so that the split has a
   * single part.
   */
  function SecondField(s: string, sep: char): (r: Option<string>)
    ensures r.None? <==> forall k :: 0 <= k < |s| ==> s[k] != sep
    ensures r.Some? ==> forall k :: 0 <= k < |r.value| ==> r.value[k] != sep
  {
    var i := IndexOfOrLength(s, sep);
    if i == |s| then None
    else
      var rest := s[i + 1..];
      Some(rest[..IndexOfOrLength(rest, sep)])
  }

  /** The second field of head + sep + field + sep + tail is field. */
  lemma SecondFieldOf(head: string, sep: char, field: string, tail: string)
    requires forall k :: 0 <= k < |head| ==> head[k] != sep
    requires forall k :: 0 <= k < |field| ==> field[k] != sep
    ensures SecondField(head + [sep] + field + [sep] + tail, sep) == Some(field)
  {
    var s := head + [sep] + field + [sep] + tail;
    assert s == head + [sep] + (field + [sep] + tail);
    IndexOfAfterPrefix(head, sep, field + [sep] + tail);
    assert IndexOfOrLength(s, sep) == |head| < |s|;
    var rest := s[|head| + 1..];
    assert rest == field + [sep] + tail;
    IndexOfAfterPrefix(field, sep, tail);
    assert rest[..|field|] == field;
  }

  /**
   * String.replace(target, replacement): every non-overlapping occurrence of
   * target, scanning left to right, is replaced; an empty target inserts the
   * replacement before every character and at the end.
   */
  function Replace(s: string, target: string, replacement: string): (r: string)
    decreases |s|
  {
    if target == [] then
      if s == [] then replacement else replacement + [s[0]] + Replace(s[1..], target, replacement)
    else if StartsWith(s, target) then replacement + Replace(s[|target|..], target, replacement)
    else if s == [] then []
    else [s[0]] + Replace(s[1..], target, replacement)
  }

  /** A string without the target is left unchanged by Replace. */
  lemma {:induction false} ReplaceAbsent(s: string, target: string, replacement: string)
    requires target != [] && !Contains(s, target)
    ensures Replace(s, target, replacement) == s
    decreases |s|
  {
    if s != [] {
      ReplaceAbsent(s[1..], target, replacement);
    }
  }

  /** A prefix free of the target's first character is copied unchanged. */
  lemma {:induction false} ReplaceSkipsPrefix(p: string, s: string, target: string, replacement: string)
    requires target != []
    requires forall k :: 0 <= k < |p| ==> p[k] != target[0]
    ensures Replace(p + s, target, replacement) == p + Replace(s, target, replacement)
    decreases |p|
  {
    if p == [] {
      assert p + s == s;
    } else {
      var ps, rs := p + s, Replace(s, target, replacement);
      assert ps[1..] == p[1..] + s;
      ReplaceCopies(ps, target, replacement);
      ReplaceSkipsPrefix(p[1..], s, target, replacement);
      assert p == [p[0]] + p[1..];
    }
  }

  /** A first character that cannot start the target is copied unchanged. */
  lemma ReplaceCopies(s: string, target: string, replacement: string)
    requires s != [] && target != [] && s[0] != target[0]
    ensures Replace(s, target, replacement) == [s[0]] + Replace(s[1..], target, replacement)
  {
    assert !StartsWith(s, target);
  }

  /** %02d: at least two characters, zero-padded; a negative value keeps its sign. */
  function Pad2(n: int): (r: string)
    ensures |r| >= 2
  {
    if 0 <= n < 10 then "0" + NatToString(n) else IntToString(n)
  }

  /** The zero-padded text still reads back as the number it prints. */
  lemma {:induction false} ParseIntOfPad2(n: int)
    requires INT_MIN <= n <= INT_MAX
    ensures ParseInt(Pad2(n)) == Some(n)
  {
    if 0 <= n < 10 {
      var s := Pad2(n);
      assert s == ['0', DigitChar(n)];
      assert AllDigits(s);
      assert s[..1] == ['0'] && ['0'][..0] == [];
      assert DigitsValue(['0']) == 0;
      assert DigitsValue(s) == n;
    } else {
      ParseIntOfIntToString(n);
    }
  }

  /** ASCII-only lower-casing, as used by a CASE_INSENSITIVE pattern without UNICODE_CASE. */
  function ToLowerAscii(s: string): (r: string)
    ensures |r| == |s|
    ensures forall k :: 0 <= k < |s| ==> r[k] == (if 'A' <= s[k] <= 'Z' then (s[k] as int + 32) as char else s[k])
  {
    if s == [] then [] else
      [if 'A' <= s[0] <= 'Z' then (s[0] as int + 32) as char else s[0]] + ToLowerAscii(s[1..])
  }
}
