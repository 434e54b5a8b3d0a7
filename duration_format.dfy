/**
 * The duration texts the panel renderers print: the parts java.time.Duration
 * reports for a length in milliseconds, and the two clock layouts built from
 * them with String.format ("%02d" fields, and a "%d" leading field). A clock
 * text is read back by ClockValue, which splits it at its colons.
 */
module DurationFormat {
  import opened Wrappers
  import opened JavaMath
  import opened JavaText

  /** Duration.ofMillis(ms).getSeconds(): the whole seconds, rounded down. */
  function Seconds(ms: int): int {
    FloorDiv(ms, 1000)
  }

  /** Duration.toHours(): the seconds divided by 3600, rounded toward zero. */
  function Hours(ms: int): int {
    JavaDiv(Seconds(ms), 3600)
  }

  /** Duration.toMinutesPart(): toMinutes() % 60, with the sign of the duration. */
  function MinutesPart(ms: int): int {
    JavaRem(JavaDiv(Seconds(ms), 60), 60)
  }

  /** Duration.toSecondsPart(): the seconds % 60, with the sign of the duration. */
  function SecondsPart(ms: int): int {
    JavaRem(Seconds(ms), 60)
  }

  lemma DivDiv60(a: nat)
    ensures (a / 60) / 60 == a / 3600
  {
    var q, r := a / 3600, a % 3600;
    assert a == 3600 * q + r;
    assert a == 60 * (60 * q + r / 60) + r % 60;
    assert a / 60 == 60 * q + r / 60;
  }

  /**
   * Hours, minutes and seconds add back up to the whole seconds, and the
   * minutes and seconds parts lie in 0..59 for a length that is not negative.
   */
  lemma {:induction false} PartsSum(ms: int)
    ensures Hours(ms) * 3600 + MinutesPart(ms) * 60 + SecondsPart(ms) == Seconds(ms)
    ensures -60 < MinutesPart(ms) < 60 && -60 < SecondsPart(ms) < 60
    ensures ms >= 0 ==> Hours(ms) >= 0 && 0 <= MinutesPart(ms) && 0 <= SecondsPart(ms)
    ensures ms >= 0 ==> Seconds(ms) == ms / 1000
    ensures Seconds(ms) > -3600 ==> Hours(ms) >= 0
  {
    var s := Seconds(ms);
    var m := JavaDiv(s, 60);
    if s >= 0 {
      DivDiv60(s);
    } else {
      DivDiv60(-s);
      assert m == -((-s) / 60);
      assert JavaDiv(m, 60) == -(((-s) / 60) / 60);
    }
    assert JavaDiv(m, 60) == Hours(ms);
    assert m == JavaDiv(m, 60) * 60 + MinutesPart(ms);
    assert s == m * 60 + SecondsPart(ms);
  }

  /** The text contains no colon. */
  predicate NoColon(s: string) {
    forall k :: 0 <= k < |s| ==> s[k] != ':'
  }

  /** The colon-separated fields of a text, in order; a text without colons is one field. */
  function Fields(s: string): (fs: seq<string>)
    ensures |fs| >= 1
    decreases |s|
  {
    var i := IndexOfOrLength(s, ':');
    if i == |s| then [s] else [s[..i]] + Fields(s[i + 1..])
  }

  lemma FieldsOfJoin(a: string, b: string)
    requires NoColon(a)
    ensures Fields(a + ":" + b) == [a] + Fields(b)
  {
    IndexOfAfterPrefix(a, ':', b);
    var s := a + ":" + b;
    assert s[..|a|] == a && s[|a| + 1..] == b;
  }

  lemma FieldsOfOne(a: string)
    requires NoColon(a)
    ensures Fields(a) == [a]
  {
  }

  lemma DecimalNoColon(n: int)
    ensures NoColon(IntToString(n)) && NoColon(Pad2(n))
  {
    if n < 0 {
      assert IntToString(n) == "-" + NatToString(-n);
    }
    if 0 <= n < 10 {
      assert Pad2(n) == "0" + NatToString(n);
    }
  }

  /** Colon-separated Integer fields weighed in base 60, the last field counting units. */
  function SexagesimalValue(fs: seq<string>): Option<int> {
    if fs == [] then Some(0)
    else
      var high := SexagesimalValue(fs[..|fs| - 1]);
      var low := ParseInt(fs[|fs| - 1]);
      if high.Some? && low.Some? then Some(high.value * 60 + low.value) else None
  }

  /** A clock text read back as seconds: "m:s" or "h:m:s", each field an Integer. */
  function ClockValue(text: string): Option<int> {
    var fs := Fields(text);
    if |fs| == 2 || |fs| == 3 then SexagesimalValue(fs) else None
  }

  lemma FieldsOfTwo(a: string, b: string)
    requires NoColon(a) && NoColon(b)
    ensures Fields(a + ":" + b) == [a, b]
  {
    FieldsOfJoin(a, b);
    FieldsOfOne(b);
  }

  lemma FieldsOfThree(a: string, b: string, c: string)
    requires NoColon(a) && NoColon(b) && NoColon(c)
    ensures Fields(a + ":" + b + ":" + c) == [a, b, c]
  {
    var bc := b + ":" + c;
    assert a + ":" + b + ":" + c == a + ":" + bc;
    FieldsOfJoin(a, bc);
    FieldsOfTwo(b, c);
    assert Fields(bc) == [b, c];
  }

  lemma SexagesimalOfTwo(a: string, b: string, m: int, s: int)
    requires ParseInt(a) == Some(m) && ParseInt(b) == Some(s)
    ensures SexagesimalValue([a, b]) == Some(m * 60 + s)
  {
    assert SexagesimalValue([a]) == Some(m) by {
      assert [a][..0] == [];
    }
    assert [a, b][..1] == [a];
  }

  lemma SexagesimalOfThree(a: string, b: string, c: string, h: int, m: int, s: int)
    requires ParseInt(a) == Some(h) && ParseInt(b) == Some(m) && ParseInt(c) == Some(s)
    ensures SexagesimalValue([a, b, c]) == Some(h * 3600 + m * 60 + s)
  {
    SexagesimalOfTwo(a, b, h, m);
    assert [a, b, c][..2] == [a, b];
  }

  /** A two-field clock reads back as minutes * 60 + seconds. */
  lemma ClockValueOfTwo(a: string, b: string, m: int, s: int)
    requires NoColon(a) && NoColon(b)
    requires ParseInt(a) == Some(m) && ParseInt(b) == Some(s)
    ensures Fields(a + ":" + b) == [a, b]
    ensures ClockValue(a + ":" + b) == Some(m * 60 + s)
  {
    FieldsOfTwo(a, b);
    SexagesimalOfTwo(a, b, m, s);
  }

  /** A three-field clock reads back as hours * 3600 + minutes * 60 + seconds. */
  lemma ClockValueOfThree(a: string, b: string, c: string, h: int, m: int, s: int)
    requires NoColon(a) && NoColon(b) && NoColon(c)
    requires ParseInt(a) == Some(h) && ParseInt(b) == Some(m) && ParseInt(c) == Some(s)
    ensures Fields(a + ":" + b + ":" + c) == [a, b, c]
    ensures ClockValue(a + ":" + b + ":" + c) == Some(h * 3600 + m * 60 + s)
  {
    FieldsOfThree(a, b, c);
    SexagesimalOfThree(a, b, c, h, m, s);
  }

  lemma Pad2Short(n: int)
    requires 0 <= n < 100
    ensures |Pad2(n)| == 2
  {
    if n >= 10 {
      assert NatToString(n) == NatToString(n / 10) + [DigitChar(n % 10)];
    }
  }

  /** The text "%02d:%02d:%02d" prints for h, m, s when h > 0, and "%02d:%02d" prints for m, s otherwise. */
  function PaddedText(h: int, m: int, s: int): string {
    if h > 0 then Pad2(h) + ":" + Pad2(m) + ":" + Pad2(s) else Pad2(m) + ":" + Pad2(s)
  }

  lemma PaddedTextReadsBack(h: int, m: int, s: int)
    requires h <= INT_MAX && -60 < m < 60 && -60 < s < 60
    ensures |Fields(PaddedText(h, m, s))| == (if h > 0 then 3 else 2)
    ensures forall k :: 0 <= k < |Fields(PaddedText(h, m, s))| ==> |Fields(PaddedText(h, m, s))[k]| >= 2
    ensures ClockValue(PaddedText(h, m, s)) == Some(if h > 0 then h * 3600 + m * 60 + s else m * 60 + s)
  {
    if h > 0 {
      PaddedThreeReadsBack(h, m, s);
    } else {
      PaddedTwoReadsBack(m, s);
    }
  }

  lemma PaddedThreeReadsBack(h: int, m: int, s: int)
    requires 0 < h <= INT_MAX && -60 < m < 60 && -60 < s < 60
    ensures Fields(Pad2(h) + ":" + Pad2(m) + ":" + Pad2(s)) == [Pad2(h), Pad2(m), Pad2(s)]
    ensures ClockValue(Pad2(h) + ":" + Pad2(m) + ":" + Pad2(s)) == Some(h * 3600 + m * 60 + s)
  {
    DecimalNoColon(h);
    DecimalNoColon(m);
    DecimalNoColon(s);
    ParseIntOfPad2(h);
    ParseIntOfPad2(m);
    ParseIntOfPad2(s);
    ClockValueOfThree(Pad2(h), Pad2(m), Pad2(s), h, m, s);
  }

  lemma PaddedTwoReadsBack(m: int, s: int)
    requires -60 < m < 60 && -60 < s < 60
    ensures Fields(Pad2(m) + ":" + Pad2(s)) == [Pad2(m), Pad2(s)]
    ensures ClockValue(Pad2(m) + ":" + Pad2(s)) == Some(m * 60 + s)
  {
    DecimalNoColon(m);
    DecimalNoColon(s);
    ParseIntOfPad2(m);
    ParseIntOfPad2(s);
    ClockValueOfTwo(Pad2(m), Pad2(s), m, s);
  }

  /**
   * "%02d:%02d:%02d" of hours, minutes and seconds when there is at least
   * one hour, otherwise "%02d:%02d" of minutes and seconds.
   */
  function PaddedClock(ms: int): string {
    PaddedText(Hours(ms), MinutesPart(ms), SecondsPart(ms))
  }

  /**
   * The padded clock has three fields exactly when there is an hour to show,
   * every field at least two characters, and it reads back as the whole
   * seconds of the length, as long as the length is above minus one hour
   * (below that the negative hours are dropped).
   */
  lemma PaddedClockReadsBack(ms: int)
    requires Hours(ms) <= INT_MAX
    ensures |Fields(PaddedClock(ms))| == (if Hours(ms) > 0 then 3 else 2)
    ensures forall k :: 0 <= k < |Fields(PaddedClock(ms))| ==> |Fields(PaddedClock(ms))[k]| >= 2
    ensures Seconds(ms) > -3600 ==> ClockValue(PaddedClock(ms)) == Some(Seconds(ms))
  {
    var h, m, s := Hours(ms), MinutesPart(ms), SecondsPart(ms);
    PartsSum(ms);
    PaddedTextReadsBack(h, m, s);
    assert PaddedClock(ms) == PaddedText(h, m, s);
    if Seconds(ms) > -3600 {
      assert (if h > 0 then h * 3600 + m * 60 + s else m * 60 + s) == Seconds(ms);
    }
  }

  /** The text "%d:%02d:%02d" prints for h, m, s when h > 0, and "%d:%02d" prints for m, s otherwise. */
  function CompactText(h: int, m: int, s: int): string {
    if h > 0 then IntToString(h) + ":" + Pad2(m) + ":" + Pad2(s) else IntToString(m) + ":" + Pad2(s)
  }

  lemma CompactTextReadsBack(h: int, m: int, s: int)
    requires h <= INT_MAX && 0 <= m < 60 && 0 <= s < 60
    ensures |Fields(CompactText(h, m, s))| == (if h > 0 then 3 else 2)
    ensures |Fields(CompactText(h, m, s))[|Fields(CompactText(h, m, s))| - 1]| == 2
    ensures ClockValue(CompactText(h, m, s)) == Some(if h > 0 then h * 3600 + m * 60 + s else m * 60 + s)
  {
    DecimalNoColon(m);
    DecimalNoColon(s);
    Pad2Short(s);
    ParseIntOfPad2(s);
    if h > 0 {
      DecimalNoColon(h);
      ParseIntOfIntToString(h);
      ParseIntOfPad2(m);
      ClockValueOfThree(IntToString(h), Pad2(m), Pad2(s), h, m, s);
      assert CompactText(h, m, s) == IntToString(h) + ":" + Pad2(m) + ":" + Pad2(s);
    } else {
      ParseIntOfIntToString(m);
      ClockValueOfTwo(IntToString(m), Pad2(s), m, s);
      assert CompactText(h, m, s) == IntToString(m) + ":" + Pad2(s);
    }
  }

  /**
   * "0:00" for a length of zero or less; otherwise "%d:%02d:%02d" of hours,
   * minutes and seconds when there is at least one hour, else "%d:%02d".
   */
  function CompactClock(ms: int): string {
    if ms <= 0 then "0:00" else CompactText(Hours(ms), MinutesPart(ms), SecondsPart(ms))
  }

  /**
   * The compact clock reads back as the whole seconds of a positive length
   * and as zero otherwise; it has three fields exactly when there is an hour
   * to show, and its seconds field is two characters.
   */
  lemma CompactClockReadsBack(ms: int)
    requires Hours(ms) <= INT_MAX
    ensures ClockValue(CompactClock(ms)) == Some(if ms <= 0 then 0 else ms / 1000)
    ensures |Fields(CompactClock(ms))| == (if ms > 0 && Hours(ms) > 0 then 3 else 2)
    ensures |Fields(CompactClock(ms))[|Fields(CompactClock(ms))| - 1]| == 2
  {
    if ms <= 0 {
      assert ParseInt("0") == Some(0) by {
        assert DigitsValue("0"[..0]) == 0;
      }
      assert ParseInt("00") == Some(0) by {
        assert DigitsValue("00"[..1]) == 0;
      }
      assert NoColon("0") && NoColon("00");
      assert CompactClock(ms) == "0" + ":" + "00";
      ClockValueOfTwo("0", "00", 0, 0);
    } else {
      var h, m, s := Hours(ms), MinutesPart(ms), SecondsPart(ms);
      PartsSum(ms);
      CompactTextReadsBack(h, m, s);
      assert CompactClock(ms) == CompactText(h, m, s);
      assert (if h > 0 then h * 3600 + m * 60 + s else m * 60 + s) == ms / 1000;
    }
  }
}
