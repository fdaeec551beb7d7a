/** The evidence view's clock: the text printed beside an event and the parser that reads such text back. */
module DisputeEvidence {
  import opened Arithmetic
  import opened Digits
  import opened Tables

  // ---- printing -----------------------------------------------------------

  /** Milliseconds to the nearest second, halves upwards. */
  function Rounded(ms: int): int {
    (ms + 500) / 1000
  }

  /** An integer's decimal text. */
  function Decimal(n: nat): (text: string)
    ensures |text| > 0
  {
    if n < 10 then [Digit(n)] else Decimal(n / 10) + [Digit(n)]
  }

  function Pad(n: nat): string
    requires n < 100
  {
    [Digit(n / 10), Digit(n)]
  }

  function Abs(n: int): nat {
    if n < 0 then -n else n
  }

  /** The part after the sign, for a number of seconds. */
  function Clock(seconds: nat): string {
    var h, m, s := seconds / 3600, seconds % 3600 / 60, seconds % 60;
    (if h != 0 then Decimal(h) + ":" + Pad(m) else Decimal(m)) + ":" + Pad(s)
  }

  const MINUS := '\U{2212}'

  /** An event's time relative to the start of the match, both in milliseconds. */
  function Relative(at: int, start: int): string {
    var diff := Rounded(at - start);
    [if diff < 0 then MINUS else '+'] + Clock(Abs(diff))
  }

  // ---- parsing ------------------------------------------------------------

  predicate IsDigit(c: char) {
    '0' <= c <= '9'
  }

  function Value(c: char): nat
    requires IsDigit(c)
  {
    (c - '0') as nat
  }

  predicate TwoDigits(text: string, i: nat) {
    i + 1 < |text| && IsDigit(text[i]) && IsDigit(text[i + 1])
  }

  function TwoValue(text: string, i: nat): nat
    requires TwoDigits(text, i)
  {
    10 * Value(text[i]) + Value(text[i + 1])
  }

  predicate ColonAndTwo(text: string, i: nat) {
    i < |text| && text[i] == ':' && TwoDigits(text, i + 1)
  }

  /** How many digits the first group takes at `i`: two if that leads to a match, else one; 0 for no match. */
  function Width(text: string, i: nat): nat {
    if TwoDigits(text, i) && ColonAndTwo(text, i + 2) then 2
    else if i < |text| && IsDigit(text[i]) && ColonAndTwo(text, i + 1) then 1
    else 0
  }

  /** Two groups read as minutes and seconds, three as hours, minutes and seconds. */
  function Seconds(text: string, i: nat): nat
    requires Width(text, i) > 0
  {
    var w := Width(text, i);
    var a := if w == 2 then TwoValue(text, i) else Value(text[i]);
    var b := TwoValue(text, i + w + 1);
    if ColonAndTwo(text, i + w + 3) then 3600 * a + 60 * b + TwoValue(text, i + w + 4) else 60 * a + b
  }

  /** The leftmost match from `i` on. */
  function MomentFrom(text: string, i: nat): Option<nat>
    requires i <= |text|
    decreases |text| - i
  {
    if i == |text| then None
    else if Width(text, i) > 0 then Some(Seconds(text, i))
    else MomentFrom(text, i + 1)
  }

  function MomentSeconds(text: string): Option<nat> {
    MomentFrom(text, 0)
  }

  // ---- the round trip -----------------------------------------------------

  lemma {:induction false} DecimalDigits(n: nat)
    ensures forall i :: 0 <= i < |Decimal(n)| ==> IsDigit(Decimal(n)[i])
    ensures var k := |Decimal(n)|; Value(Decimal(n)[k - 1]) == n % 10
    ensures n >= 10 <==> |Decimal(n)| >= 2
    ensures n >= 10 ==> var k := |Decimal(n)|; Value(Decimal(n)[k - 2]) == n / 10 % 10
  {
    if n >= 10 {
      DecimalDigits(n / 10);
    }
  }

  /** In digits, a colon and two more digits, the leftmost match takes the last one or two before the colon. */
  lemma {:induction false} MatchesLastTwo(text: string, i: nat, colon: nat)
    requires i < colon < |text| && ColonAndTwo(text, colon)
    requires forall k :: i <= k < colon ==> IsDigit(text[k])
    ensures var from := if colon - i == 1 then i else colon - 2;
            Width(text, from) == (if colon - i == 1 then 1 else 2) && MomentFrom(text, i) == Some(Seconds(text, from))
    decreases colon - i
  {
    if colon - i > 2 {
      assert !IsDigit(':');
      MatchesLastTwo(text, i + 1, colon);
    }
  }

  /** What reading a printed time gives, whatever follows it. */
  function ReadBack(seconds: nat, rest: string): nat {
    if seconds < 3600 && ColonAndTwo(rest, 0)
    then seconds / 60 * 3600 + seconds % 60 * 60 + TwoValue(rest, 1)
    else seconds % 360000
  }

  lemma PadReads(text: string, i: nat, n: nat)
    requires n < 100 && i + 2 <= |text| && text[i..i + 2] == Pad(n)
    ensures TwoDigits(text, i) && TwoValue(text, i) == n
  {
    assert text[i] == Pad(n)[0] && text[i + 1] == Pad(n)[1];
  }

  /** The last one or two digits before the colon are the number's. */
  lemma LastDigitsRead(text: string, n: nat, colon: nat)
    requires 1 < colon < |text| && text[1..colon] == Decimal(n)
    ensures forall k :: 1 <= k < colon ==> IsDigit(text[k])
    ensures colon > 2 <==> n >= 10
    ensures Value(text[colon - 1]) == n % 10
    ensures n >= 10 ==> 10 * Value(text[colon - 2]) + Value(text[colon - 1]) == n % 100
  {
    hide Decimal, Value;
    DecimalDigits(n);
    var digits := Decimal(n);
    forall k | 1 <= k < colon
      ensures text[k] == digits[k - 1]
    {
      assert text[k] == text[1..colon][k - 1];
    }
    if n >= 10 {
      assert 10 * (n / 10 % 10) + n % 10 == n % 100;
    }
  }

  /** A sign, a number's digits, a colon and two more: the groups are the number's last two digits and what follows. */
  lemma NumberReads(text: string, n: nat, colon: nat)
    requires 1 < colon < |text| && !IsDigit(text[0]) && text[1..colon] == Decimal(n) && ColonAndTwo(text, colon)
    ensures MomentSeconds(text)
            == Some(var a, b := n % 100, TwoValue(text, colon + 1);
                    if ColonAndTwo(text, colon + 3) then 3600 * a + 60 * b + TwoValue(text, colon + 4) else 60 * a + b)
  {
    hide Decimal, Value;
    LastDigitsRead(text, n, colon);
    MatchesLastTwo(text, 1, colon);
    assert MomentSeconds(text) == MomentFrom(text, 1);
  }

  /**
   Reading back a printed time, through the leftmost match and both printed shapes,
   gives its seconds modulo a hundred hours; only text that itself goes on with a colon
   and two digits can be taken for part of the shorter shape.
   */
  lemma ClockReadsBack(sign: char, seconds: nat, rest: string)
    requires !IsDigit(sign)
    ensures MomentSeconds([sign] + Clock(seconds) + rest) == Some(ReadBack(seconds, rest))
  {
    hide Decimal, MomentSeconds, Pad;
    var h, m, s := seconds / 3600, seconds % 3600 / 60, seconds % 60;
    if h != 0 {
      LongReadsBack([sign] + Clock(seconds) + rest, sign, h, m, s, rest);
      HoursWrap(seconds);
    } else {
      ShortReadsBack([sign] + Clock(seconds) + rest, sign, m, s, rest);
    }
  }

  lemma HoursWrap(seconds: nat)
    ensures seconds % 360000 == seconds / 3600 % 100 * 3600 + seconds % 3600 / 60 * 60 + seconds % 60
  {
    var h, r := seconds / 3600, seconds % 3600;
    assert seconds == 3600 * h + r && h == 100 * (h / 100) + h % 100;
    RemainderIs(seconds, 360000, h / 100, 3600 * (h % 100) + r);
    assert r == 60 * (r / 60) + r % 60;
    RemainderIs(seconds, 60, 60 * h + r / 60, r % 60);
  }

  lemma LongReadsBack(text: string, sign: char, h: nat, m: nat, s: nat, rest: string)
    requires !IsDigit(sign) && m < 60 && s < 60
    requires text == [sign] + (Decimal(h) + ":" + Pad(m) + ":" + Pad(s)) + rest
    ensures MomentSeconds(text) == Some(h % 100 * 3600 + m * 60 + s)
  {
    hide Decimal, MomentSeconds, TwoDigits, TwoValue, Pad;
    var colon := 1 + |Decimal(h)|;
    assert |Pad(m)| == 2 && |Pad(s)| == 2 by { PadLength(m); PadLength(s); }
    assert text[1..colon] == Decimal(h) && text[colon] == ':' && text[colon + 3] == ':';
    assert text[colon + 1..colon + 3] == Pad(m) && text[colon + 4..colon + 6] == Pad(s);
    PadReads(text, colon + 1, m);
    PadReads(text, colon + 4, s);
    NumberReads(text, h, colon);
  }

  lemma PadLength(n: nat)
    requires n < 100
    ensures |Pad(n)| == 2
  {
  }

  lemma ShortReadsBack(text: string, sign: char, m: nat, s: nat, rest: string)
    requires !IsDigit(sign) && m < 60 && s < 60
    requires text == [sign] + (Decimal(m) + ":" + Pad(s)) + rest
    ensures MomentSeconds(text)
            == Some(if ColonAndTwo(rest, 0) then m * 3600 + s * 60 + TwoValue(rest, 1) else m * 60 + s)
  {
    hide Decimal, MomentSeconds, Pad, TwoValue;
    var colon := 1 + |Decimal(m)|;
    PadLength(s);
    assert text[1..colon] == Decimal(m) && text[colon] == ':';
    assert text[colon + 1..colon + 3] == Pad(s) && text[colon + 3..] == rest;
    PadReads(text, colon + 1, s);
    SuffixReads(text, colon + 3, rest);
    NumberReads(text, m, colon);
  }

  lemma SuffixReads(text: string, i: nat, rest: string)
    requires i <= |text| && text[i..] == rest
    ensures ColonAndTwo(text, i) <==> ColonAndTwo(rest, 0)
    ensures ColonAndTwo(rest, 0) ==> TwoValue(text, i + 1) == TwoValue(rest, 1)
  {
    assert forall k :: 0 <= k < |rest| ==> text[i + k] == rest[k];
    assert |text| == i + |rest|;
  }

  /**
   The printed time of an event reads back as its distance from the start, to the
   nearest second, exactly when that is less than a hundred hours.
   */
  lemma RelativeReadsBack(at: int, start: int)
    ensures var seconds := Abs(Rounded(at - start));
            && MomentSeconds(Relative(at, start)) == Some(seconds % 360000)
            && (MomentSeconds(Relative(at, start)) == Some(seconds) <==> seconds < 360000)
            && -500 <= 1000 * Rounded(at - start) - (at - start) <= 500
  {
    hide MomentSeconds, Clock;
    var diff := Rounded(at - start);
    var sign := if diff < 0 then MINUS else '+';
    ClockReadsBack(sign, Abs(diff), "");
    assert [sign] + Clock(Abs(diff)) + "" == Relative(at, start);
  }

  /** The sign says which side of the start the event is on; half a second before it still prints as after. */
  lemma SignTellsBefore(at: int, start: int)
    ensures |Relative(at, start)| > 0
    ensures Relative(at, start)[0] == MINUS <==> at < start - 500
    ensures Relative(at, start)[0] == '+' <==> at >= start - 500
  {
    hide Clock;
  }

  /** Sign and time together give back the event's signed distance, under a hundred hours. */
  lemma SignedReadsBack(at: int, start: int)
    requires Abs(Rounded(at - start)) < 360000
    ensures MomentSeconds(Relative(at, start)).Some? && |Relative(at, start)| > 0
    ensures var seconds: int := MomentSeconds(Relative(at, start)).value;
            Rounded(at - start) == if Relative(at, start)[0] == MINUS then -seconds else seconds
  {
    hide Clock, MomentSeconds;
    RelativeReadsBack(at, start);
    SignTellsBefore(at, start);
  }
}
