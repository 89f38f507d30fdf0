/** The room timer of the client (client/src/components/room/live-room-page.tsx): printing and parsing durations. */
module Timer {
  import opened Base
  import opened Text

  /** Two digits at least. */
  function TwoDigits(n: nat): (s: string)
    ensures s != [] && forall i :: 0 <= i < |s| ==> IsDigit(s[i])
  {
    var digits := Decimal(n);
    if |digits| < 2 then ['0'] + digits else digits
  }

  function FormatTimer(totalSeconds: int): string {
    var safeSeconds: nat := if totalSeconds > 0 then totalSeconds else 0;
    var hours := safeSeconds / 3600;
    var minutes := safeSeconds % 3600 / 60;
    var seconds := safeSeconds % 60;
    TwoDigits(hours) + ":" + TwoDigits(minutes) + ":" + TwoDigits(seconds)
  }

  /** The blanks a script engine skips before a number. */
  predicate IsScriptSpace(c: char) {
    c == '\U{FEFF}' || (c != '\U{0085}' && IsSpace(c))
  }

  function SkipBlanks(s: string): string {
    if s != [] && IsScriptSpace(s[0]) then SkipBlanks(s[1..]) else s
  }

  function LeadingDigits(s: string): (d: string)
    ensures d <= s && forall i :: 0 <= i < |d| ==> IsDigit(d[i])
  {
    if s != [] && IsDigit(s[0]) then [s[0]] + LeadingDigits(s[1..]) else []
  }

  /** Number.parseInt in base ten: blanks, a sign, then digits up to the first other character; None is NaN. */
  function ParseInt(raw: string): Option<int> {
    var s := SkipBlanks(raw);
    var negative := s != [] && s[0] == '-';
    var unsigned := if s != [] && (s[0] == '-' || s[0] == '+') then s[1..] else s;
    var digits := LeadingDigits(unsigned);
    if digits == [] then None
    else
      var size: int := DigitsValue(digits);
      Some(if negative then -size else size)
  }

  function ParseDuration(value: string): int {
    var parts := Split(value, ':');
    if exists i :: 0 <= i < |parts| && ParseInt(parts[i]).None? then 0
    else if |parts| == 3 then
      ParseInt(parts[0]).value * 3600 + ParseInt(parts[1]).value * 60 + ParseInt(parts[2]).value
    else if |parts| == 2 then
      ParseInt(parts[0]).value * 60 + ParseInt(parts[1]).value
    else 0
  }

  lemma {:induction false} AllLeadingDigits(s: string)
    requires forall i :: 0 <= i < |s| ==> IsDigit(s[i])
    ensures LeadingDigits(s) == s
  {
    if s != [] {
      AllLeadingDigits(s[1..]);
    }
  }

  lemma {:induction false} ValueIgnoresLeadingZero(s: string)
    requires forall i :: 0 <= i < |s| ==> IsDigit(s[i])
    ensures DigitsValue(['0'] + s) == DigitsValue(s)
  {
    var padded := ['0'] + s;
    if s == [] {
      assert padded[..0] == [];
    } else {
      ValueIgnoresLeadingZero(s[..|s| - 1]);
      assert padded[..|s|] == ['0'] + s[..|s| - 1];
      assert padded[|s|] == s[|s| - 1];
    }
  }

  /** A padded number parses to itself. */
  lemma ParseOfTwoDigits(n: nat)
    ensures ParseInt(TwoDigits(n)) == Some(n)
  {
    var s := TwoDigits(n);
    assert IsDigit(s[0]);
    assert !IsScriptSpace(s[0]);
    AllLeadingDigits(s);
    ValueOfDecimal(n);
    ValueIgnoresLeadingZero(Decimal(n));
  }

  /** The printed form splits back into its three fields. */
  lemma SplitOfTimer(h: string, m: string, s: string)
    requires ':' !in h && ':' !in m && ':' !in s
    ensures Split(h + ":" + m + ":" + s, ':') == [h, m, s]
  {
    assert h + ":" + m + ":" + s == h + [':'] + (m + [':'] + s);
    SplitAtFirst(h, m + [':'] + s, ':');
    SplitAtFirst(m, s, ':');
    SplitOfPiece(s, ':');
  }

  lemma MixedRadix(n: nat)
    ensures n / 3600 * 3600 + n % 3600 / 60 * 60 + n % 60 == n
  {
  }

  /** Parsing what was printed gives the number back; a negative number was printed as zero. */
  lemma TimerRoundTrip(n: int)
    ensures ParseDuration(FormatTimer(n)) == if n > 0 then n else 0
  {
    var t: nat := if n > 0 then n else 0;
    var h, m, s := TwoDigits(t / 3600), TwoDigits(t % 3600 / 60), TwoDigits(t % 60);
    SplitOfTimer(h, m, s);
    ParseOfTwoDigits(t / 3600);
    ParseOfTwoDigits(t % 3600 / 60);
    ParseOfTwoDigits(t % 60);
    hide Split, TwoDigits, ParseInt;
    var parts := Split(FormatTimer(n), ':');
    assert parts == [h, m, s];
    MixedRadix(t);
  }

  /** Different durations never print alike. */
  lemma TimerIsInjective(m: nat, n: nat)
    requires FormatTimer(m) == FormatTimer(n)
    ensures m == n
  {
    TimerRoundTrip(m);
    TimerRoundTrip(n);
  }

  lemma FieldsOf(hours: nat, minutes: nat, seconds: nat)
    requires minutes < 60 && seconds < 60
    ensures var n := hours * 3600 + minutes * 60 + seconds;
            n / 3600 == hours && n % 3600 / 60 == minutes && n % 60 == seconds
  {
  }

  /** The printed fields are hours, minutes and seconds in that order, hours growing past two digits if need be. */
  lemma TimerFields(hours: nat, minutes: nat, seconds: nat)
    requires minutes < 60 && seconds < 60
    ensures FormatTimer(hours * 3600 + minutes * 60 + seconds)
         == TwoDigits(hours) + ":" + TwoDigits(minutes) + ":" + TwoDigits(seconds)
  {
    hide TwoDigits;
    FieldsOf(hours, minutes, seconds);
  }
}
