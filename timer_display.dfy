/** The text `updateTimerDisplay` writes into the countdown element: whole minutes
    and remaining seconds of `timeLeft`, each left-padded with "0" to two characters
    and joined by ":". */
module TimerDisplay {
  import opened Text
  import opened Wrappers

  /** `n.toString().padStart(2, "0")`, written out for a string that is never empty
      (`Pad2IsPadStart` shows it is the general `PadStart`). */
  function Pad2(n: nat): (s: string)
    ensures |s| >= 2 && IsDigits(s) && DigitsValue(s) == n
    ensures n < 100 ==> |s| == 2
    ensures n >= 10 ==> s == NatToString(n)
  {
    var digits := NatToString(n);
    NatToStringLength(n);
    if |digits| < 2 then
      LeadingZeros("0", digits);
      "0" + digits
    else digits
  }

  lemma Pad2IsPadStart(n: nat)
    ensures Pad2(n) == PadStart(NatToString(n), 2, '0')
  {
  }

  /** The countdown text for `timeLeft` seconds (nonnegative: the scene ends the game at 0):
      a minutes field of at least two digits, ":" and a seconds field of exactly two
      digits, denoting the whole minutes and the remaining seconds. */
  function TimerText(timeLeft: nat): (s: string)
    ensures |s| >= 5 && s[|s| - 3] == ':'
    ensures |MinutesPart(s)| >= 2 && IsDigits(MinutesPart(s))
    ensures DigitsValue(MinutesPart(s)) == timeLeft / 60
    ensures |SecondsPart(s)| == 2 && IsDigits(SecondsPart(s))
    ensures DigitsValue(SecondsPart(s)) == timeLeft % 60 < 60
  {
    var m, sec := Pad2(timeLeft / 60), Pad2(timeLeft % 60);
    var s := m + ":" + sec;
    assert MinutesPart(s) == m;
    assert SecondsPart(s) == sec;
    s
  }

  /** The part of a countdown text before its ":" (everything but the last three characters). */
  function MinutesPart(s: string): string
    requires |s| >= 3
  {
    s[..|s| - 3]
  }

  /** The last two characters of a countdown text. */
  function SecondsPart(s: string): string
    requires |s| >= 3
  {
    s[|s| - 2..]
  }

  /** Reads a countdown text back: digits, ":", then exactly two digits. */
  function ParseTimerText(s: string): Option<nat> {
    if |s| < 4 || s[|s| - 3] != ':' then None
    else if IsDigits(MinutesPart(s)) && IsDigits(SecondsPart(s)) then
      Some(DigitsValue(MinutesPart(s)) * 60 + DigitsValue(SecondsPart(s)))
    else None
  }

  /** Reading the countdown text back gives the number of seconds it was made from. */
  lemma TimerTextRoundTrip(timeLeft: nat)
    ensures ParseTimerText(TimerText(timeLeft)) == Some(timeLeft)
  {
    var s := TimerText(timeLeft);
    var minutes, seconds := DigitsValue(MinutesPart(s)), DigitsValue(SecondsPart(s));
    assert minutes * 60 + seconds == timeLeft;
    assert ParseTimerText(s) == Some(minutes * 60 + seconds);
  }

  /** Different numbers of seconds show different texts. */
  lemma TimerTextInjective(a: nat, b: nat)
    requires TimerText(a) == TimerText(b)
    ensures a == b
  {
    TimerTextRoundTrip(a);
    TimerTextRoundTrip(b);
  }

  /** Under an hour the text is exactly five characters, "mm:ss". */
  lemma TimerTextUnderAnHour(timeLeft: nat)
    requires timeLeft < 3600
    ensures |TimerText(timeLeft)| == 5
  {
  }

  /** The scene starts with 45 seconds, shown as "00:45". */
  lemma InitialText()
    ensures TimerText(45) == "00:45"
  {
  }

  /** The tick that ends the game shows "00:00". */
  lemma FinalText()
    ensures TimerText(0) == "00:00"
  {
  }
}
