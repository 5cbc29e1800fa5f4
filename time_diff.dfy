/**
 * `timeDiff`: how long until (or since) a time lock expires, split into days,
 * hours and minutes, with the current time passed in as `now`. All times are
 * integer milliseconds.
 */
module TimeDiff {

  const MsPerMinute: int := 60000
  const MsPerHour: int := 3600000
  const MsPerDay: int := 86400000

  /** The returned object: the two phrases and the unlocked flag. */
  datatype Remaining = Remaining(dhm: string, dh: string, unlocked: bool)

  /** The day, hour and minute counts of a split. */
  datatype Parts = Parts(d: int, h: int, m: int)

  // ---------------------------------------------------------------- numerals

  function Digit(n: nat): (c: char)
    requires n < 10
    ensures '0' <= c <= '9'
  {
    "0123456789"[n]
  }

  function DigitValue(c: char): nat
  {
    if '0' <= c <= '9' then (c as int - '0' as int) else 0
  }

  /** A whole number as a template literal prints it. */
  function NatToString(n: nat): (s: string)
    ensures |s| >= 1
    ensures forall i :: 0 <= i < |s| ==> '0' <= s[i] <= '9'
    decreases n
  {
    if n < 10 then [Digit(n)] else NatToString(n / 10) + [Digit(n % 10)]
  }

  /** Reading a string of decimal digits. */
  function ParseNat(s: string): nat
  {
    if s == [] then 0 else ParseNat(s[..|s| - 1]) * 10 + DigitValue(s[|s| - 1])
  }

  /** The printed numeral reads back as the number. */
  lemma {:induction false} ParseNatToString(n: nat)
    ensures ParseNat(NatToString(n)) == n
    decreases n
  {
    var s := NatToString(n);
    if n < 10 {
      assert s[..0] == [];
    } else {
      ParseNatToString(n / 10);
      assert s[..|s| - 1] == NatToString(n / 10);
    }
  }

  function Abs(x: int): (a: nat)
    ensures a == x || a == -x
  {
    if x < 0 then -x else x
  }

  function Word(unlocked: bool): string
  {
    if unlocked then "ago" else "left"
  }

  // ---------------------------------------------------------------- as written

  /**
   * The split as written: floor-divide by a day, then take the hours and the
   * minutes of what remains. For a negative distance the day count rounds down,
   * so hours and minutes count forward from that earlier whole day.
   */
  function SplitDiff(diff: int): (p: Parts)
    ensures 0 <= p.h <= 23 && 0 <= p.m <= 59
    ensures p.d * MsPerDay + p.h * MsPerHour + p.m * MsPerMinute <= diff
    ensures diff < p.d * MsPerDay + p.h * MsPerHour + (p.m + 1) * MsPerMinute
  {
    var d := diff / MsPerDay;
    var rest := diff - d * MsPerDay;
    var h := (rest / MsPerHour) % 24;
    var rest' := rest - h * MsPerHour;
    var m := (rest' / MsPerMinute) % 60;
    Parts(d, h, m)
  }

  /**
   * The two phrases of a split. The short phrase is the long one without its
   * minutes segment, both end in "ago" once unlocked and "left" before, and both
   * start with the day count shown without its sign.
   */
  function Phrases(p: Parts, unlocked: bool): (r: Remaining)
    ensures r.unlocked == unlocked
    ensures var w := if unlocked then "ago" else "left";
            && r.dh == NatToString(Abs(p.d)) + " days " + NatToString(Abs(p.h)) + " hours " + w
            && |r.dh| >= |w| && r.dh[|r.dh| - |w|..] == w
            && r.dhm == r.dh[..|r.dh| - |w|] + NatToString(Abs(p.m)) + " min " + w
            && |NatToString(Abs(p.d))| < |r.dh| < |r.dhm|
            && r.dh[..|NatToString(Abs(p.d))|] == NatToString(Abs(p.d))
            && r.dhm[..|NatToString(Abs(p.d))|] == NatToString(Abs(p.d))
  {
    var days := NatToString(Abs(p.d));
    var head := days + " days " + NatToString(Abs(p.h)) + " hours ";
    var word := Word(unlocked);
    var r := Remaining(head + NatToString(Abs(p.m)) + " min " + word, head + word, unlocked);
    assert r.dh[..|r.dh| - |word|] == head;
    assert head[..|days|] == days;
    r
  }

  /** `timeDiff(inTimeStamp, daysLocked)` read at time `now`. */
  function TimeDiff(now: int, inTimeStamp: int, daysLocked: int): (r: Remaining)
    ensures r.unlocked <==> now - (inTimeStamp + daysLocked * MsPerDay) > 0
  {
    var msLocked := daysLocked * MsPerDay;
    var diff := now - (inTimeStamp + msLocked);
    var unlocked := diff > 0;
    Phrases(SplitDiff(diff), unlocked)
  }

  /** `timeDiff` is the phrases of the floor split of the distance to the end of the lock. */
  lemma TimeDiffIs(now: int, inTimeStamp: int, daysLocked: int)
    ensures var diff := now - (inTimeStamp + daysLocked * MsPerDay);
            TimeDiff(now, inTimeStamp, daysLocked) == Phrases(SplitDiff(diff), diff > 0)
  {
  }

  /** For a split with a non-negative minute count, the minutes segment prints that count. */
  lemma PhrasesMinutes(p: Parts, unlocked: bool)
    requires p.m >= 0
    ensures var r := Phrases(p, unlocked);
            var w := if unlocked then "ago" else "left";
            && r.dh[|r.dh| - |w|..] == w
            && r.dhm == r.dh[..|r.dh| - |w|] + NatToString(p.m) + " min " + w
  {
    assert Abs(p.m) == p.m;
  }

  /** The phrases of `timeDiff` have that shape, with the minutes of the floor split. */
  lemma TimeDiffPhrases(now: int, inTimeStamp: int, daysLocked: int)
    ensures var r := TimeDiff(now, inTimeStamp, daysLocked);
            var p := SplitDiff(now - (inTimeStamp + daysLocked * MsPerDay));
            var w := if r.unlocked then "ago" else "left";
            && r.dh[|r.dh| - |w|..] == w
            && r.dhm == r.dh[..|r.dh| - |w|] + NatToString(p.m) + " min " + w
  {
    var diff := now - (inTimeStamp + daysLocked * MsPerDay);
    TimeDiffIs(now, inTimeStamp, daysLocked);
    PhrasesMinutes(SplitDiff(diff), diff > 0);
  }

  /** The numerals the worked examples print. */
  lemma SmallNumerals()
    ensures NatToString(0) == "0" && NatToString(1) == "1"
    ensures NatToString(23) == "23" && NatToString(59) == "59"
  {
    assert NatToString(23) == NatToString(2) + [Digit(3)];
    assert NatToString(59) == NatToString(5) + [Digit(9)];
  }

  /** `timeDiff` at a given distance from the end of the lock. */
  lemma TimeDiffAt(inTimeStamp: int, daysLocked: int, diff: int)
    ensures TimeDiff(inTimeStamp + daysLocked * MsPerDay + diff, inTimeStamp, daysLocked)
            == Phrases(SplitDiff(diff), diff > 0)
  {
    var now := inTimeStamp + daysLocked * MsPerDay + diff;
    assert now - (inTimeStamp + daysLocked * MsPerDay) == diff;
  }

  /** One millisecond before unlocking, the phrase reads "1 days 23 hours 59 min left". */
  lemma TimeDiffOneMsBefore(inTimeStamp: int, daysLocked: int)
    ensures TimeDiff(inTimeStamp + daysLocked * MsPerDay + -1, inTimeStamp, daysLocked)
            == Remaining("1 days 23 hours 59 min left", "1 days 23 hours left", false)
  {
    TimeDiffAt(inTimeStamp, daysLocked, -1);
    SplitOneMsBefore();
    PhrasesOneMsBefore();
  }

  /** The as-written split of -1 ms: day -1, then 23 hours 59 minutes forward. */
  lemma SplitOneMsBefore()
    ensures SplitDiff(-1) == Parts(-1, 23, 59)
  {
  }

  /** The phrases of that split. */
  lemma PhrasesOneMsBefore()
    ensures Phrases(Parts(-1, 23, 59), false) == Remaining("1 days 23 hours 59 min left", "1 days 23 hours left", false)
  {
    SmallNumerals();
    var head := NatToString(Abs(-1)) + " days " + NatToString(Abs(23)) + " hours ";
    assert head == "1 days 23 hours ";
    assert head + "left" == "1 days 23 hours left";
    assert head + "59" + " min " + "left" == "1 days 23 hours 59 min left";
  }

  /** The long phrase of the as-written split of -1 hour. */
  lemma PhrasesOneHourBefore()
    ensures Phrases(Parts(-1, 23, 0), false).dhm == "1 days 23 hours 0 min left"
  {
    SmallNumerals();
    var head := NatToString(Abs(-1)) + " days " + NatToString(Abs(23)) + " hours ";
    assert head == "1 days 23 hours ";
    assert head + "0" + " min " + "left" == "1 days 23 hours 0 min left";
  }

  // ---------------------------------------------------------------- corrected

  /** The split of the distance's magnitude: whole days, then hours, then minutes of it. */
  function SplitMagnitude(diff: int): (p: Parts)
    ensures p.d >= 0 && 0 <= p.h <= 23 && 0 <= p.m <= 59
    ensures p.d * MsPerDay + p.h * MsPerHour + p.m * MsPerMinute <= Abs(diff)
    ensures Abs(diff) < p.d * MsPerDay + p.h * MsPerHour + (p.m + 1) * MsPerMinute
  {
    var a := Abs(diff);
    var d := a / MsPerDay;
    var h := (a - d * MsPerDay) / MsPerHour;
    var m := (a - d * MsPerDay - h * MsPerHour) / MsPerMinute;
    Parts(d, h, m)
  }

  /** `timeDiff` with the phrase built from the magnitude of the distance. */
  function TimeDiffCorrected(now: int, inTimeStamp: int, daysLocked: int): (r: Remaining)
    ensures r.unlocked <==> now - (inTimeStamp + daysLocked * MsPerDay) > 0
  {
    var diff := now - (inTimeStamp + daysLocked * MsPerDay);
    Phrases(SplitMagnitude(diff), diff > 0)
  }

  /** Once unlocked the two agree; they differ only while the lock still runs. */
  lemma CorrectedAgreesWhenUnlocked(now: int, inTimeStamp: int, daysLocked: int)
    requires now - (inTimeStamp + daysLocked * MsPerDay) >= 0
    ensures TimeDiffCorrected(now, inTimeStamp, daysLocked) == TimeDiff(now, inTimeStamp, daysLocked)
  {
    var diff := now - (inTimeStamp + daysLocked * MsPerDay);
    TimeDiffIs(now, inTimeStamp, daysLocked);
    assert TimeDiffCorrected(now, inTimeStamp, daysLocked) == Phrases(SplitMagnitude(diff), diff > 0);
    SplitsAgreeForward(diff);
  }

  /** For a distance that is not negative, both splits are the same. */
  lemma SplitsAgreeForward(diff: int)
    requires diff >= 0
    ensures SplitMagnitude(diff) == SplitDiff(diff)
  {
    assert Abs(diff) == diff;
    var d := diff / MsPerDay;
    var rest := diff - d * MsPerDay;
    assert 0 <= rest < MsPerDay;
    assert 0 <= rest / MsPerHour < 24;
    var rest' := rest - rest / MsPerHour * MsPerHour;
    assert 0 <= rest' / MsPerMinute < 60;
    assert SplitDiff(diff) == Parts(d, rest / MsPerHour, rest' / MsPerMinute);
  }

  /**
   * The magnitude split in closed form: the whole days of the distance, the whole
   * hours left over from the days, the whole minutes left over from the hours.
   */
  lemma MagnitudeParts(diff: int)
    ensures var a := Abs(diff);
            SplitMagnitude(diff) == Parts(a / MsPerDay, a % MsPerDay / MsPerHour, a % MsPerHour / MsPerMinute)
  {
    var a := Abs(diff);
    var rd := a % MsPerDay;
    assert a - a / MsPerDay * MsPerDay == rd;
    assert rd - rd / MsPerHour * MsPerHour == rd % MsPerHour;
    HourOfDay(a);
  }

  /** Whole days are whole hours: what is left over from the days, modulo an hour, is the distance modulo an hour. */
  lemma HourOfDay(a: int)
    requires a >= 0
    ensures a % MsPerDay % MsPerHour == a % MsPerHour
  {
    var q, rd := a / 86400000, a % 86400000;
    var h, rh := rd / 3600000, rd % 3600000;
    assert a == q * 86400000 + rd;
    assert rd == h * 3600000 + rh;
    assert a == (24 * q + h) * 3600000 + rh;
  }


  /**
   * The corrected phrases print the whole days, the remaining whole hours and the
   * remaining whole minutes of the distance, whichever side of the end of the
   * lock `now` lies on.
   */
  lemma TimeDiffCorrectedPhrases(now: int, inTimeStamp: int, daysLocked: int)
    ensures var diff := now - (inTimeStamp + daysLocked * MsPerDay);
            var a := Abs(diff);
            var r := TimeDiffCorrected(now, inTimeStamp, daysLocked);
            var w := if diff > 0 then "ago" else "left";
            var head := NatToString(a / MsPerDay) + " days " + NatToString(a % MsPerDay / MsPerHour) + " hours ";
            && r.dh == head + w
            && r.dhm == head + NatToString(a % MsPerHour / MsPerMinute) + " min " + w
  {
    var diff := now - (inTimeStamp + daysLocked * MsPerDay);
    assert TimeDiffCorrected(now, inTimeStamp, daysLocked) == Phrases(SplitMagnitude(diff), diff > 0);
    MagnitudeParts(diff);
  }

  /** One hour before unlocking the source shows "1 days 23 hours 0 min left". */
  lemma TimeDiffOneHourBefore(inTimeStamp: int, daysLocked: int)
    ensures TimeDiff(inTimeStamp + daysLocked * MsPerDay + -MsPerHour, inTimeStamp, daysLocked).dhm
            == "1 days 23 hours 0 min left"
  {
    TimeDiffAt(inTimeStamp, daysLocked, -MsPerHour);
    assert SplitDiff(-MsPerHour) == Parts(-1, 23, 0);
    PhrasesOneHourBefore();
  }

  /** One hour before unlocking the corrected phrase is "0 days 1 hours 0 min left". */
  lemma CorrectedOneHourBefore(inTimeStamp: int, daysLocked: int)
    ensures TimeDiffCorrected(inTimeStamp + daysLocked * MsPerDay - MsPerHour, inTimeStamp, daysLocked).dhm
            == "0 days 1 hours 0 min left"
  {
    var now := inTimeStamp + daysLocked * MsPerDay - MsPerHour;
    assert now - (inTimeStamp + daysLocked * MsPerDay) == -MsPerHour;
    assert TimeDiffCorrected(now, inTimeStamp, daysLocked) == Phrases(SplitMagnitude(-MsPerHour), false);
    assert SplitMagnitude(-MsPerHour) == Parts(0, 1, 0);
    PhrasesCorrectedOneHourBefore();
  }

  /** The long phrase of the magnitude split of -1 hour. */
  lemma PhrasesCorrectedOneHourBefore()
    ensures Phrases(Parts(0, 1, 0), false).dhm == "0 days 1 hours 0 min left"
  {
    SmallNumerals();
    var head := NatToString(Abs(0)) + " days " + NatToString(Abs(1)) + " hours ";
    assert head == "0 days 1 hours ";
    assert head + "0" + " min " + "left" == "0 days 1 hours 0 min left";
  }
}
