/**
 * The relative-time label of a gig (`formatTime`, app/api/gigs/route.ts).
 *
 * The elapsed time is `now - createdAt` in integer milliseconds; `now` is a
 * parameter instead of a clock reading. Every `Math.floor(a / b)` of the
 * source has a positive divisor, so it is Dafny's `a / b`.
 */
module RelativeTime {
  import opened Text
  import opened Wrappers

  datatype TimeUnit = Minute | Hour | Day | Month

  /** What a label says: "just now", or a whole count of some unit. */
  datatype Elapsed = JustNow | Ago(count: nat, unit: TimeUnit)

  const SecondsPerMinute: int := 60
  const SecondsPerHour: int := 60 * 60
  const SecondsPerDay: int := 24 * 60 * 60
  const SecondsPerMonth: int := 30 * 24 * 60 * 60

  /** Whole seconds elapsed, rounded towards minus infinity. */
  function ElapsedSeconds(diffMs: int): int { diffMs / 1000 }

  /** The tier chain of `formatTime`: each tier floor-divides the previous
      count and is taken when the count is below the tier's threshold. */
  function Classify(diffMs: int): (e: Elapsed)
    ensures e.Ago? ==> e.count >= 1
    ensures e.Ago? && e.unit == Minute ==> e.count < 60
    ensures e.Ago? && e.unit == Hour ==> e.count < 24
    ensures e.Ago? && e.unit == Day ==> e.count < 30
  {
    var seconds := ElapsedSeconds(diffMs);
    if seconds < 60 then JustNow
    else
      var minutes := seconds / 60;
      if minutes < 60 then Ago(minutes, Minute)
      else
        var hours := minutes / 60;
        if hours < 24 then Ago(hours, Hour)
        else
          var days := hours / 24;
          if days < 30 then Ago(days, Day)
          else Ago(days / 30, Month)
  }

  function UnitName(u: TimeUnit): string {
    match u
    case Minute => "minute"
    case Hour => "hour"
    case Day => "day"
    case Month => "month"
  }

  /** The label text; the unit takes an "s" only when the count exceeds 1. */
  function Render(e: Elapsed): string {
    match e
    case JustNow => "just now"
    case Ago(n, u) => NatToString(n) + UnitTail(u, n > 1)
  }

  /** " <unit> ago" or " <unit>s ago". */
  function UnitTail(u: TimeUnit, plural: bool): string {
    " " + UnitName(u) + (if plural then "s" else "") + " ago"
  }

  /** `formatTime(createdAt)` read at time `now`. */
  function FormatTime(now: int, createdAt: int): string {
    Render(Classify(now - createdAt))
  }

  // ------------------------------------------------------------ parsing

  /** The unit word of a label tail " <unit>[s] ago", with whether it is plural. */
  function ParseUnitTail(t: string): Option<(TimeUnit, bool)> {
    if t == " minute ago" then Some((Minute, false))
    else if t == " minutes ago" then Some((Minute, true))
    else if t == " hour ago" then Some((Hour, false))
    else if t == " hours ago" then Some((Hour, true))
    else if t == " day ago" then Some((Day, false))
    else if t == " days ago" then Some((Day, true))
    else if t == " month ago" then Some((Month, false))
    else if t == " months ago" then Some((Month, true))
    else None
  }

  /** Reads a label back; the plural "s" must agree with the count. */
  function Parse(s: string): Option<Elapsed> {
    if s == "just now" then Some(JustNow)
    else
      var k := LeadingDigits(s);
      if k == 0 then None
      else
        var n := DigitsValue(s[..k]);
        match ParseUnitTail(s[k..])
        case None => None
        case Some((u, plural)) => if plural == (n > 1) then Some(Ago(n, u)) else None
  }

  lemma ParseUnitTailOfUnitTail(u: TimeUnit, plural: bool)
    ensures ParseUnitTail(UnitTail(u, plural)) == Some((u, plural))
  {
    match u
    case Minute =>
      assert UnitTail(u, plural) == if plural then " minutes ago" else " minute ago";
    case Hour =>
      assert UnitTail(u, plural) == if plural then " hours ago" else " hour ago";
    case Day =>
      assert UnitTail(u, plural) == if plural then " days ago" else " day ago";
    case Month =>
      assert UnitTail(u, plural) == if plural then " months ago" else " month ago";
  }

  /** Every label reads back as what it says, so distinct tiers and counts
      never share a label. */
  lemma ParseRender(e: Elapsed)
    ensures Parse(Render(e)) == Some(e)
  {
    match e
    case JustNow =>
    case Ago(n, u) =>
      var d := NatToString(n);
      var tail := UnitTail(u, n > 1);
      var s := Render(e);
      assert s == d + tail;
      assert s[0] == d[0] && IsDigit(d[0]);
      assert s != "just now";
      assert tail[0] == ' ';
      LeadingDigitsOfNumeral(d, tail);
      assert s[..|d|] == d;
      assert s[|d|..] == tail;
      DigitsValueOfNatToString(n);
      ParseUnitTailOfUnitTail(u, n > 1);
  }

  lemma RenderInjective(e1: Elapsed, e2: Elapsed)
    ensures Render(e1) == Render(e2) ==> e1 == e2
  {
    ParseRender(e1);
    ParseRender(e2);
  }

  // ------------------------------------------------------ the tiers

  /** "just now" exactly when fewer than 60 whole seconds have elapsed,
      which includes every creation time in the future. */
  lemma JustNowIff(now: int, createdAt: int)
    ensures FormatTime(now, createdAt) == "just now" <==> (now - createdAt) / 1000 < 60
    ensures now < createdAt ==> FormatTime(now, createdAt) == "just now"
  {
    RenderInjective(Classify(now - createdAt), JustNow);
  }

  /** Nested floor divisions by the tier constants compose: counting whole
      minutes, then whole hours of them, is counting whole hours. */
  lemma FloorDivDiv(s: int)
    ensures s / 60 / 60 == s / SecondsPerHour
    ensures s / 3600 / 24 == s / SecondsPerDay
    ensures s / 86400 / 30 == s / SecondsPerMonth
  {
  }

  /** The tier taken, by elapsed whole seconds: the tiers are disjoint and
      cover every elapsed time, and there is no tier above months. */
  lemma TierBySeconds(diffMs: int)
    ensures var s := ElapsedSeconds(diffMs);
      && (Classify(diffMs) == JustNow <==> s < 60)
      && (Classify(diffMs).Ago? && Classify(diffMs).unit == Minute <==> 60 <= s < SecondsPerHour)
      && (Classify(diffMs).Ago? && Classify(diffMs).unit == Hour <==> SecondsPerHour <= s < SecondsPerDay)
      && (Classify(diffMs).Ago? && Classify(diffMs).unit == Day <==> SecondsPerDay <= s < SecondsPerMonth)
      && (Classify(diffMs).Ago? && Classify(diffMs).unit == Month <==> SecondsPerMonth <= s)
  {
    var s := ElapsedSeconds(diffMs);
    FloorDivDiv(s);
  }

  /** The count shown in each tier is the elapsed time floor-divided by the
      tier's unit. */
  lemma CountBySeconds(diffMs: int)
    ensures var s := ElapsedSeconds(diffMs);
      Classify(diffMs).Ago? ==>
        Classify(diffMs).count == match Classify(diffMs).unit
          case Minute => s / SecondsPerMinute
          case Hour => s / SecondsPerHour
          case Day => s / SecondsPerDay
          case Month => s / SecondsPerMonth
  {
    var s := ElapsedSeconds(diffMs);
    FloorDivDiv(s);
  }

  /** Between one minute and one hour: "<s/60> minute ago", with the plural
      "s" exactly when the count exceeds 1. */
  lemma MinuteLabel(now: int, createdAt: int)
    requires 60 <= (now - createdAt) / 1000 < 3600
    ensures var m := (now - createdAt) / 1000 / 60;
      1 <= m < 60 && FormatTime(now, createdAt) == NatToString(m) + (if m > 1 then " minutes ago" else " minute ago")
  {
    var m := (now - createdAt) / 1000 / 60;
    assert UnitTail(Minute, m > 1) == if m > 1 then " minutes ago" else " minute ago";
  }

  /** The boundary cases of the label. */
  lemma ExampleSeconds()
    ensures FormatTime(30 * 1000, 0) == "just now"
    ensures FormatTime(0, 5000) == "just now"
    ensures FormatTime(90 * 1000, 0) == "1 minute ago"
    ensures FormatTime(150 * 1000, 0) == "2 minutes ago"
  {
    assert Classify(90 * 1000) == Ago(1, Minute);
    assert Classify(150 * 1000) == Ago(2, Minute);
    assert NatToString(1) == "1" && NatToString(2) == "2";
  }

  lemma ExampleHoursDaysMonths()
    ensures FormatTime(3700 * 1000, 0) == "1 hour ago"
    ensures FormatTime(90000 * 1000, 0) == "1 day ago"
    ensures FormatTime(40 * 86400 * 1000, 0) == "1 month ago"
  {
    assert Classify(3700 * 1000) == Ago(1, Hour);
    assert Classify(90000 * 1000) == Ago(1, Day);
    assert Classify(40 * 86400 * 1000) == Ago(1, Month);
    assert NatToString(1) == "1";
  }
}
