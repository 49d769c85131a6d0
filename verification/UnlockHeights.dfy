/** The block height an owner's unlock year stands for. */
module UnlockHeights {
  import opened Descriptors
  import opened Division
  import opened Wrappers

  const ANCHOR_HEIGHT: int := 880_000
  const ANCHOR_UNIX: int := 1_737_676_800
  const SECONDS_PER_BLOCK: int := 600
  const SECONDS_PER_DAY: int := 86_400
  const BLOCKS_PER_DAY: int := 144

  /** The anchor is the start of this day. */
  const ANCHOR_DAY: int := 20_112

  /** The days a Date can represent on either side of 1970. */
  const MAX_DAY: int := 100_000_000

  datatype YearInput = Absent | NotAnInteger | Year(year: int)

  /** What the function returns: null, a height, or the number that is not one. */
  datatype Height = Null | NotANumber | Block(height: int)

  /** ECMA-262, DayFromYear: the day number of 1 January. */
  function DayFromYear(y: int): int {
    365 * (y - 1970) + (y - 1969) / 4 - (y - 1901) / 100 + (y - 1601) / 400
  }

  /** Date.UTC reads the years 0 to 99 as 1900 to 1999. */
  function FullYear(y: int): int {
    if 0 <= y <= 99 then 1900 + y else y
  }

  /** Math.round of a quotient. */
  function RoundQuotient(a: int, b: int): int
    requires b > 0
  {
    (2 * a + b) / (2 * b)
  }

  function UnlockYearToHeight(input: YearInput): Height {
    match input
    case Absent => Null
    case NotAnInteger => Null
    case Year(year) =>
      if year == 0 then Null
      else
        var day := DayFromYear(FullYear(year));
        if day < -MAX_DAY || day > MAX_DAY then NotANumber
        else
          var height := ANCHOR_HEIGHT + RoundQuotient(day * SECONDS_PER_DAY - ANCHOR_UNIX, SECONDS_PER_BLOCK);
          if height <= ANCHOR_HEIGHT || height >= MAX_CLTV_HEIGHT then Null else Block(height)
  }

  predicate LeapYear(y: int) {
    y % 4 == 0 && (y % 100 != 0 || y % 400 == 0)
  }

  function DaysIn(y: int): int {
    if LeapYear(y) then 366 else 365
  }

  /** A floored quotient steps up exactly when its argument reaches a multiple. */
  lemma QuotientStep(a: int, b: nat)
    requires b > 0
    ensures (a + 1) / b == a / b + if (a + 1) % b == 0 then 1 else 0
  {
    var q, r := a / b, a % b;
    assert a == q * b + r;
    if r + 1 == b {
      assert a + 1 == (q + 1) * b + 0;
      DivMod(b, q + 1, 0);
    } else {
      assert a + 1 == q * b + (r + 1);
      DivMod(b, q, r + 1);
    }
  }

  /** A year counted from a multiple of `b` is a multiple of `b` exactly when the year is. */
  lemma SameMultiples(y: int, b: nat, k: int)
    requires b > 0
    ensures (y - k * b) % b == y % b
  {
    var q, r := y / b, y % b;
    assert y == q * b + r;
    assert y - k * b == (q - k) * b + r;
    DivMod(b, q - k, r);
  }

  /** The count of multiples of `b` up to a year, before and after that year. */
  lemma MultiplesUpTo(y: int, b: nat, k: int)
    requires b > 0
    ensures (y - k * b) / b == (y - k * b - 1) / b + if y % b == 0 then 1 else 0
  {
    QuotientStep(y - k * b - 1, b);
    SameMultiples(y, b, k);
  }

  lemma CenturiesAreFours(y: int)
    ensures y % 400 == 0 ==> y % 100 == 0
    ensures y % 100 == 0 ==> y % 4 == 0
  {}

  /** Each year has the days of the calendar's leap-year rule. */
  lemma NextYear(y: int)
    ensures DayFromYear(y + 1) == DayFromYear(y) + DaysIn(y)
  {
    MultiplesUpTo(y, 4, 492);
    MultiplesUpTo(y, 100, 19);
    MultiplesUpTo(y, 400, 4);
    CenturiesAreFours(y);
    assert y + 1 - 1969 == y - 492 * 4 && y - 1969 == y - 492 * 4 - 1;
    assert y + 1 - 1901 == y - 19 * 100 && y - 1901 == y - 19 * 100 - 1;
    assert y + 1 - 1601 == y - 4 * 400 && y - 1601 == y - 4 * 400 - 1;
  }

  lemma {:induction false} LaterYear(y: int, z: int)
    requires y <= z
    ensures DayFromYear(y) + 365 * (z - y) <= DayFromYear(z)
    decreases z - y
  {
    if y < z {
      NextYear(y);
      LaterYear(y + 1, z);
    }
  }

  /** The quotient is a whole number of blocks: rounding loses nothing. */
  lemma RoundingIsExact(day: int)
    ensures RoundQuotient(day * SECONDS_PER_DAY - ANCHOR_UNIX, SECONDS_PER_BLOCK) == BLOCKS_PER_DAY * (day - ANCHOR_DAY)
  {
    var blocks := BLOCKS_PER_DAY * (day - ANCHOR_DAY);
    assert day * SECONDS_PER_DAY - ANCHOR_UNIX == blocks * SECONDS_PER_BLOCK;
    assert 2 * (blocks * SECONDS_PER_BLOCK) + SECONDS_PER_BLOCK == blocks * 1200 + 600;
  }

  const FIRST_YEAR: int := 2026
  const LAST_YEAR: int := 11514
  const FIRST_DATE_YEAR: int := -271_820
  const LAST_DATE_YEAR: int := 275_760

  /**
   * Every year at once. Inside the range of Date a height is returned exactly for the years 2026
   * to 11514, it is 144 blocks for each day since the anchor, and the guardian builder accepts it;
   * all other years of the range give null. Outside the range the result is not null but the
   * number that is not one.
   */
  lemma EveryYear(y: int)
    ensures UnlockYearToHeight(Year(y)) ==
              if y < FIRST_DATE_YEAR || LAST_DATE_YEAR < y then NotANumber
              else if FIRST_YEAR <= y <= LAST_YEAR
              then Block(ANCHOR_HEIGHT + BLOCKS_PER_DAY * (DayFromYear(y) - ANCHOR_DAY))
              else Null
    ensures FIRST_YEAR <= y <= LAST_YEAR ==>
              ANCHOR_HEIGHT < UnlockYearToHeight(Year(y)).height < MAX_CLTV_HEIGHT
  {
    var day := DayFromYear(FullYear(y));
    RoundingIsExact(day);
    var z := FullYear(y);
    if z < FIRST_DATE_YEAR {
      LaterYear(z, FIRST_DATE_YEAR - 1);
    } else if z < FIRST_YEAR {
      LaterYear(FIRST_DATE_YEAR, z);
      LaterYear(z, FIRST_YEAR - 1);
    } else if z <= LAST_YEAR {
      LaterYear(FIRST_YEAR, z);
      LaterYear(z, LAST_YEAR);
    } else if z <= LAST_DATE_YEAR {
      LaterYear(LAST_YEAR + 1, z);
      LaterYear(z, LAST_DATE_YEAR);
    } else {
      LaterYear(LAST_DATE_YEAR + 1, z);
    }
  }

  /** Day 0 is 1 January 1970, and the anchor of height 880,000 is 24 January 2025, 342 days before 2026. */
  lemma FirstHeight()
    ensures DayFromYear(1970) == 0 && 86_400 * (DayFromYear(2025) + 23) == ANCHOR_UNIX
    ensures UnlockYearToHeight(Absent) == UnlockYearToHeight(NotAnInteger) == UnlockYearToHeight(Year(0)) == Null
    ensures UnlockYearToHeight(Year(2025)) == Null && UnlockYearToHeight(Year(26)) == Null
    ensures UnlockYearToHeight(Year(2026)) == Block(880_000 + 144 * 342)
  {}

  /** Null or a height, as documented, exactly for the years Date can represent. */
  lemma NeverNotANumberIff(y: int)
    ensures UnlockYearToHeight(Year(y)) != NotANumber <==> FIRST_DATE_YEAR <= y <= LAST_DATE_YEAR
    ensures UnlockYearToHeight(Year(300_000)) == NotANumber
  {
    EveryYear(y);
    EveryYear(300_000);
  }

  /** One year later is 144 blocks more for each day of the year. */
  lemma HeightGrowsByDays(y: int)
    requires FIRST_YEAR <= y < LAST_YEAR
    ensures UnlockYearToHeight(Year(y)).Block? && UnlockYearToHeight(Year(y + 1)).Block?
    ensures UnlockYearToHeight(Year(y + 1)).height
         == UnlockYearToHeight(Year(y)).height + 144 * (if LeapYear(y) then 366 else 365)
  {
    EveryYear(y);
    EveryYear(y + 1);
    NextYear(y);
    hide UnlockYearToHeight, DayFromYear;
  }

  /** Whatever height is returned, the guardian parameters carrying it pass validation. */
  lemma HeightValidates(input: YearInput, p: GuardianDescriptorParams)
    requires UnlockYearToHeight(input).Block?
    requires ValidateTimelock(p.timelockBlocks).None?
    ensures p.(unlockHeight := Some(UnlockYearToHeight(input).height)).Validate().None?
  {
    EveryYear(input.year);
  }
}
