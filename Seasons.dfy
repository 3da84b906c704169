/**
 * The calendar selectors of the content view: the season of a day of the
 * year and the background image shown for it. The day of the year is a
 * parameter; reading the clock and the calendar is not part of this model.
 */
module Seasons {
  import opened Optional

  datatype Season = Spring | Summer | Autumn | Winter

  /** A closed range of days of the year, both ends included. */
  datatype DayRange = DayRange(first: int, last: int)

  predicate InRange(day: int, r: DayRange) {
    r.first <= day <= r.last
  }

  predicate InAnyRange(day: int, rs: seq<DayRange>) {
    exists i :: 0 <= i < |rs| && InRange(day, rs[i])
  }

  /**
   * Reference table: the days of the year that belong to each season, the
   * implicit default of winter written out as its two stretches.
   */
  function SeasonRanges(s: Season): (rs: seq<DayRange>)
    ensures forall i :: 0 <= i < |rs| ==> 1 <= rs[i].first <= rs[i].last <= 366
  {
    match s
    case Spring => [DayRange(80, 171)]
    case Summer => [DayRange(172, 264)]
    case Autumn => [DayRange(265, 353)]
    case Winter => [DayRange(1, 79), DayRange(354, 366)]
  }

  /** `currentSeason` with the day of the year given. Total over all integers. */
  function SeasonOfDay(day: int): (s: Season)
    ensures s != Winter ==> 80 <= day <= 353
  {
    if 80 <= day <= 171 then Spring
    else if 172 <= day <= 264 then Summer
    else if 265 <= day <= 353 then Autumn
    else Winter
  }

  /**
   * Every day of a (leap) year lies in the table ranges of exactly one
   * season, and that season is the one SeasonOfDay picks.
   */
  lemma SeasonOfDayMatchesTable(day: int, s: Season)
    requires 1 <= day <= 366
    ensures InAnyRange(day, SeasonRanges(s)) <==> SeasonOfDay(day) == s
  {
    var rs := SeasonRanges(s);
    if SeasonOfDay(day) == s {
      var i := if s == Winter && day >= 354 then 1 else 0;
      assert InRange(day, rs[i]);
    } else {
      forall i | 0 <= i < |rs| ensures !InRange(day, rs[i]) {
      }
    }
  }

  /** Days outside 1..366 (which the calendar never produces) fall to winter. */
  lemma OutOfYearIsWinter(day: int)
    requires day < 1 || day > 366
    ensures SeasonOfDay(day) == Winter
  {
  }

  /** The season after `s` in the order the year runs through them. */
  function Next(s: Season): Season {
    match s
    case Winter => Spring
    case Spring => Summer
    case Summer => Autumn
    case Autumn => Winter
  }

  /**
   * Going from one day to the next, the season either stays or advances to
   * the next one, and it changes exactly on days 80, 172, 265 and 354.
   */
  lemma SeasonsAdvanceInOrder(day: int)
    requires 1 <= day < 366
    ensures SeasonOfDay(day + 1) == SeasonOfDay(day) || SeasonOfDay(day + 1) == Next(SeasonOfDay(day))
    ensures SeasonOfDay(day + 1) != SeasonOfDay(day) <==> day + 1 in {80, 172, 265, 354}
  {
  }

  /** `getBackgroundImageForSeason`: the image asset name of a season. */
  function BackgroundImage(s: Season): (name: string)
    ensures SeasonOfImage(name) == Some(s)
  {
    match s
    case Spring => "spring"
    case Summer => "summer"
    case Autumn => "autumn"
    case Winter => "winter"
  }

  /** The inverse of BackgroundImage: which season an image name belongs to. */
  function SeasonOfImage(name: string): (r: Option<Season>)
  {
    if name == "spring" then Some(Spring)
    else if name == "summer" then Some(Summer)
    else if name == "autumn" then Some(Autumn)
    else if name == "winter" then Some(Winter)
    else None
  }

  /** An image name names exactly one season, and it is that season's image. */
  lemma ImageRoundTrip(s: Season, name: string)
    ensures SeasonOfImage(name) == Some(s) <==> BackgroundImage(s) == name
  {
  }

  /** Distinct seasons show distinct images. */
  lemma BackgroundImageInjective(s: Season, t: Season)
    ensures BackgroundImage(s) == BackgroundImage(t) ==> s == t
  {
    ImageRoundTrip(s, BackgroundImage(s));
    ImageRoundTrip(t, BackgroundImage(t));
  }

  /** The background image shown on a given day of the year. */
  function BackgroundImageForDay(day: int): (name: string)
    ensures SeasonOfImage(name) == Some(SeasonOfDay(day))
  {
    ImageRoundTrip(SeasonOfDay(day), BackgroundImage(SeasonOfDay(day)));
    BackgroundImage(SeasonOfDay(day))
  }
}
