/** The two simulated series. They do not read the tweets: each is a random
    walk over the last 30 days, with the random numbers passed in as draws
    and the `MM/dd` labels of the 30 days (oldest first) passed in as `days`. */
module Simulated {

  const Days := 30
  const StartFollowers := 50000
  const StartInfluential := 2500

  datatype GrowthRow = GrowthRow(day: string, followers: int, dailyChange: int)

  datatype AudienceRow = AudienceRow(day: string, influentialFollowers: int)

  /** Record `k` of the growth series is built when the loop counter is
      `i = 29 - k`; from `i < 15` on, the change gets 100 more. Each draw is
      `Math.floor(Math.random() * 400)`. */
  function GrowthChange(draw: nat, k: nat): (c: int)
    ensures k < 15 ==> c == draw - 50
    ensures k >= 15 ==> c == draw + 50
  {
    draw - 50 + (if 29 - k < 15 then 100 else 0)
  }

  /** The draws a series needs: 30 of them, each below `bound`. */
  predicate ValidDraws(draws: seq<nat>, bound: nat)
  {
    |draws| == Days && forall k :: 0 <= k < |draws| ==> draws[k] < bound
  }

  /** `rows` is the follower series for these draws: each record adds its own
      change to the count of the record before, starting from 50000. */
  predicate IsGrowthSeries(days: seq<string>, draws: seq<nat>, rows: seq<GrowthRow>)
    requires |days| == Days && |draws| == Days
  {
    && |rows| == Days
    && (forall k :: 0 <= k < Days ==> rows[k].day == days[k] && rows[k].dailyChange == GrowthChange(draws[k], k))
    && rows[0].followers == StartFollowers + rows[0].dailyChange
    && (forall k :: 0 < k < Days ==> rows[k].followers == rows[k - 1].followers + rows[k].dailyChange)
  }

  /** `generateFollowerGrowthData`. */
  method GenerateFollowerGrowth(days: seq<string>, draws: seq<nat>) returns (data: seq<GrowthRow>)
    requires |days| == Days && ValidDraws(draws, 400)
    ensures IsGrowthSeries(days, draws, data)
  {
    data := [];
    var baseLine := StartFollowers;
    for i := 30 downto 0
      invariant |data| == 30 - i
      invariant forall k :: 0 <= k < |data| ==>
                  data[k].day == days[k] && data[k].dailyChange == GrowthChange(draws[k], k)
      invariant |data| > 0 ==> data[0].followers == StartFollowers + data[0].dailyChange
      invariant forall k :: 0 < k < |data| ==> data[k].followers == data[k - 1].followers + data[k].dailyChange
      invariant baseLine == if data == [] then StartFollowers else data[|data| - 1].followers
    {
      var k := 29 - i;
      var dailyChange := draws[k] as int - 50 + (if i < 15 then 100 else 0);
      baseLine := baseLine + dailyChange;
      data := data + [GrowthRow(days[k], baseLine, dailyChange)];
    }
  }

  /** The follower count dips by at most 50 a day over the first 15 records
      and rises by at least 50 a day over the last 15; so it never falls below
      49250, and in particular stays positive. */
  lemma {:induction false} GrowthBounds(days: seq<string>, draws: seq<nat>, rows: seq<GrowthRow>, k: nat)
    requires |days| == Days && ValidDraws(draws, 400)
    requires IsGrowthSeries(days, draws, rows)
    requires k < Days
    ensures k < 15 ==> -50 <= rows[k].dailyChange <= 349
    ensures k >= 15 ==> 50 <= rows[k].dailyChange <= 449
    ensures rows[k].followers >= StartFollowers - 50 * (if k < 15 then k + 1 else 15)
    ensures rows[k].followers >= 49250
  {
    if k > 0 {
      GrowthBounds(days, draws, rows, k - 1);
    }
  }

  /** Each draw is `Math.floor(Math.random() * 60)`. */
  function InfluentialChange(draw: nat): (c: int)
    ensures c >= -20
    ensures draw < 60 ==> c <= 39
  {
    draw - 20
  }

  predicate IsAudienceSeries(days: seq<string>, draws: seq<nat>, rows: seq<AudienceRow>)
    requires |days| == Days && |draws| == Days
  {
    && |rows| == Days
    && (forall k :: 0 <= k < Days ==> rows[k].day == days[k])
    && rows[0].influentialFollowers == StartInfluential + InfluentialChange(draws[0])
    && (forall k :: 0 < k < Days ==>
          rows[k].influentialFollowers == rows[k - 1].influentialFollowers + InfluentialChange(draws[k]))
  }

  /** The `influentialFollowers` half of `generateAudienceQualityData`. The
      amount is always a whole number, so `Math.round` leaves it as it is. */
  method GenerateAudienceQuality(days: seq<string>, draws: seq<nat>) returns (data: seq<AudienceRow>)
    requires |days| == Days && ValidDraws(draws, 60)
    ensures IsAudienceSeries(days, draws, data)
  {
    data := [];
    var baseInfluential := StartInfluential;
    for i := 30 downto 0
      invariant |data| == 30 - i
      invariant forall k :: 0 <= k < |data| ==> data[k].day == days[k]
      invariant |data| > 0 ==> data[0].influentialFollowers == StartInfluential + InfluentialChange(draws[0])
      invariant forall k :: 0 < k < |data| ==>
                  data[k].influentialFollowers == data[k - 1].influentialFollowers + InfluentialChange(draws[k])
      invariant baseInfluential == if data == [] then StartInfluential else data[|data| - 1].influentialFollowers
    {
      var k := 29 - i;
      var influentialChange := draws[k] as int - 20;
      baseInfluential := baseInfluential + influentialChange;
      data := data + [AudienceRow(days[k], baseInfluential)];
    }
  }

  /** The influential count loses at most 20 a day, so it stays at or above 1900. */
  lemma {:induction false} AudienceBounds(days: seq<string>, draws: seq<nat>, rows: seq<AudienceRow>, k: nat)
    requires |days| == Days && ValidDraws(draws, 60)
    requires IsAudienceSeries(days, draws, rows)
    requires k < Days
    ensures StartInfluential - 20 * (k + 1) <= rows[k].influentialFollowers <= StartInfluential + 39 * (k + 1)
    ensures rows[k].influentialFollowers >= 1900
  {
    if k > 0 {
      AudienceBounds(days, draws, rows, k - 1);
    }
  }
}
