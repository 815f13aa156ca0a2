/** The per-tweet engagement table of the 50 newest tweets. */
module EngagementTable {
  import opened Twitter
  import opened Rounding

  /** `((totalEngagement / followerCount) * 100).toFixed(2)`, kept as a whole
      number of hundredths of a percent. There is no guard against a zero
      follower count: JavaScript then yields `Infinity`, or `NaN` for 0 / 0. */
  datatype Rate = Hundredths(value: nat) | Infinity | NotANumber

  function EngagementRate(total: nat, followers: nat): (r: Rate)
    ensures followers > 0 ==>
              && r.Hundredths?
              && 2 * followers * r.value <= 20000 * total + followers < 2 * followers * (r.value + 1)
    ensures followers == 0 && total > 0 ==> r == Infinity
    ensures followers == 0 && total == 0 ==> r == NotANumber
  {
    if followers == 0 then
      if total == 0 then NotANumber else Infinity
    else
      Hundredths(RoundHalfUp(10000 * total, followers))
  }

  /** A tweet whose engagement equals `k` times the follower count has a rate of exactly `k * 100` percent. */
  lemma RateOfMultiple(k: nat, followers: nat)
    requires followers > 0
    ensures EngagementRate(k * followers, followers) == Hundredths(10000 * k)
  {
    assert 10000 * (k * followers) == (10000 * k) * followers;
    RoundExact(10000 * k, followers);
  }

  /** More engagement never gives a lower rate. */
  lemma RateMonotone(a: nat, b: nat, followers: nat)
    requires followers > 0 && a <= b
    ensures EngagementRate(a, followers).value <= EngagementRate(b, followers).value
  {
    RoundMono(10000 * a, 10000 * b, followers);
  }

  datatype EngagementRow = EngagementRow(
    id: nat,
    date: string,
    likes: nat,
    retweets: nat,
    replies: nat,
    quotes: nat,
    engagementRate: Rate)

  function RowOf(index: nat, tweet: Tweet, followers: nat): EngagementRow
  {
    EngagementRow(index, tweet.createdAt.day,
                  tweet.metrics.likes, tweet.metrics.retweets, tweet.metrics.replies, tweet.metrics.quotes,
                  EngagementRate(Engagement(tweet), followers))
  }

  /** `calculateEngagementPerTweet`: one row for each of the first 50 tweets. */
  function EngagementPerTweet(tweets: seq<Tweet>, followers: nat): (rows: seq<EngagementRow>)
    ensures |rows| == Min(50, |tweets|)
    ensures forall i :: 0 <= i < |rows| ==>
              && rows[i].id == i
              && rows[i].date == tweets[i].createdAt.day
              && rows[i].likes == tweets[i].metrics.likes
              && rows[i].retweets == tweets[i].metrics.retweets
              && rows[i].replies == tweets[i].metrics.replies
              && rows[i].quotes == tweets[i].metrics.quotes
              && rows[i].engagementRate == EngagementRate(rows[i].likes + rows[i].retweets + rows[i].replies + rows[i].quotes, followers)
  {
    var n := Min(50, |tweets|);
    seq(n, i requires 0 <= i < n => RowOf(i, tweets[i], followers))
  }
}
