/** The virality table of the 30 newest tweets. */
module Virality {
  import opened Twitter
  import opened Rounding
  import opened Text

  /** `like_count || 1`: a tweet without likes is divided by 1. */
  function LikesOrOne(m: Metrics): (d: nat)
    ensures d > 0
    ensures m.likes > 0 ==> d == m.likes
    ensures m.likes == 0 ==> d == 1
  {
    if m.likes == 0 then 1 else m.likes
  }

  /** `(retweet_count + quote_count) / (like_count || 1)` to two decimals,
      as a whole number of hundredths. */
  function ViralityOf(m: Metrics): (v: nat)
    ensures var d := LikesOrOne(m);
            2 * d * v <= 200 * (m.retweets + m.quotes) + d < 2 * d * (v + 1)
  {
    RoundHalfUp(100 * (m.retweets + m.quotes), LikesOrOne(m))
  }

  /** Without likes the quotient is the number of reshares itself. */
  lemma ViralityWithoutLikes(m: Metrics)
    requires m.likes == 0
    ensures ViralityOf(m) == 100 * (m.retweets + m.quotes)
  {
    assert 100 * (m.retweets + m.quotes) == (100 * (m.retweets + m.quotes)) * 1;
    RoundExact(100 * (m.retweets + m.quotes), 1);
  }

  /** No likes, 5 retweets and 3 quotes give a virality of 8.00. */
  lemma ViralityExample()
    ensures ViralityOf(Metrics(5, 0, 0, 3)) == 800
  {
    ViralityWithoutLikes(Metrics(5, 0, 0, 3));
  }

  datatype ViralityRow = ViralityRow(
    id: nat,
    date: string,
    text: string,
    virality: nat,
    retweets: nat,
    quotes: nat)

  function RowOf(index: nat, tweet: Tweet): ViralityRow
  {
    ViralityRow(index, tweet.createdAt.day, Truncate(tweet.text), ViralityOf(tweet.metrics),
                tweet.metrics.retweets, tweet.metrics.quotes)
  }

  /** `calculateViralityQuotient`: one row for each of the first 30 tweets. */
  function ViralityQuotient(tweets: seq<Tweet>): (rows: seq<ViralityRow>)
    ensures |rows| == Min(30, |tweets|)
    ensures forall i :: 0 <= i < |rows| ==>
              && rows[i].id == i
              && rows[i].date == tweets[i].createdAt.day
              && rows[i].retweets == tweets[i].metrics.retweets
              && rows[i].quotes == tweets[i].metrics.quotes
              && rows[i].virality == ViralityOf(tweets[i].metrics)
              && rows[i].text == Truncate(tweets[i].text)
              && |rows[i].text| <= 33
  {
    var n := Min(30, |tweets|);
    seq(n, i requires 0 <= i < n => RowOf(i, tweets[i]))
  }
}
