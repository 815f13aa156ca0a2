/** The input records of the analytics: a tweet with its public counters and
    the profile of the account that posted it. */
module Twitter {

  datatype Option<T> = None | Some(value: T)

  /** `getDay()` of a creation time: 0 is Sunday, 6 is Saturday. */
  type Weekday = d: nat | d < 7

  /** `getHours()` of a creation time. */
  type Hour = h: nat | h < 24

  /** A `created_at` instant, with the values the runtime derives from it in
      its local time zone computed beforehand: the epoch milliseconds that
      `getTime()` returns, the weekday, the hour, and the `MM/dd` label. */
  datatype Stamp = Stamp(millis: int, weekday: Weekday, hour: Hour, day: string)

  datatype Metrics = Metrics(retweets: nat, replies: nat, likes: nat, quotes: nat)

  datatype Tweet = Tweet(id: string, text: string, createdAt: Stamp, metrics: Metrics)

  datatype Profile = Profile(
    id: string,
    username: string,
    name: string,
    followers: nat,
    following: nat,
    tweetCount: nat,
    imageUrl: string,
    description: Option<string>)

  /** Total engagement of a tweet: the sum of its four counters. */
  function Engagement(t: Tweet): (e: nat)
    ensures e >= t.metrics.likes && e >= t.metrics.retweets
    ensures e >= t.metrics.replies && e >= t.metrics.quotes
  {
    t.metrics.likes + t.metrics.retweets + t.metrics.replies + t.metrics.quotes
  }

  /** The sort key of the newest-first order. */
  function Millis(t: Tweet): int
  {
    t.createdAt.millis
  }

  function Min(a: nat, b: nat): (m: nat)
    ensures m <= a && m <= b && (m == a || m == b)
  {
    if a <= b then a else b
  }

  /** Sum of `f` over `rows`. */
  function SumOf<R>(rows: seq<R>, f: R -> nat): nat
  {
    if rows == [] then 0 else SumOf(rows[..|rows| - 1], f) + f(rows[|rows| - 1])
  }

  /** `SumOf` written out for a table of five rows. */
  lemma SumOfFive<R>(rows: seq<R>, f: R -> nat)
    requires |rows| == 5
    ensures SumOf(rows, f) == f(rows[0]) + f(rows[1]) + f(rows[2]) + f(rows[3]) + f(rows[4])
  {
    assert rows[..1][..0] == [];
    assert SumOf(rows[..1], f) == f(rows[0]);
    assert rows[..2][..1] == rows[..1];
    assert SumOf(rows[..2], f) == f(rows[0]) + f(rows[1]);
    assert rows[..3][..2] == rows[..2];
    assert SumOf(rows[..3], f) == f(rows[0]) + f(rows[1]) + f(rows[2]);
    assert rows[..4][..3] == rows[..3];
    assert SumOf(rows[..4], f) == f(rows[0]) + f(rows[1]) + f(rows[2]) + f(rows[3]);
    assert rows[..5] == rows;
  }
}
