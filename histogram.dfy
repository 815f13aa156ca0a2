/** The two time-bucket tables: tweets per weekday and tweets per hour of
    the day, each with the rounded average engagement of its bucket. */
module Histogram {
  import opened Twitter
  import opened Rounding

  /** Which part of the creation time picks the bucket. */
  datatype Axis = ByWeekday | ByHour

  function Buckets(axis: Axis): nat
  {
    if axis == ByWeekday then 7 else 24
  }

  function Slot(t: Tweet, axis: Axis): (b: nat)
    ensures b < Buckets(axis)
  {
    if axis == ByWeekday then t.createdAt.weekday else t.createdAt.hour
  }

  /** Number of tweets of `s` that fall in bucket `b`. */
  function Count(s: seq<Tweet>, axis: Axis, b: nat): nat
  {
    if s == [] then 0
    else Count(s[..|s| - 1], axis, b) + (if Slot(s[|s| - 1], axis) == b then 1 else 0)
  }

  /** Summed engagement of the tweets of `s` that fall in bucket `b`. */
  function Total(s: seq<Tweet>, axis: Axis, b: nat): nat
  {
    if s == [] then 0
    else Total(s[..|s| - 1], axis, b) + (if Slot(s[|s| - 1], axis) == b then Engagement(s[|s| - 1]) else 0)
  }

  /** `Math.round(total / count)`, or 0 for an empty bucket. */
  function Average(s: seq<Tweet>, axis: Axis, b: nat): (avg: nat)
    ensures Count(s, axis, b) == 0 ==> avg == 0
    ensures Count(s, axis, b) > 0 ==>
              var c, t := Count(s, axis, b), Total(s, axis, b);
              2 * c * avg <= 2 * t + c < 2 * c * (avg + 1)
  {
    var c := Count(s, axis, b);
    if c > 0 then RoundHalfUp(Total(s, axis, b), c) else 0
  }

  datatype FrequencyRow = FrequencyRow(day: string, tweets: nat, engagement: nat)

  datatype TimeRow = TimeRow(hour: nat, tweets: nat, engagement: nat)

  const DayNames: seq<string> := ["Sun", "Mon", "Tue", "Wed", "Thu", "Fri", "Sat"]

  /** The weekday table of `tweets`: seven rows, Sunday first. */
  predicate IsFrequencyTable(tweets: seq<Tweet>, rows: seq<FrequencyRow>)
  {
    && |rows| == 7
    && forall d :: 0 <= d < 7 ==>
         rows[d] == FrequencyRow(DayNames[d], Count(tweets, ByWeekday, d), Average(tweets, ByWeekday, d))
  }

  /** The hour table of `tweets`: twenty-four rows, hour 0 first. */
  predicate IsTimeTable(tweets: seq<Tweet>, rows: seq<TimeRow>)
  {
    && |rows| == 24
    && forall h :: 0 <= h < 24 ==>
         rows[h] == TimeRow(h, Count(tweets, ByHour, h), Average(tweets, ByHour, h))
  }

  /** `calculateTweetingFrequency`: fills the two seven-slot arrays in one
      pass over the tweets, then emits one row per weekday. */
  method TweetingFrequency(tweets: seq<Tweet>) returns (rows: seq<FrequencyRow>)
    ensures IsFrequencyTable(tweets, rows)
    ensures SumOf(rows, (r: FrequencyRow) => r.tweets) == |tweets|
  {
    var dayCount := new nat[7](_ => 0);
    var dayEngagement := new nat[7](_ => 0);
    for i := 0 to |tweets|
      invariant forall d :: 0 <= d < 7 ==> dayCount[d] == Count(tweets[..i], ByWeekday, d)
      invariant forall d :: 0 <= d < 7 ==> dayEngagement[d] == Total(tweets[..i], ByWeekday, d)
    {
      assert tweets[..i + 1][..i] == tweets[..i];
      var tweet := tweets[i];
      var dayIndex := tweet.createdAt.weekday;
      dayCount[dayIndex] := dayCount[dayIndex] + 1;
      var tweetEngagement := tweet.metrics.likes + tweet.metrics.retweets + tweet.metrics.replies + tweet.metrics.quotes;
      dayEngagement[dayIndex] := dayEngagement[dayIndex] + tweetEngagement;
    }
    assert tweets[..|tweets|] == tweets;
    rows := seq(7, d requires 0 <= d < 7 reads dayCount, dayEngagement =>
      FrequencyRow(DayNames[d], dayCount[d],
                   if dayCount[d] > 0 then RoundHalfUp(dayEngagement[d], dayCount[d]) else 0));
    FrequencyTableCoversAll(tweets, rows);
  }

  /** `calculateOptimalTweetingTime`: the same pass with twenty-four slots. */
  method OptimalTweetingTime(tweets: seq<Tweet>) returns (rows: seq<TimeRow>)
    ensures IsTimeTable(tweets, rows)
    ensures SumOf(rows, (r: TimeRow) => r.tweets) == |tweets|
  {
    var hourCounts := new nat[24](_ => 0);
    var hourEngagements := new nat[24](_ => 0);
    for i := 0 to |tweets|
      invariant forall h :: 0 <= h < 24 ==> hourCounts[h] == Count(tweets[..i], ByHour, h)
      invariant forall h :: 0 <= h < 24 ==> hourEngagements[h] == Total(tweets[..i], ByHour, h)
    {
      assert tweets[..i + 1][..i] == tweets[..i];
      var tweet := tweets[i];
      var hour := tweet.createdAt.hour;
      hourCounts[hour] := hourCounts[hour] + 1;
      var tweetEngagement := tweet.metrics.likes + tweet.metrics.retweets + tweet.metrics.replies + tweet.metrics.quotes;
      hourEngagements[hour] := hourEngagements[hour] + tweetEngagement;
    }
    assert tweets[..|tweets|] == tweets;
    rows := seq(24, h requires 0 <= h < 24 reads hourCounts, hourEngagements =>
      TimeRow(h, hourCounts[h],
              if hourCounts[h] > 0 then RoundHalfUp(hourEngagements[h], hourCounts[h]) else 0));
    TimeTableCoversAll(tweets, rows);
  }

  // ---------------------------------------------------------------------
  // Every tweet lands in exactly one bucket.

  /** Number of tweets in the buckets below `k`. */
  function CountBelow(s: seq<Tweet>, axis: Axis, k: nat): nat
  {
    if k == 0 then 0 else CountBelow(s, axis, k - 1) + Count(s, axis, k - 1)
  }

  lemma {:induction false} CountBelowLast(s: seq<Tweet>, axis: Axis, k: nat)
    requires s != []
    ensures CountBelow(s, axis, k) ==
            CountBelow(s[..|s| - 1], axis, k) + (if Slot(s[|s| - 1], axis) < k then 1 else 0)
  {
    if k > 0 {
      CountBelowLast(s, axis, k - 1);
    }
  }

  lemma {:induction false} CountBelowNil(axis: Axis, k: nat)
    ensures CountBelow([], axis, k) == 0
  {
    if k > 0 {
      CountBelowNil(axis, k - 1);
    }
  }

  /** The bucket counts add up to the number of tweets. */
  lemma {:induction false} CountsSumToLength(s: seq<Tweet>, axis: Axis)
    ensures CountBelow(s, axis, Buckets(axis)) == |s|
  {
    if s != [] {
      CountBelowLast(s, axis, Buckets(axis));
      CountsSumToLength(s[..|s| - 1], axis);
      assert Slot(s[|s| - 1], axis) < Buckets(axis);
    } else {
      CountBelowNil(axis, Buckets(axis));
    }
  }

  lemma {:induction false} FrequencyPrefix(tweets: seq<Tweet>, rows: seq<FrequencyRow>, k: nat)
    requires IsFrequencyTable(tweets, rows) && k <= 7
    ensures SumOf(rows[..k], (r: FrequencyRow) => r.tweets) == CountBelow(tweets, ByWeekday, k)
  {
    if k > 0 {
      assert rows[..k][..k - 1] == rows[..k - 1];
      FrequencyPrefix(tweets, rows, k - 1);
    }
  }

  /** The weekday table accounts for every tweet once. */
  lemma FrequencyTableCoversAll(tweets: seq<Tweet>, rows: seq<FrequencyRow>)
    requires IsFrequencyTable(tweets, rows)
    ensures SumOf(rows, (r: FrequencyRow) => r.tweets) == |tweets|
  {
    FrequencyPrefix(tweets, rows, 7);
    assert rows[..7] == rows;
    CountsSumToLength(tweets, ByWeekday);
  }

  lemma {:induction false} TimePrefix(tweets: seq<Tweet>, rows: seq<TimeRow>, k: nat)
    requires IsTimeTable(tweets, rows) && k <= 24
    ensures SumOf(rows[..k], (r: TimeRow) => r.tweets) == CountBelow(tweets, ByHour, k)
  {
    if k > 0 {
      assert rows[..k][..k - 1] == rows[..k - 1];
      TimePrefix(tweets, rows, k - 1);
    }
  }

  /** The hour table accounts for every tweet once. */
  lemma TimeTableCoversAll(tweets: seq<Tweet>, rows: seq<TimeRow>)
    requires IsTimeTable(tweets, rows)
    ensures SumOf(rows, (r: TimeRow) => r.tweets) == |tweets|
  {
    TimePrefix(tweets, rows, 24);
    assert rows[..24] == rows;
    CountsSumToLength(tweets, ByHour);
  }

  // ---------------------------------------------------------------------
  // The tables do not depend on the order of the tweets.

  lemma {:induction false} CountConcat(a: seq<Tweet>, c: seq<Tweet>, axis: Axis, b: nat)
    ensures Count(a + c, axis, b) == Count(a, axis, b) + Count(c, axis, b)
    ensures Total(a + c, axis, b) == Total(a, axis, b) + Total(c, axis, b)
  {
    if c == [] {
      assert a + c == a;
    } else {
      assert (a + c)[..|a + c| - 1] == a + c[..|c| - 1];
      CountConcat(a, c[..|c| - 1], axis, b);
    }
  }

  /** Taking out the element at `j`: how it changes the multiset and the bucket sums. */
  lemma RemoveAt(t: seq<Tweet>, j: nat, axis: Axis, b: nat)
    requires j < |t|
    ensures multiset(t[..j] + t[j + 1..]) == multiset(t) - multiset{t[j]}
    ensures Count(t, axis, b) == Count(t[..j] + t[j + 1..], axis, b) + (if Slot(t[j], axis) == b then 1 else 0)
    ensures Total(t, axis, b) == Total(t[..j] + t[j + 1..], axis, b) + (if Slot(t[j], axis) == b then Engagement(t[j]) else 0)
  {
    assert t == t[..j] + ([t[j]] + t[j + 1..]);
    CountConcat(t[..j], [t[j]] + t[j + 1..], axis, b);
    CountConcat([t[j]], t[j + 1..], axis, b);
    CountConcat(t[..j], t[j + 1..], axis, b);
    assert [t[j]][..0] == [];
  }

  lemma DropLast(s: seq<Tweet>)
    requires s != []
    ensures s[|s| - 1] in multiset(s)
    ensures multiset(s[..|s| - 1]) == multiset(s) - multiset{s[|s| - 1]}
  {
    assert s == s[..|s| - 1] + [s[|s| - 1]];
  }

  lemma IndexOf(t: seq<Tweet>, x: Tweet) returns (j: nat)
    requires x in multiset(t)
    ensures j < |t| && t[j] == x
  {
    assert x in t;
    j :| j < |t| && t[j] == x;
  }

  lemma {:induction false} CountPermutation(s: seq<Tweet>, t: seq<Tweet>, axis: Axis, b: nat)
    requires multiset(s) == multiset(t)
    ensures Count(s, axis, b) == Count(t, axis, b)
    ensures Total(s, axis, b) == Total(t, axis, b)
    decreases |s|
  {
    if s == [] {
      assert |t| == |multiset(t)| == 0;
    } else {
      var x := s[|s| - 1];
      DropLast(s);
      var j := IndexOf(t, x);
      RemoveAt(t, j, axis, b);
      CountPermutation(s[..|s| - 1], t[..j] + t[j + 1..], axis, b);
    }
  }

  /** Reordering the tweets leaves the weekday table as it is. */
  lemma FrequencyTableOrderFree(s: seq<Tweet>, t: seq<Tweet>, rows: seq<FrequencyRow>)
    requires multiset(s) == multiset(t)
    ensures IsFrequencyTable(s, rows) <==> IsFrequencyTable(t, rows)
  {
    forall d | 0 <= d < 7 {
      CountPermutation(s, t, ByWeekday, d);
    }
  }

  /** Reordering the tweets leaves the hour table as it is. */
  lemma TimeTableOrderFree(s: seq<Tweet>, t: seq<Tweet>, rows: seq<TimeRow>)
    requires multiset(s) == multiset(t)
    ensures IsTimeTable(s, rows) <==> IsTimeTable(t, rows)
  {
    forall h | 0 <= h < 24 {
      CountPermutation(s, t, ByHour, h);
    }
  }

  // ---------------------------------------------------------------------
  // A bucket's average lies between its least and its greatest engagement.

  /** Every tweet of bucket `b` has engagement in `[lo, hi]`. */
  predicate BucketWithin(s: seq<Tweet>, axis: Axis, b: nat, lo: nat, hi: nat)
  {
    forall j :: 0 <= j < |s| && Slot(s[j], axis) == b ==> lo <= Engagement(s[j]) <= hi
  }

  lemma {:induction false} TotalWithin(s: seq<Tweet>, axis: Axis, b: nat, lo: nat, hi: nat)
    requires BucketWithin(s, axis, b, lo, hi)
    ensures Count(s, axis, b) * lo <= Total(s, axis, b) <= Count(s, axis, b) * hi
  {
    if s != [] {
      var s' := s[..|s| - 1];
      assert BucketWithin(s', axis, b, lo, hi) by {
        forall j | 0 <= j < |s'| && Slot(s'[j], axis) == b ensures lo <= Engagement(s'[j]) <= hi {
          assert s'[j] == s[j];
        }
      }
      TotalWithin(s', axis, b, lo, hi);
      StepWithin(Count(s', axis, b), Total(s', axis, b), lo, hi,
                 if Slot(s[|s| - 1], axis) == b then 1 else 0, Engagement(s[|s| - 1]));
    }
  }

  lemma StepWithin(c: nat, t: nat, lo: nat, hi: nat, inc: nat, e: nat)
    requires c * lo <= t <= c * hi
    requires inc <= 1 && (inc == 1 ==> lo <= e <= hi)
    ensures (c + inc) * lo <= t + inc * e <= (c + inc) * hi
  {
    assert (c + inc) * lo == c * lo + inc * lo;
    assert (c + inc) * hi == c * hi + inc * hi;
  }

  /** The rounded average of a non-empty bucket is within the bucket's range. */
  lemma AverageWithin(s: seq<Tweet>, axis: Axis, b: nat, lo: nat, hi: nat)
    requires BucketWithin(s, axis, b, lo, hi)
    requires Count(s, axis, b) > 0
    ensures lo <= Average(s, axis, b) <= hi
  {
    TotalWithin(s, axis, b, lo, hi);
    RoundWithin(Total(s, axis, b), Count(s, axis, b), lo, hi);
  }
}
