/** `analyzeTwitterData`: sorts a copy of the tweets newest first and builds
    every facet of the report from that copy. */
module Analysis {
  import opened Twitter
  import opened Ordering
  import opened EngagementTable
  import opened Histogram
  import opened Virality
  import opened Inflection
  import opened Simulated
  import opened Classifier

  /** `[...tweets].sort((a, b) => time(b) - time(a))`. */
  function NewestFirst(tweets: seq<Tweet>): (sorted: seq<Tweet>)
    ensures SortedDesc(sorted, Millis)
    ensures multiset(sorted) == multiset(tweets)
    ensures |sorted| == |tweets|
  {
    SortDesc(tweets, Millis)
  }

  /** Tweets that already arrive newest first keep their order. */
  lemma NewestFirstKeepsSorted(tweets: seq<Tweet>)
    requires SortedDesc(tweets, Millis)
    ensures NewestFirst(tweets) == tweets
  {
    SortSorted(tweets, Millis);
  }

  /** Tweets with the same timestamp keep the order in which they arrived. */
  lemma NewestFirstStable(tweets: seq<Tweet>, millis: int)
    ensures WithKey(NewestFirst(tweets), Millis, millis) == WithKey(tweets, Millis, millis)
  {
    SortStable(tweets, Millis, millis);
  }

  /** What the run reads from the clock and the random number generator. */
  datatype Environment = Environment(days: seq<string>, growthDraws: seq<nat>, influentialDraws: seq<nat>)

  predicate ValidEnvironment(env: Environment)
  {
    |env.days| == Days && ValidDraws(env.growthDraws, 400) && ValidDraws(env.influentialDraws, 60)
  }

  datatype Report = Report(
    followerGrowth: seq<GrowthRow>,
    engagementPerTweet: seq<EngagementRow>,
    contentPerformance: seq<ContentTypeRow>,
    topicAnalysis: seq<TopicRow>,
    tweetingFrequency: seq<FrequencyRow>,
    optimalTweetingTime: seq<TimeRow>,
    audienceQuality: seq<AudienceRow>,
    viralityQuotient: seq<ViralityRow>,
    emotionAnalysis: seq<EmotionRow>,
    psychologicalHooks: seq<HookRow>,
    inflectionPoints: seq<InflectionPoint>)

  method AnalyzeTwitterData(tweets: seq<Tweet>, profile: Profile, env: Environment) returns (report: Report)
    requires ValidEnvironment(env)
    ensures var sorted := NewestFirst(tweets);
            && IsGrowthSeries(env.days, env.growthDraws, report.followerGrowth)
            && report.engagementPerTweet == EngagementPerTweet(sorted, profile.followers)
            && report.contentPerformance == ContentPerformance()
            && report.topicAnalysis == TopicAnalysis()
            && IsFrequencyTable(tweets, report.tweetingFrequency)
            && IsTimeTable(tweets, report.optimalTweetingTime)
            && IsAudienceSeries(env.days, env.influentialDraws, report.audienceQuality)
            && report.viralityQuotient == ViralityQuotient(sorted)
            && report.emotionAnalysis == EmotionAnalysis()
            && report.psychologicalHooks == PsychologicalHooks()
            && report.inflectionPoints == IdentifyInflectionPoints(sorted)
  {
    var sortedTweets := NewestFirst(tweets);
    var followerGrowth := GenerateFollowerGrowth(env.days, env.growthDraws);
    var engagementPerTweet := EngagementPerTweet(sortedTweets, profile.followers);
    var tweetingFrequency := TweetingFrequency(sortedTweets);
    FrequencyTableOrderFree(sortedTweets, tweets, tweetingFrequency);
    var optimalTweetingTime := OptimalTweetingTime(sortedTweets);
    TimeTableOrderFree(sortedTweets, tweets, optimalTweetingTime);
    var audienceQuality := GenerateAudienceQuality(env.days, env.influentialDraws);
    var viralityQuotient := ViralityQuotient(sortedTweets);
    var inflectionPoints := IdentifyInflectionPoints(sortedTweets);
    report := Report(followerGrowth, engagementPerTweet, ContentPerformance(), TopicAnalysis(),
                     tweetingFrequency, optimalTweetingTime, audienceQuality, viralityQuotient,
                     EmotionAnalysis(), PsychologicalHooks(), inflectionPoints);
  }
}
