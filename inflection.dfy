/** The three most engaging tweets, each labelled with a guessed cause and a
    guessed follower gain. */
module Inflection {
  import opened Twitter
  import opened Rounding
  import opened Text
  import opened Ordering

  datatype Cause = TechnologyTrend | BusinessAdvice | PersonalStory | ViralTweet

  function Description(c: Cause): (d: string)
    ensures |d| > 0
  {
    match c
    case TechnologyTrend => "Major viral tweet about technology trends"
    case BusinessAdvice => "Thread on business advice went viral"
    case PersonalStory => "Personal story resonated with audience"
    case ViralTweet => "Viral tweet"
  }

  /** Each label has its own sentence, so the description tells the label. */
  lemma DescriptionInjective(c1: Cause, c2: Cause)
    ensures Description(c1) == Description(c2) <==> c1 == c2
  {
  }

  /** The first-match keyword chain over the lower-cased text. The test for
      "technology" is subsumed by the one for "tech". */
  function Classify(text: string): (c: Cause)
    ensures var lo := Lower(text);
            && (c == TechnologyTrend <==> Contains(lo, "tech"))
            && (c == BusinessAdvice <==> !Contains(lo, "tech") && (Contains(lo, "business") || Contains(lo, "advice")))
            && (c == PersonalStory <==>
                  !Contains(lo, "tech") && !Contains(lo, "business") && !Contains(lo, "advice")
                  && (Contains(lo, "personal") || Contains(lo, "story")))
            && (c == ViralTweet <==>
                  !Contains(lo, "tech") && !Contains(lo, "business") && !Contains(lo, "advice")
                  && !Contains(lo, "personal") && !Contains(lo, "story"))
  {
    var lo := Lower(text);
    TechnologyMentionsTech(lo);
    if Contains(lo, "tech") || Contains(lo, "technology") then TechnologyTrend
    else if Contains(lo, "business") || Contains(lo, "advice") then BusinessAdvice
    else if Contains(lo, "personal") || Contains(lo, "story") then PersonalStory
    else ViralTweet
  }

  /** Any text that mentions "technology" also mentions "tech". */
  lemma TechnologyMentionsTech(s: string)
    ensures Contains(s, "technology") ==> Contains(s, "tech")
  {
    if Contains(s, "technology") {
      ContainsPart(s, "technology", 0, 4);
      assert "technology"[0..4] == "tech";
    }
  }

  /** `Math.round(like_count * 0.2)`; likes / 5 never ends in exactly one half,
      so the float product rounds like the exact quotient. */
  function FollowerGain(likes: nat): (g: nat)
    ensures g == (likes + 2) / 5
  {
    RoundHalfUp(likes, 5)
  }

  datatype InflectionPoint = InflectionPoint(
    date: string,
    description: string,
    likes: nat,
    retweets: nat,
    followerGain: nat)

  /** The sort key of the ranking. */
  function EngagementKey(t: Tweet): int
  {
    Engagement(t)
  }

  /** `[...tweets].sort(by engagement, descending).slice(0, 3)`. */
  function TopTweets(tweets: seq<Tweet>): (top: seq<Tweet>)
    ensures |top| == Min(3, |tweets|)
    ensures SortedDesc(top, EngagementKey)
    ensures multiset(top) <= multiset(tweets)
    ensures |tweets| <= 3 ==> multiset(top) == multiset(tweets)
    ensures forall t :: t in multiset(tweets) - multiset(top) ==>
              |top| > 0 && Engagement(t) <= Engagement(top[|top| - 1])
  {
    var ranked := SortDesc(tweets, EngagementKey);
    var k := Min(3, |tweets|);
    assert |tweets| <= 3 ==> ranked[..k] == ranked;
    if k == 0 then [] else TakeBest(ranked, k, EngagementKey); ranked[..k]
  }

  function PointOf(tweet: Tweet): InflectionPoint
  {
    InflectionPoint(tweet.createdAt.day, Description(Classify(tweet.text)),
                    tweet.metrics.likes, tweet.metrics.retweets, FollowerGain(tweet.metrics.likes))
  }

  /** `identifyInflectionPoints`: one point per top tweet, most engaging first. */
  function IdentifyInflectionPoints(tweets: seq<Tweet>): (points: seq<InflectionPoint>)
    ensures |points| == Min(3, |tweets|)
    ensures forall i :: 0 <= i < |points| ==>
              var t := TopTweets(tweets)[i];
              && points[i].date == t.createdAt.day
              && points[i].description == Description(Classify(t.text))
              && points[i].likes == t.metrics.likes
              && points[i].retweets == t.metrics.retweets
              && points[i].followerGain == (t.metrics.likes + 2) / 5
  {
    var top := TopTweets(tweets);
    seq(|top|, i requires 0 <= i < |top| => PointOf(top[i]))
  }

  /** Three tweets with engagements 116, 112 and 11 are ranked in that order. */
  lemma RankingExample(p1: Tweet, p2: Tweet, p3: Tweet)
    requires p1.metrics == Metrics(10, 5, 100, 1)
    requires p2.metrics == Metrics(60, 2, 50, 0)
    requires p3.metrics == Metrics(1, 0, 10, 0)
    ensures TopTweets([p1, p2, p3]) == [p1, p2, p3]
  {
    assert Engagement(p1) == 116 && Engagement(p2) == 112 && Engagement(p3) == 11;
    SortSorted([p1, p2, p3], EngagementKey);
  }

  /** A text without some letter of `p` cannot contain `p`. */
  lemma LacksLetter(s: string, p: string, j: nat)
    requires j < |p|
    requires forall i :: 0 <= i < |s| ==> s[i] != p[j]
    ensures !Contains(s, p)
  {
  }

  /** A text without either case of some letter of `p` does not contain `p` once lower-cased. */
  lemma LacksEitherCase(text: string, p: string, j: nat)
    requires j < |p| && 'a' <= p[j] <= 'z'
    requires forall i :: 0 <= i < |text| ==> text[i] != p[j] && text[i] as int != p[j] as int - 32
    ensures !Contains(Lower(text), p)
  {
    LacksLetter(Lower(text), p, j);
  }

  /** The facts about the example text that decide its label. */
  predicate StoryShape(text: string)
  {
    && 11 <= |text|
    && (forall i :: 0 <= i < |text| ==> text[i] !in "cCiIdD")
    && text[3..11] == "personal"
  }

  lemma StoryLetterFree(text: string)
    requires text == "My personal story about growth"
    ensures forall i :: 0 <= i < |text| ==> text[i] !in "cCiIdD"
  {
  }

  lemma StoryPersonal(text: string)
    requires text == "My personal story about growth"
    ensures text[3..11] == "personal"
  {
    assert text[3] == 'p' && text[4] == 'e' && text[5] == 'r' && text[6] == 's';
    assert text[7] == 'o' && text[8] == 'n' && text[9] == 'a' && text[10] == 'l';
    forall k | 0 <= k < 8 ensures text[3..11][k] == "personal"[k] {
      assert text[3..11][k] == text[3 + k];
    }
  }

  lemma StoryMisses(text: string)
    requires StoryShape(text)
    ensures !Contains(Lower(text), "tech")
    ensures !Contains(Lower(text), "business") && !Contains(Lower(text), "advice")
  {
    LacksEitherCase(text, "tech", 2);
    LacksEitherCase(text, "business", 3);
    LacksEitherCase(text, "advice", 1);
  }

  lemma StoryHits(text: string)
    requires StoryShape(text)
    ensures Contains(Lower(text), "personal")
  {
    var lo := Lower(text);
    forall k | 0 <= k < 8 ensures lo[3..11][k] == "personal"[k] {
      assert lo[3 + k] == LowerChar(text[3 + k]);
      assert text[3 + k] == text[3..11][k];
    }
    assert OccursAt(lo, "personal", 3);
  }

  /** A tweet about its author's personal story is labelled as one: "personal"
      is the first keyword of the chain that the text contains. */
  lemma LabelExample()
    ensures Classify("My personal story about growth") == PersonalStory
  {
    StoryLetterFree("My personal story about growth");
    StoryPersonal("My personal story about growth");
    StoryMisses("My personal story about growth");
    StoryHits("My personal story about growth");
  }
}
