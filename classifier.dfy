/** The content/topic and emotion/hook facets. Both send the texts of the
    first 100 tweets to a text-classification service, discard its answer
    and return fixed tables, which is what is modelled here. */
module Classifier {
  import opened Twitter

  /** `tweets.slice(0, 100).map((t) => t.text)`: the texts sent to the service. */
  function RequestTexts(tweets: seq<Tweet>): (texts: seq<string>)
    ensures |texts| == Min(100, |tweets|)
    ensures forall i :: 0 <= i < |texts| ==> texts[i] == tweets[i].text
  {
    var n := Min(100, |tweets|);
    seq(n, i requires 0 <= i < n => tweets[i].text)
  }

  datatype ContentTypeRow = ContentTypeRow(kind: string, value: nat, engagement: nat)
  datatype TopicRow = TopicRow(topic: string, count: nat, avgEngagement: nat)
  datatype EmotionRow = EmotionRow(emotion: string, count: nat, engagement: nat)
  datatype HookRow = HookRow(hook: string, count: nat, engagement: nat)

  /** The fixed `ContentPerformance` table. Its `value` column
      adds up to 100. */
  function ContentPerformance(): (rows: seq<ContentTypeRow>)
    ensures |rows| == 5
    ensures SumOf(rows, (r: ContentTypeRow) => r.value) == 100
  {
    var rows := [
      ContentTypeRow("Text-only", 45, 2300),
      ContentTypeRow("Image", 30, 3500),
      ContentTypeRow("Video", 15, 5200),
      ContentTypeRow("Thread", 8, 4100),
      ContentTypeRow("Poll", 2, 1800)
    ];
    SumOfFive(rows, (r: ContentTypeRow) => r.value);
    rows
  }

  /** The fixed `TopicAnalysis` table. Its `count` column
      adds up to 100. */
  function TopicAnalysis(): (rows: seq<TopicRow>)
    ensures |rows| == 5
    ensures SumOf(rows, (r: TopicRow) => r.count) == 100
  {
    var rows := [
      TopicRow("Technology", 35, 2800),
      TopicRow("Business", 25, 3100),
      TopicRow("Personal", 20, 4500),
      TopicRow("News", 15, 1900),
      TopicRow("Other", 5, 1200)
    ];
    SumOfFive(rows, (r: TopicRow) => r.count);
    rows
  }

  /** The fixed `EmotionAnalysis` table. Its `count` column
      adds up to 100. */
  function EmotionAnalysis(): (rows: seq<EmotionRow>)
    ensures |rows| == 5
    ensures SumOf(rows, (r: EmotionRow) => r.count) == 100
  {
    var rows := [
      EmotionRow("Humor", 30, 4200),
      EmotionRow("Curiosity", 25, 3800),
      EmotionRow("Inspiration", 20, 4500),
      EmotionRow("Surprise", 15, 3200),
      EmotionRow("Anger", 10, 3900)
    ];
    SumOfFive(rows, (r: EmotionRow) => r.count);
    rows
  }

  /** The fixed `PsychologicalHooks` table. Its `count` column
      adds up to 100. */
  function PsychologicalHooks(): (rows: seq<HookRow>)
    ensures |rows| == 5
    ensures SumOf(rows, (r: HookRow) => r.count) == 100
  {
    var rows := [
      HookRow("Call-to-Action", 25, 3200),
      HookRow("Controversial", 15, 4800),
      HookRow("Personal Story", 30, 4100),
      HookRow("Question", 20, 2900),
      HookRow("Educational", 10, 2500)
    ];
    SumOfFive(rows, (r: HookRow) => r.count);
    rows
  }
}
