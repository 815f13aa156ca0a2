# Twitter analytics pipeline: a Dafny model

This project models the analytics core of the Twitter analyser: `analyzeTwitterData` in
`app/api/analyzeData/route.ts`. It takes an account's tweets and profile and builds the eleven
dashboard facets. First it sorts a copy of the tweets newest first. From that copy it computes:

- a per-tweet engagement table for the 50 newest tweets;
- the tweet count and the rounded average engagement per weekday, and per hour of the day;
- a virality table for the 30 newest tweets;
- the three most engaging tweets, each labelled by a keyword rule chain, as "inflection points";
- two simulated 30-day random walks (follower growth, influential followers);
- four fixed tables that stand in for a text-classification service.

Modules, one per component:

| module | file | models |
|---|---|---|
| `Twitter` | twitter.dfy | the `Tweet` and `TwitterProfile` records; total engagement |
| `Rounding` | rounding.dfy | `Math.round` and `toFixed(2)` on exact non-negative quotients |
| `Ordering` | ordering.dfy | the stable descending sort used for both sorts of the core |
| `Text` | text.dfy | lower-casing, `includes`, and the 30-character truncation |
| `EngagementTable` | engagement.dfy | `calculateEngagementPerTweet` |
| `Histogram` | histogram.dfy | `calculateTweetingFrequency`, `calculateOptimalTweetingTime` |
| `Virality` | virality.dfy | `calculateViralityQuotient` |
| `Inflection` | inflection.dfy | `identifyInflectionPoints` |
| `Simulated` | simulated.dfy | `generateFollowerGrowthData`, the integer half of `generateAudienceQualityData` |
| `Classifier` | classifier.dfy | the request texts and fixed tables of `analyzeContentAndTopics` / `analyzeEmotionsAndHooks` |
| `Analysis` | analysis.dfy | the newest-first copy and the report assembly |

Modelling choices:

- A tweet's `created_at` is a `Stamp`. It holds the epoch milliseconds used for sorting, plus the
  weekday (0 = Sunday), hour and `MM/dd` label the runtime would derive in its local time zone.
- Counters are naturals. Rates and virality are whole numbers of hundredths: the exact quotient,
  rounded half up, which is what `toFixed(2)` does to an exactly represented value.
- The two histogram extractors mutate local arrays in a pass over the tweets, as the source does.
  They are methods with loops, proved against the predicates `IsFrequencyTable` and `IsTimeTable`.
  The random walks are methods too, proved against `IsGrowthSeries` and `IsAudienceSeries`.
  Everything else is a function, as in the source (`slice`, `map`, sort-on-a-copy).
- The clock and `Math.random` are inputs: `Analysis.Environment` carries the 30 day labels (oldest
  first) and the draws. Each draw is the value of `Math.floor(Math.random() * N)`.
- Tweets are values, so the caller's sequence cannot be changed by the sort. `[...tweets]` is a
  copy in the source for the same reason.

Four points where the code's behaviour is easy to misread:

- The code has no guard against a zero follower count, so `EngagementRate` gives `Infinity`,
  or `NotANumber` for 0/0, as JavaScript does (`EngagementTable.EngagementRate`).
- The code rounds each bucket average with `Math.round` instead of keeping total/count, and so
  does the model (`Histogram.Average`).
- The code passes the tweets to the two simulated series but never reads them, so the model's
  series take no tweets.
- The code sends the texts to the classification service, discards its answer and returns fixed
  tables. The model returns the same fixed tables (`Classifier.ContentPerformance` and the
  other three).

## Model

| member | source | states |
|---|---|---|
| `Twitter.Engagement` | app/api/analyzeData/route.ts:142-146 | total engagement is the sum of the four counters, so it is at least each of them |
| `Rounding.RoundHalfUp` | app/api/analyzeData/route.ts:239 | `Math.round(num / den)`: the result q satisfies 2·den·q ≤ 2·num + den < 2·den·(q+1), so it is the nearest natural with halves rounded up |
| `Rounding.RoundExact` | app/api/analyzeData/route.ts:239 | an integral quotient is returned unchanged |
| `Rounding.RoundMono` | app/api/analyzeData/route.ts:239 | rounding is monotone in the numerator |
| `Rounding.RoundWithin` | app/api/analyzeData/route.ts:239 | if lo ≤ num/den ≤ hi then lo ≤ the rounded quotient ≤ hi |
| `Ordering.Insert` | app/api/analyzeData/route.ts:47-50 | inserting into a sorted sequence keeps it sorted and adds exactly the one element |
| `Ordering.SortDesc` | app/api/analyzeData/route.ts:47-50 | the result is in non-increasing key order and is a permutation of the input (stability is `Ordering.SortStable`) |
| `Ordering.SortSorted` | app/api/analyzeData/route.ts:47-50 | input that is already in order comes back unchanged |
| `Ordering.SortIdempotent` | app/api/analyzeData/route.ts:47-50 | sorting a sorted copy again changes nothing |
| `Ordering.WithKey` | app/api/analyzeData/route.ts:47-50 | the elements with one given key, in input order: never longer than the input, and every element has that key |
| `Ordering.InsertStable` | app/api/analyzeData/route.ts:47-50 | the inserted element goes in front of all elements with the same key, and their order is kept |
| `Ordering.SortStable` | app/api/analyzeData/route.ts:47-50 | stability of the sort: for every key, the elements with that key keep their input order |
| `Ordering.TakeBest` | app/api/analyzeData/route.ts:391 | after taking the first k of a sorted sequence, everything left has key at most that of the k-th |
| `Analysis.NewestFirst` | app/api/analyzeData/route.ts:47-50 | the copy is ordered by non-increasing timestamp and holds exactly the input tweets |
| `Analysis.NewestFirstKeepsSorted` | app/api/analyzeData/route.ts:47-50 | tweets already newest first keep their order |
| `Analysis.NewestFirstStable` | app/api/analyzeData/route.ts:47-50 | tweets with equal timestamps stay in their input order, which fixes the row order and the 50-row and 30-row cut-offs |
| `EngagementTable.EngagementRate` | app/api/analyzeData/route.ts:148 | with followers > 0, the rate is the nearest hundredth to total·100/followers; with 0 followers it is Infinity, or NaN for 0/0 |
| `EngagementTable.RateOfMultiple` | app/api/analyzeData/route.ts:148 | engagement of k times the follower count gives a rate of exactly k·100.00 |
| `EngagementTable.RateMonotone` | app/api/analyzeData/route.ts:148 | more engagement never gives a lower rate |
| `EngagementTable.EngagementPerTweet` | app/api/analyzeData/route.ts:140-159 | min(50, n) rows; row i has id i, copies the date and four counters of tweet i, and carries the rate of that tweet's total |
| `Histogram.Average` | app/api/analyzeData/route.ts:234-241 | 0 for an empty bucket, else the bucket's total divided by its count, rounded half up |
| `Histogram.TweetingFrequency` | app/api/analyzeData/route.ts:214-242 | seven rows labelled Sun..Sat; row d counts the tweets made on weekday d and carries their rounded average engagement; the counts sum to the number of tweets |
| `Histogram.OptimalTweetingTime` | app/api/analyzeData/route.ts:244-271 | twenty-four rows with `hour` equal to the index; row h counts the tweets made in hour h and carries their rounded average engagement; the counts sum to the number of tweets |
| `Histogram.CountsSumToLength` | app/api/analyzeData/route.ts:219-232 | every tweet falls in exactly one bucket: the bucket counts add up to the number of tweets |
| `Histogram.FrequencyTableCoversAll` | app/api/analyzeData/route.ts:234-241 | the `tweets` column of a weekday table sums to the number of input tweets |
| `Histogram.TimeTableCoversAll` | app/api/analyzeData/route.ts:263-270 | the `tweets` column of an hour table sums to the number of input tweets |
| `Histogram.CountPermutation` | app/api/analyzeData/route.ts:219-232 | a bucket's count and total depend only on which tweets there are, not on their order |
| `Histogram.FrequencyTableOrderFree` | app/api/analyzeData/route.ts:69 | the weekday table of the newest-first copy is the weekday table of the input |
| `Histogram.TimeTableOrderFree` | app/api/analyzeData/route.ts:72 | the hour table of the newest-first copy is the hour table of the input |
| `Histogram.TotalWithin` | app/api/analyzeData/route.ts:225-231 | if every tweet of a bucket has engagement in [lo, hi], the bucket total is between count·lo and count·hi |
| `Histogram.AverageWithin` | app/api/analyzeData/route.ts:237-240 | a non-empty bucket's average lies between the least and the greatest engagement in the bucket |
| `Text.LowerChar` | app/api/analyzeData/route.ts:398 | an upper-case letter A..Z becomes the letter 32 code points higher (a..z); every other character is unchanged |
| `Text.Lower` | app/api/analyzeData/route.ts:398 | lower-casing keeps the length and maps A..Z to a..z character by character |
| `Text.LowerIdempotent` | app/api/analyzeData/route.ts:398 | lower-casing twice is lower-casing once |
| `Text.Contains` | app/api/analyzeData/route.ts:401-405 | `includes` holds exactly when the pattern occurs at some position |
| `Text.ContainsPart` | app/api/analyzeData/route.ts:401 | a text containing p contains every substring of p |
| `Text.Truncate` | app/api/analyzeData/route.ts:312 | at most 33 characters; text of up to 30 characters is unchanged; a longer one becomes its first 30 characters and "..." |
| `Text.TruncateKeepsPrefix` | app/api/analyzeData/route.ts:312 | the result always starts with the first min(30, length) characters of the text |
| `Text.TruncateIdempotent` | app/api/analyzeData/route.ts:312 | truncating a truncated text changes nothing |
| `Virality.LikesOrOne` | app/api/analyzeData/route.ts:307 | the `like_count` fallback to 1: exactly 1 when there are no likes, and the like count otherwise |
| `Virality.ViralityOf` | app/api/analyzeData/route.ts:305-307 | the nearest hundredth to (retweets + quotes) / (likes, or 1 without likes) |
| `Virality.ViralityWithoutLikes` | app/api/analyzeData/route.ts:307 | a tweet without likes has virality equal to its retweets plus quotes |
| `Virality.ViralityExample` | app/api/analyzeData/route.ts:305-313 | 0 likes, 5 retweets and 3 quotes give 8.00 |
| `Virality.ViralityQuotient` | app/api/analyzeData/route.ts:303-318 | min(30, n) rows; row i has id i, copies date, retweets and quotes of tweet i, carries its virality and its truncated text of at most 33 characters |
| `Inflection.TechnologyMentionsTech` | app/api/analyzeData/route.ts:401 | a text containing "technology" contains "tech", so the second test of the first rule never decides anything |
| `Inflection.Description` | app/api/analyzeData/route.ts:399-406 | the sentence for each label; it is never empty |
| `Inflection.DescriptionInjective` | app/api/analyzeData/route.ts:399-406 | two labels have the same sentence exactly when they are the same label |
| `Inflection.Classify` | app/api/analyzeData/route.ts:398-407 | first-match chain on the lower-cased text: technology iff "tech"; business iff not that and "business" or "advice"; personal story iff neither and "personal" or "story"; otherwise "Viral tweet" |
| `Inflection.FollowerGain` | app/api/analyzeData/route.ts:415 | `Math.round(likes * 0.2)` equals (likes + 2) / 5 |
| `Inflection.TopTweets` | app/api/analyzeData/route.ts:374-391 | min(3, n) distinct input tweets, in non-increasing engagement; every tweet left out has engagement at most the last one kept; all tweets are kept when n ≤ 3 |
| `Inflection.IdentifyInflectionPoints` | app/api/analyzeData/route.ts:372-419 | min(3, n) points; point i has the date, likes and retweets of the i-th top tweet, the description of its label, and follower gain (likes + 2) / 5 |
| `Inflection.RankingExample` | app/api/analyzeData/route.ts:374-391 | tweets with engagements 116, 112 and 11 rank in that order |
| `Inflection.LacksLetter` | app/api/analyzeData/route.ts:401-405 | a text missing some letter of a keyword does not contain the keyword |
| `Inflection.LabelExample` | app/api/analyzeData/route.ts:398-407 | "My personal story about growth" is labelled a personal story |
| `Simulated.GenerateFollowerGrowth` | app/api/analyzeData/route.ts:112-138 | 30 records with the given day labels; record k's change is the draw minus 50, plus 100 for the last 15 records; followers start from 50000 and each record adds its change to the one before |
| `Simulated.GrowthChange` | app/api/analyzeData/route.ts:125-126 | the change of record k is the draw minus 50 for the first 15 records and the draw plus 50 for the last 15 |
| `Simulated.GrowthBounds` | app/api/analyzeData/route.ts:118-134 | changes are in [-50, 349] for the first 15 records and in [50, 449] for the last 15; followers never fall below 49250 |
| `Simulated.GenerateAudienceQuality` | app/api/analyzeData/route.ts:273-301 | 30 records with the given day labels; influential followers start from 2500 and change by the draw minus 20 each day |
| `Simulated.InfluentialChange` | app/api/analyzeData/route.ts:288 | a draw below 60 gives a daily change of the influential count between −20 and 39; no change is ever below −20 |
| `Simulated.AudienceBounds` | app/api/analyzeData/route.ts:280-297 | after k+1 days the influential count is within [2500 − 20(k+1), 2500 + 39(k+1)], so never below 1900 |
| `Classifier.RequestTexts` | app/api/analyzeData/route.ts:184 | the texts of the first min(100, n) tweets, in order |
| `Classifier.ContentPerformance` | app/api/analyzeData/route.ts:194-200 | the fixed table of five content types; the `value` column adds up to 100 |
| `Classifier.TopicAnalysis` | app/api/analyzeData/route.ts:203-209 | the fixed table of five topics; the `count` column adds up to 100 |
| `Classifier.EmotionAnalysis` | app/api/analyzeData/route.ts:352-358 | the fixed table of five emotions; the `count` column adds up to 100 |
| `Classifier.PsychologicalHooks` | app/api/analyzeData/route.ts:361-367 | the fixed table of five hooks; the `count` column adds up to 100 |
| `Analysis.AnalyzeTwitterData` | app/api/analyzeData/route.ts:37-109 | every facet is the extractor's result on the newest-first copy; the weekday and hour tables equal those of the input as given; the classifier facets are the fixed tables |

## Left out

- The `POST` handler (app/api/analyzeData/route.ts:5-35): request parsing, the 400 response for missing parameters and the 500 response are HTTP glue.
- The two `fetch` calls to the classification service (app/api/analyzeData/route.ts:168-190, 326-348) and the parsing of their answers: network I/O whose result the code discards. A failed call makes the run throw, and this error path is not modelled either.
- The `try`/`catch` in `analyzeTwitterData` that logs and rethrows: with the network calls gone, nothing in the model can fail.
- `new Date`, `getDay`, `getHours`, `getTime` and date-fns `format`: they depend on the clock and the local time zone. They are replaced by the precomputed `Stamp` fields and the day labels in `Environment`. The model assumes each stamp's fields come from one valid instant; a `created_at` that does not parse (`NaN` in the comparator) is not modelled.
- Binary floating point: rates and virality are exact quotients rounded half up to hundredths. `toFixed(2)` on a double can differ where the double is not the exact quotient. The strings `toFixed` produces and the `parseFloat` back are not modelled.
- The `ratio` half of `generateAudienceQualityData` (app/api/analyzeData/route.ts:279-295): a floating-point walk shown with `toFixed(2)`. Only `influentialFollowers` is modelled. The source draws twice per iteration, ratio first; the model takes the influential draws as their own sequence.
- `Math.random`: it appears only as the explicit draw sequences.
- `Text.Lower`: only A..Z are lower-cased. JavaScript's `toLowerCase` maps all of Unicode, and a few characters change length when lower-cased.
- `Text.Truncate`: Dafny characters are Unicode scalar values. JavaScript's `substring` and `length` count UTF-16 code units, so the two differ on text outside the Basic Multilingual Plane.
- `Inflection.TopTweets`: its contract does not say which of several equally engaging tweets are kept. The ranking underneath is the stable sort (`Ordering.SortStable`), so the earlier one in the newest-first copy wins, as in the source.
- `impression_count`, `entities` and the profile fields the core never reads are not used. `impression_count` and `entities` are not part of the records at all.
- The unused `tweets` parameter of both generators and the unused `followerGrowth` parameter of `identifyInflectionPoints` are dropped.
- The remaining files: the tweet-fetching routes, the mock data generators, the UI pages and the chart components. They are glue or presentation, outside this core.
