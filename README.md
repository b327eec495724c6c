# AntiMoshenik scoring core, modelled in Dafny

AntiMoshenik is a browser page that rates a message in three ways.

- **Spam.** `SpamClassifier` is a multinomial naive Bayes classifier with add-one smoothing. It is trained on spam and ham messages and returns a spam probability in percent.
- **Machine-written text.** `AIDetector` counts weighted phrase and pattern hits in a message. It returns the share of "machine-written" signal in percent.
- **Fraud keywords.** `Utils.checkFraudPatterns` adds up weights for keyword phrases and caps the sum at 100.

The page merges the spam probability and the keyword score. It blends the result with the AI probability into an overall risk and buckets that into a verdict. `Utils` also provides the train/test split and the accuracy measure used to evaluate the classifier, and it builds the list of advice shown to the user.

The model has one module per concern:

| module | file | models |
|---|---|---|
| `Text` | `text.dfy` | `toLowerCase`, `trim`, `\s`, `includes`, and the presence-only phrase loop |
| `Tokenizer` | `tokenizer.dfy` | `SpamClassifier.preprocess` |
| `WordTable` | `word_table.dfy` | the classifier's `Map` from word to count, keys kept in insertion order |
| `StableSort` | `stable_sort.dfy` | the stable sort by descending count of `getStats` |
| `Reals`, `Scoring` | `reals.dfy`, `scoring.dfy` | the arithmetic of smoothing and of the posterior |
| `SpamFilter` | `spam_classifier.dfy` | the `SpamClassifier` class: training, scoring, statistics |
| `AIDetection` | `ai_detector.dfy` | `AIDetector`: its regular expressions, the sentence check, the scoring loops, `detectAI` |
| `Utils` | `utils.dfy` | `Utils`: risk, fraud score, recommendations, accuracy, the shuffled split |
| `App` | `app.dfy` | the scoring glue of the page's `analyzeMessage` |

`SpamClassifier` is a class whose methods update its fields, as the source's do. Training is stated against functions of the messages (`AddMessages`, `TokenCount`, `MessageWords`), so the lemmas about those functions describe what every `Train` call leaves behind.

The source computes the posterior with `Math.log` and `Math.exp`. The model multiplies the same factors with exact reals. This is the value the log-sum-exp computation approximates.

The detector is stateless. Its pattern tables are constants, and its loops are methods proved equal to scoring functions.

`trainTestSplit` shuffles an array in place. `Math.random` is replaced by a sequence of picks, one per swap, each within the range the source's formula produces.

Two behaviours of the code are worth stating plainly, and the model follows them:

- A classifier trained on only one class raises no error. Once the vocabulary is non-empty, with no spam trained every message that has tokens scores 0, and with no ham trained 100. This is because `Math.log(0)` is minus infinity and its `Math.exp` is 0. A message without tokens still scores 50 (js/classifiers.js:62-64). `OneSidedTraining` proves this. With an empty vocabulary (one class trained on messages without tokens) the smoothing denominator is 0 and the score is `NaN` (js/classifiers.js:48-56), which `Predict` returns as `Undefined`.
- The `catch` branch of `predictSpamProbability` is unreachable, because `Math.log`, `Math.exp` and division never throw. The arithmetic cases that do go wrong yield `NaN`, which the model names `Undefined`.

## Model

| member | source | states |
|---|---|---|
| Text.ToLower | js/classifiers.js:21 | lower-casing leaves no capital in A-Z or U+0400-U+042F and changes exactly those capitals |
| Text.Lower | js/utils.js:127 | `toLowerCase` keeps the length, leaves no capital in A-Z or U+0400-U+042F in the result, and leaves every other character as it was |
| Text.TrimStartSpec | js/classifiers.js:21 | the leading half of `trim` removes exactly the maximal whitespace prefix: what remains is a suffix that starts with a non-whitespace character |
| Text.TrimEndSpec | js/classifiers.js:21 | the trailing half of `trim` removes exactly the maximal whitespace suffix |
| Text.Trim | js/classifiers.js:178 | `trim` returns a string no longer than its input that neither starts nor ends with whitespace |
| Text.TrimPiece | js/classifiers.js:178 | `trim` keeps a contiguous piece of its input and cuts away only whitespace before and after it |
| Text.TrimNoUpper | js/classifiers.js:21 | trimming a lower-cased text keeps it free of capitals in A-Z and U+0400-U+042F |
| Text.TrimEmptyIffBlank | js/classifiers.js:229 | `s.trim().length > 0` holds exactly when some character is not whitespace |
| Text.Contains | js/utils.js:132 | definition: `text.includes(phrase)` holds when the phrase occurs at some index |
| Text.CountPresent | js/utils.js:131-135 | the number of listed phrases that occur in the text, each counted once, is at most the number of phrases |
| Text.CountPresentExtremes | js/utils.js:131-135 | a phrase list scores every entry exactly when every phrase occurs, and nothing exactly when none occurs |
| Text.PresenceScore | js/classifiers.js:186-190 | the presence loop yields `weight` times the number of listed phrases that occur (each at most once), so never more than `weight` per phrase |
| Tokenizer.DeleteOthers | js/classifiers.js:22 | definition: `replace(/[^a-zа-яё0-9\s]/gi, '')` keeps a character exactly when it is a letter of the class, a digit or whitespace (`DeleteOthersSpec` states the result) |
| Tokenizer.DeleteOthersSpec | js/classifiers.js:22 | the deletion step leaves only letters, digits and whitespace, and adds no capital in A-Z or U+0400-U+042F |
| Tokenizer.LetterRun | js/classifiers.js:23 | `[a-zа-яё]+` takes the longest run of letters: all letters, and the next character is not one |
| Tokenizer.DigitRun | js/classifiers.js:23 | `\d+` takes the longest run of digits |
| Tokenizer.TokensAreRuns | js/classifiers.js:23 | every match is a non-empty run of letters only or of digits only |
| Tokenizer.Tokens | js/classifiers.js:23 | definition: the global match of `/[a-zа-яё]+\|\d+/gi`, taking the longest run at each start (`TokensCover` and `TokensMaximal` state what the matches are) |
| Tokenizer.TokenStarts | js/classifiers.js:23 | there is one start position per match |
| Tokenizer.TokensWhole | js/classifiers.js:23 | every match of `/[a-zа-яё]+\|\d+/gi` sits at its start position and cannot be extended: the character before it and the character after it are of another kind, or absent |
| Tokenizer.TokensInOrder | js/classifiers.js:23 | the matches follow one another through the text without overlapping |
| Tokenizer.TokensMaximal | js/classifiers.js:23 | the matches are exactly the maximal letter runs and maximal digit runs of the text, in order: each is a run, cannot be extended, and comes after the previous one |
| Tokenizer.TokensCover | js/classifiers.js:23 | the matches, laid end to end, are exactly the letters and digits of the text: nothing lost, nothing added |
| Tokenizer.Preprocess | js/classifiers.js:20-25 | every token is non-empty and is all lower-case letters (a-z, а-я, ё) or all digits |
| Tokenizer.PreprocessMaximal | js/classifiers.js:20-25 | the tokens are the maximal letter runs and maximal digit runs of the lower-cased, trimmed and filtered text, in order and without overlap |
| Tokenizer.AlnumsTrim | js/classifiers.js:21 | trimming removes no letter or digit |
| Tokenizer.AlnumsDeleteOthers | js/classifiers.js:22 | the deletion step removes no letter or digit |
| Tokenizer.PreprocessKeepsAlnums | js/classifiers.js:20-25 | `preprocess` keeps every letter and digit of the lower-cased text, in order, and nothing else |
| Tokenizer.ApostropheJoins | js/classifiers.js:20-25 | `"Don't!"` gives the single token `"dont"`: punctuation is deleted before the split and joins the pieces around it |
| Tokenizer.LettersAndDigitsSplit | js/classifiers.js:23 | `"abc123"` gives the two tokens `"abc"` and `"123"` |
| WordTable.WordCounts.Add | js/classifiers.js:31 | `map.set(w, (map.get(w) \|\| 0) + 1)` raises the count of `w` by one |
| WordTable.WordCounts.Entries | js/classifiers.js:95 | `[...map.entries()]` has one entry per key, in insertion order (its meaning is stated by `EntriesSpec`) |
| WordTable.EntriesSpec | js/classifiers.js:95 | for a well-formed table the entries list every stored word exactly once and nothing else, each paired with its stored count |
| WordTable.AddFacts | js/classifiers.js:31 | a `set` changes no other word's count, adds its word to the keys, appends a new key at the end of the insertion order and leaves an existing key in place |
| WordTable.AddTotal | js/classifiers.js:31-32 | each `set` grows the sum of all counts by one, which the `wordCount++` beside it mirrors |
| WordTable.GetAtMostTotal | js/classifiers.js:52 | no word's count exceeds the class's total, so `count + 1` never exceeds the smoothing denominator |
| WordTable.SumOverAllWords | js/classifiers.js:49-54 | summing the counts over any duplicate-free list that covers the keys gives the table's total |
| WordTable.AddTokensTotal | js/classifiers.js:30-34 | the inner loop keeps the table well formed and grows its total by the number of tokens |
| WordTable.AddTokensGet | js/classifiers.js:30-31 | the inner loop grows each word's count by its number of occurrences among the tokens |
| WordTable.AddTokensKeys | js/classifiers.js:30-33 | the inner loop adds exactly the tokens to the keys |
| StableSort.SortDesc | js/classifiers.js:96 | the sort keeps the number of entries; `SortDescSpec` and `SortDescStable` state the rest |
| StableSort.SortDescSpec | js/classifiers.js:96 | the sort orders entries by descending count and is a permutation |
| StableSort.SortDescStable | js/classifiers.js:96 | the sort is stable: the entries of any one count keep their original order |
| StableSort.InsertWithCount | js/classifiers.js:96 | inserting into a sorted list places the new entry after every entry of equal count |
| Scoring.Smoothed | js/classifiers.js:52 | `(count + 1) / denominator` is strictly positive and at most one |
| Scoring.SmoothedSumClosed | js/classifiers.js:52 | the smoothed likelihoods of a list of words sum to (their counts plus one each) over the denominator |
| Scoring.SmoothedSumToOne | js/classifiers.js:48-56 | over a vocabulary that holds every key, the smoothed likelihoods of a class sum to exactly one |
| Scoring.Posterior | js/classifiers.js:68-76 | the prior times the likelihoods never exceeds the prior and is 0 exactly when the prior is |
| SpamFilter.AddMessages | js/classifiers.js:27-44 | the training loops as a function of the messages: every token of every message is added to the table, first to last (the four lemmas below state what that does) |
| SpamFilter.AddMessagesTotal | js/classifiers.js:27-35 | training on messages keeps a table well formed and grows its total by their token count |
| SpamFilter.AddMessagesGet | js/classifiers.js:27-35 | training grows each word's count by its number of occurrences in the messages' tokens |
| SpamFilter.AddMessagesKeys | js/classifiers.js:27-35 | training adds exactly the messages' words to a table's keys |
| SpamFilter.AddMessagesAccumulate | js/classifiers.js:26-47 | training on `a` and then on `b` leaves the same table as training once on `a + b`: `train` accumulates and never resets |
| SpamFilter.TopWords | js/classifiers.js:95-97 | at most ten entries (fewer only when the table is smaller), each a word of the table with its count, in descending count |
| SpamFilter.TopWordsComplete | js/classifiers.js:95-100 | no word left out counts more than the last one listed, and among words of one count the list keeps insertion order |
| SpamFilter.TopOmitsSmaller | js/classifiers.js:95-97 | a word left out of a sorted prefix counts no more than the prefix's last entry |
| SpamFilter.TopKeepsOrder | js/classifiers.js:96-97 | the cut of the stable sort keeps, per count, a prefix of the insertion order |
| SpamFilter.SpamClassifier.constructor | js/classifiers.js:5-13 | a new classifier is untrained and empty |
| SpamFilter.SpamClassifier.Learn | js/classifiers.js:30-34 | the inner loop adds a message's tokens to one class's table, counter and the vocabulary, and changes nothing else |
| SpamFilter.SpamClassifier.LearnSpam | js/classifiers.js:27-35 | the spam loop counts every spam message (even one without tokens) and learns its tokens; the ham side is unchanged |
| SpamFilter.SpamClassifier.LearnHam | js/classifiers.js:36-44 | the ham loop counts every ham message and learns its tokens; the spam side is unchanged |
| SpamFilter.SpamClassifier.Train | js/classifiers.js:26-47 | `train` adds to what was learned before, keeps the counters equal to the table totals and the vocabulary equal to the union of the keys, and marks the classifier trained |
| SpamFilter.SpamClassifier.ValidBounded | js/classifiers.js:52-54 | in a well-formed classifier no word's count exceeds its class's counter |
| SpamFilter.SpamClassifier.WordProbability | js/classifiers.js:48-56 | `wordProbability` lies in (0, 1] for every word, seen or unseen, and times the denominator gives the count plus one |
| SpamFilter.SpamClassifier.ProbabilitiesSumToOne | js/classifiers.js:48-56 | summed over the whole vocabulary, each class's word probabilities add up to exactly one |
| SpamFilter.SpamClassifier.Prior | js/classifiers.js:66-67 | the prior lies in [0, 1] and is 0 exactly when its class has no messages |
| SpamFilter.SpamClassifier.Evidence | js/classifiers.js:68-76 | the unnormalised posterior never exceeds the prior and is 0 exactly when the class has no messages |
| SpamFilter.SpamClassifier.EvidenceStep | js/classifiers.js:70-76 | each token multiplies a class's evidence by its word probability, as the loop adds its logarithm |
| SpamFilter.SpamClassifier.SpamShare | js/classifiers.js:78-86 | the normalised spam share lies in [0, 1] |
| SpamFilter.SpamClassifier.Predict | js/classifiers.js:58-92 | untrained: the error; no tokens: 50; no messages or an empty vocabulary: NaN; otherwise a percentage in [0, 100] |
| SpamFilter.SpamClassifier.PredictSpamProbability | js/classifiers.js:58-92 | the scoring loop returns what `Predict` specifies |
| SpamFilter.SpamClassifier.SpamIffMoreLikely | js/classifiers.js:78-88 | a message scores above 50 exactly when its spam evidence exceeds its ham evidence, and exactly 50 when they tie |
| SpamFilter.SpamClassifier.OneSidedTraining | js/classifiers.js:66-88 | with a non-empty vocabulary, no spam trained makes every tokenised message score 0, and no ham trained makes it score 100 |
| SpamFilter.SpamClassifier.GetStats | js/classifiers.js:94-108 | `getStats` reports the message counts, the vocabulary size and at most ten top words per class |
| AIDetection.WhitespaceRunSpec | js/classifiers.js:128 | the greedy `\s*` takes a maximal whitespace run |
| AIDetection.MatchEnd | js/classifiers.js:128-143 | a match spans at least the pattern's minimal length and stays inside the text |
| AIDetection.CountFrom | js/classifiers.js:193-195 | definition: the matches of the global search from a position, each search resuming where the last match ended (`CountFromPositive` and `CountFromBound` state its properties) |
| AIDetection.CountFromPositive | js/classifiers.js:193-195 | the global search from a position counts a match exactly when the pattern matches at that position or later |
| AIDetection.CountMatches | js/classifiers.js:193-195 | `text.match(/p/gi)` has a positive length exactly when the pattern matches somewhere, which is when the source's `if (matches)` adds to the score |
| AIDetection.CountFromBound | js/classifiers.js:193-195 | global matches do not overlap: each counted match uses up at least the pattern's minimal length |
| AIDetection.MatchEndLower | js/classifiers.js:193 | with the `i` flag a pattern matches a text exactly where it matches the lower-cased text |
| AIDetection.CountFromLower | js/classifiers.js:193-195 | with the `i` flag the match count of a text and of its lower-cased form agree |
| AIDetection.LaughCountedOnce | js/classifiers.js:221-225 | `/haha/gi` finds one match in "hahaha", not two |
| AIDetection.Preprocess | js/classifiers.js:177-179 | the preprocessed text has no capital in A-Z or U+0400-U+042F and no whitespace at either end |
| AIDetection.NextTerminator | js/classifiers.js:229 | the split finds the first `.`, `!` or `?` at or after a position |
| AIDetection.Split | js/classifiers.js:229 | `split(/[.!?]+/)` gives one piece more than there are maximal runs of terminators |
| AIDetection.SplitJoins | js/classifiers.js:229 | `split(/[.!?]+/)` loses exactly the terminators: the pieces joined are the text without them |
| AIDetection.SplitClean | js/classifiers.js:229 | no piece of the split holds a terminator |
| AIDetection.NonBlank | js/classifiers.js:229 | the filter keeps a piece exactly when it is not blank, and never returns more pieces than it was given |
| AIDetection.NonBlankAppend | js/classifiers.js:229 | the filter works piece by piece in order: filtering a concatenation gives the concatenation of the filtered parts |
| AIDetection.SpaceSplitLength | js/classifiers.js:231-232 | `s.split(' ').length` is the number of spaces in `s` plus one |
| AIDetection.MaxOf | js/classifiers.js:231 | `Math.max(...xs)` is an element no smaller than any other |
| AIDetection.MinOf | js/classifiers.js:232 | `Math.min(...xs)` is an element no larger than any other |
| AIDetection.UniformSentences | js/classifiers.js:229-236 | definition: more than three non-blank sentences whose word counts (`split(' ')` lengths) differ by less than three |
| AIDetection.MachineSignals | js/classifiers.js:186-236 | definition: 15 per formal phrase present, 5 per repetitive-pattern match, 3 per excessive-formality match, 10 for uniform sentences |
| AIDetection.HumanSignals | js/classifiers.js:207-226 | definition: 10 per informal match, 5 per contraction match, 8 per emotional match |
| AIDetection.AIScore | js/classifiers.js:181-242 | definition: the machine signals of the preprocessed text, plus 5 when the raw text has no common mistake and is longer than 100 characters |
| AIDetection.HumanScore | js/classifiers.js:181-226 | definition: the human signals of the preprocessed text |
| AIDetection.ClampPercent | js/classifiers.js:249 | `Math.min(Math.max(x, 0), 100)` is a percentage, and is `x` itself when `x` already is one |
| AIDetection.PatternScore | js/classifiers.js:192-197 | a regex loop yields `weight` times the total match count of its patterns |
| AIDetection.CheckForCommonErrors | js/classifiers.js:252-266 | stopping at the first mistake that matches answers whether any mistake occurs |
| AIDetection.MachineSide | js/classifiers.js:186-236 | the machine-side loops and the sentence check yield the machine signals of the preprocessed text |
| AIDetection.HumanSide | js/classifiers.js:207-226 | the human-side loops yield the human signals of the preprocessed text |
| AIDetection.ScoreSides | js/classifiers.js:181-242 | both scores, including the grammar bonus on the raw text, are the ones the scoring functions define |
| AIDetection.Share | js/classifiers.js:245-249 | the result lies in [0, 100], is 50 exactly when the sides tie, above 50 exactly when the machine side leads, 100 when only it scored and 0 when only the human side did |
| AIDetection.AIProbability | js/classifiers.js:181-250 | the result of `analyzeText` is a percentage, 50 exactly when the two scores tie, and above 50 exactly when the machine-written score is higher |
| AIDetection.AnalyzeText | js/classifiers.js:181-250 | `analyzeText` returns the share of its two scores |
| AIDetection.Confidence | js/classifiers.js:273 | the confidence is twice the distance of the probability from 50; for a percentage it lies in [0, 100], is 0 exactly at 50 and 100 exactly at 0 or 100 |
| AIDetection.DetectAI | js/classifiers.js:268-275 | returns the probability, flags the text exactly when the probability reaches the threshold, and gives the confidence of that probability, which is 0 exactly when the two sides tie |
| AIDetection.DetectAIByDefault | js/classifiers.js:268-275 | without a threshold, `detectAI` flags the text exactly when its probability is at least 70 |
| Utils.GetRiskLevel | js/utils.js:73-77 | Low exactly below 30, Medium exactly from 30 up to below 70, High exactly from 70 up |
| Utils.RiskLevelMonotone | js/utils.js:73-77 | a higher score never gets a lower level |
| Utils.CalculateOverallRisk | js/utils.js:57-70 | the score is the weighted mean `0.7·spam + 0.3·ai`, so it lies between the inputs, and the level is the score's |
| Utils.OverallRiskBounds | js/utils.js:57-70 | percentages in give a percentage out |
| Utils.OverallRiskMonotone | js/utils.js:57-70 | raising either input never lowers the score or the level |
| Utils.RawFraudScore | js/utils.js:126-157 | definition: 10, 15, 20 and 25 per phrase present from the four lists, a missing list counting as empty (`FraudScoreZero` and `MorePhrasesScoreMore` state its properties) |
| Utils.FraudScore | js/utils.js:126-159 | the score is the uncapped sum or 100, whichever is smaller |
| Utils.FraudScoreZero | js/utils.js:126-159 | the score is 0 exactly when no phrase of any list occurs in the lower-cased text |
| Utils.NoListsNoScore | js/utils.js:131 | missing lists count as empty, so with none the score is 0 |
| Utils.MorePhrasesScoreMore | js/utils.js:152-156 | one more personal-data phrase adds 25 to the uncapped sum if it occurs and nothing otherwise, and never lowers the score |
| Utils.CheckFraudPatterns | js/utils.js:126-159 | the four loops and the cap return the fraud score |
| Utils.FirstIndexSpec | js/utils.js:122 | the first index of an element holds it and nothing before it does |
| Utils.Dedup | js/utils.js:122 | definition: keeps each element at its first occurrence (`DedupSpec` and `DedupOrder` state what that means) |
| Utils.DedupSpec | js/utils.js:122 | `[...new Set(xs)]` holds each element of `xs` exactly once and nothing else |
| Utils.DedupOrder | js/utils.js:122 | `[...new Set(xs)]` lists elements in the order of their first occurrence |
| Utils.FraudLevelKey | js/utils.js:84-91 | "low" exactly below 30, "medium" exactly from 30 up to below 70, "high" exactly from 70 up |
| Utils.FraudLevelIsRiskLevel | js/utils.js:84-91 | the fraud level key uses the same buckets as `getRiskLevel` |
| Utils.SpamKey | js/utils.js:106-109 | "Низкий" reads as low, "Средний" as medium, and any other label as high |
| Utils.PushAll | js/utils.js:95-97 | a `forEach` push appends the items in order |
| Utils.GenerateRecommendations | js/utils.js:80-123 | the result is the fraud, AI, spam and general advice, in that order, with duplicates removed |
| Utils.RecommendationsSpec | js/utils.js:80-123 | every gathered item appears exactly once, nothing else appears, and the items keep the order of their first appearance |
| Utils.Prediction | js/utils.js:46 | 1 exactly when the probability is at least 50, otherwise 0 |
| Utils.CorrectCount | js/utils.js:44-50 | the number of correct predictions never exceeds the number of messages |
| Utils.AllCorrect | js/utils.js:44-50 | the count reaches `n` exactly when every one of the first `n` predictions matches its label |
| Utils.EvaluateModel | js/utils.js:39-54 | empty test set: NaN; otherwise the correct count over the total, in percent, in [0, 100]; the labels are those the split hands out, and a missing one never matches |
| Utils.Zip | js/utils.js:19 | each message is paired with the label of the same index, or with a missing label |
| Utils.Swap | js/utils.js:23 | the destructuring swap keeps the length (`SwapSpec` states which pairs move) |
| Utils.SwapSpec | js/utils.js:23 | the two places trade their pairs and every other place keeps its own |
| Utils.Shuffle | js/utils.js:21-24 | definition: the swap loop from the last index down to 1, swapping each index with its pick (`ShufflePermutes` states that it is a permutation) |
| Utils.ShufflePermutes | js/utils.js:21-24 | the swap loop only moves pairs around: the result is a permutation |
| Utils.FisherYates | js/utils.js:21-24 | the in-place loop leaves the shuffle of the old contents and keeps them as a multiset |
| Utils.SliceIndex | js/utils.js:27-28 | `slice` clamps its index into the list and takes an in-range index as it is |
| Utils.SplitIndex | js/utils.js:26 | a test share in [0, 1] cuts at `floor(n·(1 − testSize))`, and the cut always lies inside the list |
| Utils.CutAt | js/utils.js:27-33 | the train and test parts have matching lengths, the train part has the cut's length, and train pairs followed by test pairs give the shuffled pairs back |
| Utils.ShuffleZipped | js/utils.js:19-24 | the pairs copied into an array and shuffled there are the shuffle of the zipped input |
| Utils.TrainTestSplit | js/utils.js:18-36 | train pairs followed by test pairs are the shuffled input, the train part has the split index's length, and every message keeps its own label |
| Utils.TrainTestSplitByDefault | js/utils.js:18-36 | without a test size, four fifths of the messages (rounded down) go to training, the parts together hold every message, and every message keeps its own label |
| App.FinalFraudScore | js/main.js:90 | the merged score is the larger of the spam probability and the keyword score |
| App.FinalFraudScoreBounds | js/main.js:90 | merging a percentage with a capped keyword score gives a percentage |
| App.SpamLevelLabel | js/main.js:93-100 | "Низкий" exactly below 30, "Средний" exactly from 30 up to below 70, "Высокий" exactly from 70 up |
| App.SpamLabelSelectsFraudBucket | js/main.js:93-100 | the spam level label, read back by `generateRecommendations`, selects the bucket of the merged score, which is `getRiskLevel`'s |
| App.SafetyOf | js/main.js:107-116 | the verdict of an overall score is the verdict of its `getRiskLevel` level: safe, suspicious, dangerous |
| App.PercentagesStayPercentages | js/main.js:90-103 | percentage inputs give a percentage merged score and overall score |
| App.Assess | js/main.js:90-116 | the merged score is `Math.max` of the spam probability and the fraud score, the spam level is the 30/70 label of that score, the overall risk is its 0.7/0.3 blend with the AI probability, the verdict is the label of the overall score and agrees with its risk level, and percentage inputs give percentage scores |

## Left out

- The page itself is not modelled: the DOM, `updateResults`, `setTimeout`, `alert` and `console.log`.
- `Utils.loadMessagesFromFile` is not modelled: it is an emulation that always returns an empty list.
- The constructor's automatic training on a global `trainingData` is not modelled: it depends on a global that may or may not be defined. Call `Train` after construction instead.
- `Math.log` and `Math.exp` are replaced by exact products, and IEEE doubles by exact reals. Rounding, underflow and overflow are not modelled.
- The `NaN` results of `predictSpamProbability` and `evaluateModel` are named explicitly: `Undefined` in `Predict`, `None` in `EvaluateModel`. The unreachable `catch` branch of `predictSpamProbability` is omitted.
- `App.Assess` takes the spam probability as a number, so the `NaN` of `Undefined` never reaches it. In the source, `Math.max(NaN, fraudScore)` is `NaN`; both label chains then fall through to "Высокий" and "Опасно", and the overall score shows as `NaN`. An untrained classifier's error is caught by the page's `try` and is not modelled either.
- `Math.random` is a parameter: the picks sequence, with `picks[i]` in `[0, i]`. Its distribution is not modelled.
- `toLowerCase` is modelled for A-Z and the Cyrillic capitals U+0400-U+042F only. Every other capital (for example À or Ґ) keeps its case, so `checkFraudPatterns` can miss a phrase written with such a capital: the source finds a phrase "ґ…" in the text "Ґ…", and the model does not.
- `Tokenizer.Preprocess`: under the `i` flag, `/[^a-zа-яё0-9\s]/gi` and `/[a-zа-яё]+|\d+/gi` also treat as letters the characters whose upper-case form is a letter of the class. These include U+1C80 to U+1C86, old variant forms of в, д, о, с, т and ъ. The model deletes them, so `Preprocess("\u1C80")` is empty where the source yields one token.
- `AIDetection.MatchEnd` matches exactly what the source's patterns match, because every detector pattern is ASCII and, under `i` without `u`, no character outside ASCII is case-equivalent to an ASCII letter. The difference lies in the lower-casing before it: `toLowerCase` maps, for example, the Kelvin sign U+212A to `k`, so the source finds `/idk/gi` in "ID\u212A" while the model's `ToLower` keeps that sign and finds nothing.
- Strings are sequences of code points. JavaScript's `length` counts UTF-16 units, so the `text.length > 100` test differs for text outside the Basic Multilingual Plane.
- The regular expressions are modelled by a small pattern language: literals and greedy whitespace runs. That covers every pattern of the detector's tables, but not regular expressions in general.
- Labels are integers, and a missing label (fewer labels than messages) is `None`. Other JavaScript values as labels are not modelled.
- `Utils.GenerateRecommendations`: the source throws when the database lacks `fraud`, `spam` or `ai`, or when the selected `ai` list is missing (js/utils.js:94-101). The model's `RecommendationDB` always holds all of them, so that error is not modelled. A missing fraud or spam bucket and a missing `general` list count as empty, as in the source.
- No trained score or detector score of a particular message is evaluated. Each would need a trained table, or the match counts of all 34 table patterns, 10 formal phrases and 4 common mistakes, on a concrete text.
- `SpamFilter.SpamClassifier.Learn`: the inner training loop accumulates into locals and stores them once at the end. The source updates its fields on every token; the final state is the same.
- `SpamFilter.SpamClassifier.Predict` and `PredictSpamProbability` require `Bounded()`: no word's count exceeds its class's counter. Every state the class's own methods reach satisfies it (`Valid` implies it, by `ValidBounded`), so this rules out only hand-edited fields.
- `SpamFilter.SpamClassifier.GetStats` states the counts and the length bound only. The order and completeness of the top words are stated by `TopWords` and `TopWordsComplete`.
- `Utils.CalculateOverallRisk` returns the unrounded score. The source formats it with `toFixed(2)`, and the page reads it back with `parseFloat`.
- `App.Assess` takes the verdict from the unrounded overall score. In the source, a score just below 30 or 70 that rounds up to the threshold is rounded first, so the verdict can differ there.
- `AIDetection.DetectAI` returns the probability as a number. The source formats it with `toFixed(2)`, and the page reads it back with `parseFloat`.
