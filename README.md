# slack-hot-channel-deno: the ranking pipeline in Dafny

The original program is a Deno script. Once a day it reads the message history
of every non-archived public Slack channel and ranks the channels by how many
messages people (not bots) posted that day. A channel's count is taken from a
single page of at most 1000 messages per channel and time window. The program
compares that ranking with the previous day's and is meant to post the list as
one message attachment. This project models the
core of that pipeline and proves properties about it:

- `Calc` (`src/calc/index.ts`) sorts the aggregated channels in place by
  message count, highest first, and ranks them with the running
  previous-count/previous-rank rule. It then left-joins today's ranking with
  yesterday's on the channel id, adds up the message counts, and renders one
  attachment field per channel that has messages.
- `Slack` (`src/slack/index.ts`) holds the message-validity predicate, the
  history filter, the per-channel aggregation loop of `getData`, and the body
  that `postMessage` sends, with `ranking_count` applied as a JavaScript
  `slice(0, n)`.
- `Settings` (`src/settings.ts`) holds the defaults, the validation of the
  settings file, and the merge of the file over the defaults.
- `Types` holds the records of `src/type/data.ts` and `src/type/slack.ts`.
  `Seqs` models JavaScript's `Array.prototype.filter` and `slice(0, end)`.
  `Decimal` models how a template literal prints an integer.
  `Wrappers` holds `Option`, `Outcome` and `Result`.
- `CalcFixtures` restates the scenarios of `src/calc/index.test.ts` as lemmas.

How the source's constructs are modelled:

- `data.sort(...)` reorders the caller's array. `Calc.SortByMessageCount`
  therefore sorts an `array` in place. It is an insertion sort, which is stable
  like the engine's sort. It is specified by the function `Calc.SortByCount`.
  `Calc.StableSortIsSortByCount` shows that any stable sort by descending count
  gives the same sequence, so choosing insertion sort loses nothing.
- The closure `calcRank` threads `prevMessageCount` and `prevRank` from one
  call to the next. `Calc.AssignRanks` is a loop that carries them as
  variables. `prevMessageCount` starts as `None`, which models `undefined`.
- `calcRankingDiff`, `countSumOfMessages` and `getData` are loops that grow an
  accumulator, and they are modelled as methods with loops.
- Only the length of a channel's `messages` matters to the ranking
  (`AggregatedData.Count`). A `Message` keeps only its two optional fields,
  `bot_id` and `subtype`.
- `calcRatioPercentage` computes `(count / sum * 100).toFixed(1)` in floating
  point. The model takes that computation as a function parameter `toFixed`
  and models only the `%` appended after it.
- The `conversations.history` request is a function parameter of type
  `Slack.HistoryApi` that maps a channel and a time window to the history.
- A settings key that is absent from the file is `None`.

Three details of the code that the model keeps as written:

- An empty subtype `""` makes a message invalid, because it is neither absent
  nor `"thread_broadcast"`.
- `Settings.Settings` keeps the code's two optional filter lists, and a file
  that sets both is rejected.
- `diffToString` hard-codes `:arrow_right:`, `:arrow_up:` and `:arrow_down:`
  and never reads the `ranking_*_emoji` settings.

## Model

| member | source | states |
|---|---|---|
| Calc.Insert | src/calc/index.ts:74 | one step of the stable insertion sort: the result has exactly one more entry. Where the new entry goes is stated by Calc.InsertAtPosition, and that nothing else changes by Calc.InsertPermutes |
| Calc.SortByCount | src/calc/index.ts:74 | the reference stable sort by descending count, one insertion per entry: same length as the input. Its order, permutation and stability are Calc.SortByCountSorted, Calc.SortByCountPermutes and Calc.SortByCountStable |
| Calc.SortByCountSorted | src/calc/index.ts:73-75 | the sorted entries are in descending order of message count |
| Calc.SortByCountPermutes | src/calc/index.ts:73-75 | sorting keeps every channel: the sorted sequence is a permutation of the input |
| Calc.SortByCountStable | src/calc/index.ts:73-75 | sorting keeps the input order of channels with the same count (stability) |
| Calc.StableSortUnique | src/calc/index.ts:73-75 | two count-descending sequences that list each count's channels in the same order are equal, so a stable descending sort has one result |
| Calc.StableSortIsSortByCount | src/calc/index.ts:73-75 | any count-descending, stable reordering of the input equals the reference sort |
| Calc.InsertPermutes | src/calc/index.ts:73-75 | one insertion step adds exactly the inserted channel to the multiset |
| Calc.InsertSorted | src/calc/index.ts:73-75 | inserting into a count-descending sequence keeps it count-descending |
| Calc.InsertKeepsTies | src/calc/index.ts:73-75 | an inserted channel goes after every earlier channel with the same count |
| Calc.InsertAtPosition | src/calc/index.ts:73-75 | insertion places the channel after the last entry whose count is at least its own and before the smaller ones |
| Calc.InsertAt | src/calc/index.ts:74 | shifting one array element back into the sorted prefix produces the insertion of that element and leaves the rest of the array unchanged |
| Calc.SortByCountPrefix | src/calc/index.ts:74 | sorting a prefix one element longer is inserting that element into the sorted prefix |
| Calc.SortByMessageCount | src/calc/index.ts:74 | the caller's array is reordered in place into the stable count-descending sort of its old contents |
| Calc.CountGreaterAppend | src/calc/index.ts:54-71 | the number of entries with a strictly greater count is additive over concatenation |
| Calc.CountGreaterAll | src/calc/index.ts:54-71 | when every entry's count is greater, all entries are counted |
| Calc.CountGreaterNone | src/calc/index.ts:54-71 | when no entry's count is greater, none is counted |
| Calc.CountGreaterMonotone | src/calc/index.ts:54-71 | a higher threshold counts no more entries |
| Calc.CountGreaterSplit | src/calc/index.ts:54-71 | if the first i entries are above a count and the rest are not, exactly i entries are above it |
| Calc.CountGreaterAtBoundary | src/calc/index.ts:59-61 | in sorted input, at a position where the count changes (or at position 0), exactly i entries have a greater count, so rank i+1 is the competition rank there |
| Calc.CountGreaterStrict | src/calc/index.ts:54-71 | an entry above a threshold leaves fewer entries above its own count than above the threshold |
| Calc.SortedAt | src/calc/index.ts:73-75 | in a count-descending sequence an earlier entry's count is at least a later one's |
| Calc.CompetitionRankOrder | src/calc/index.ts:54-71 | equal counts get equal ranks and a strictly greater count gets a strictly smaller rank |
| Calc.TieRuleBounds | src/calc/index.ts:59-61 | under the previous-count rule every rank lies between 1 and its 1-based position |
| Calc.TieRuleMonotone | src/calc/index.ts:59-61 | under the previous-count rule ranks never decrease along the ranking |
| Calc.TieRuleIsCompetition | src/calc/index.ts:54-71 | on count-sorted input the previous-count rule gives each entry 1 plus the number of entries with a strictly greater count |
| Calc.AssignRanks | src/calc/index.ts:54-71 | the first entry gets rank 1, a tie with the predecessor takes its rank and anything else takes position+1. Ranks lie in 1..position+1 and never decrease, and on sorted input they are the competition ranks |
| Calc.CalcRankingOfDay | src/calc/index.ts:51-76 | the caller's array ends up stably sorted by count, highest first, and is a permutation of the input. The result keeps that order with competition ranks |
| Calc.FindIndexById | src/calc/index.ts:13-15 | finds the first entry with the given channel id; None exactly when no entry has that id |
| Calc.RankingDiffOf | src/calc/index.ts:13-21 | keeps today's channel and rank. The diff is 0 when yesterday has no entry for the channel, otherwise yesterday's first matching rank minus today's rank |
| Calc.CalcRankingDiff | src/calc/index.ts:4-25 | one diff entry per today entry, in today's order, each the join of that entry with yesterday's ranking |
| Calc.DiffAntisymmetric | src/calc/index.ts:13-21 | with unique ids, joining in the other direction negates the diff of each matched channel |
| Calc.SumOfMessages | src/calc/index.ts:78-85 | every channel's count is at most the total, and the total is 0 exactly when every channel has no messages |
| Calc.SumOfMessagesAppend | src/calc/index.ts:78-85 | the total is additive over concatenation |
| Calc.CountSumOfMessages | src/calc/index.ts:78-85 | the accumulator loop returns the total message count |
| Calc.DiffToString | src/calc/index.ts:92-102 | 0 renders as `:arrow_right:`, d > 0 as `:arrow_up: +d` and d < 0 as `:arrow_down: -|d|`. The throw cannot be reached for an integer |
| Calc.TrendLetter | src/calc/index.ts:92-102 | the eighth character of the trend text tells sideways, up and down apart |
| Calc.MagnitudeAfterGlyph | src/calc/index.ts:96-98 | after the up or down glyph and its sign, the rest of the text is the decimal magnitude of the diff |
| Calc.DiffToStringInjective | src/calc/index.ts:92-102 | different diffs render as different texts |
| Calc.FormatAttachmentFieldValue | src/calc/index.ts:27-38 | the line starts with `{rank}. <#{id}> ` and ends with `%)` |
| Calc.FormatAttachmentFieldValueParts | src/calc/index.ts:33-37 | for every entry, the line is `{rank}. <#{id}> `, then the trend text, then ` / 発言数: {count} (`, then the share and `%)`, each part at its position, and the length is the sum of the parts |
| Calc.LineShowsDirection | src/calc/index.ts:33-37 | the direction of the movement can be read from the line: eight characters after the channel link comes `r`, `u` or `d` for sideways, up and down |
| Calc.IsActive | src/calc/index.ts:45 | the `.filter` callback keeps an entry exactly when its channel has at least one message |
| Calc.FieldOf | src/calc/index.ts:46-48 | the `.map` callback gives a field with no title and no `short` flag, whose value is the rendered line |
| Calc.DataToAttachmentFields | src/calc/index.ts:40-49 | drops exactly the channels with no messages and keeps the rest in order, each rendered as a field with only a value. Every field comes from an active channel, and every active channel has its field |
| Calc.DataToAttachmentFieldsAppend | src/calc/index.ts:44-48 | the fields of concatenated inputs are the concatenated fields |
| Calc.AllActiveFields | src/calc/index.ts:44-48 | when every channel has messages, field i renders entry i |
| CalcFixtures.Aggregated | src/calc/index.test.ts:10-18 | the fixture record has the given name as id and name and the given number of messages |
| CalcFixtures.SortFive | src/calc/index.test.ts:81-101 | counts 10, 30, 20, 40, 50 for a..e sort to e, d, b, c, a |
| CalcFixtures.CalcRankingOfDayFixture | src/calc/index.test.ts:81-101 | the fixture ranks e=1, d=2, b=3, c=4, a=5, and no channels give no ranking |
| CalcFixtures.CalcRankingDiffFixture | src/calc/index.test.ts:33-55 | the fixture's two days give the diffs 1, -2, 4, -1, -2 |
| CalcFixtures.DataToAttachmentFieldsFixture | src/calc/index.test.ts:57-79 | the fixture total is 150 and field i is entry i rendered |
| CalcFixtures.LineOfDummy | src/calc/index.ts:33-37 | the complete line for a channel with 1 message out of 10 at rank 1, for any diff |
| CalcFixtures.FormatAttachmentFieldValueScenario | src/calc/index.ts:33-37 | the complete up (+3), down (-2) and sideways lines of that channel, with the percentage left as the parameter |
| Decimal.NatToString | src/calc/index.ts:33-37 | renders a natural number as decimal digits with no leading zero |
| Decimal.ParseNatToString | src/calc/index.ts:33-37 | reading the digits back gives the number |
| Decimal.NatToStringInjective | src/calc/index.ts:33-37 | different numbers render differently |
| Decimal.IntToString | src/calc/index.ts:33-37 | a leading `-` appears exactly for negative integers, followed by the digits of the magnitude. Non-negative integers render as their digits |
| Decimal.IntToStringInjective | src/calc/index.ts:33-37 | different integers render differently |
| Seqs.Filter | src/slack/index.ts:95 | the kept elements are elements of the input that satisfy the predicate |
| Seqs.FilterAppend | src/calc/index.ts:44-45 | filtering distributes over concatenation, so order is kept |
| Seqs.FilterMultiset | src/slack/index.ts:95 | each satisfying element is kept as often as it occurs, and no other element is kept |
| Seqs.FilterComplete | src/slack/index.ts:95 | every satisfying element of the input is kept |
| Seqs.FilterIdentity | src/calc/index.ts:44-45 | filtering changes nothing exactly when all elements satisfy the predicate, and filtering twice is filtering once |
| Seqs.SliceTo | src/slack/index.ts:122 | `slice(0, end)` is a prefix of min(end, length) elements, or of `length + end` elements (at least 0) for a negative end |
| Slack.ValidMessage | src/slack/index.ts:135-145 | a bot message is invalid whatever its subtype. Without a bot id, a message without a subtype is valid, and one with a subtype is valid exactly when the subtype is `thread_broadcast` |
| Slack.FetchHistory | src/slack/index.ts:75-100 | the returned messages are exactly the valid fetched messages, each as often as fetched, and none is invalid |
| Slack.ValidMessagesAppend | src/slack/index.ts:95 | filtering the history keeps the original order across any split |
| Slack.GetData | src/slack/index.ts:18-45 | one record per channel in channel order, with id and name copied from the channel and its filtered history as messages |
| Slack.PostMessageBody | src/slack/index.ts:102-125 | one attachment with the settings' channel, name, icon and color, the fixed author name and link, and the post's title and text. Its fields are a prefix of the post's fields, min(ranking_count, length) long for a non-negative ranking_count |
| Settings.GetDefaultSettings | src/settings.ts:50-71 | ranking count 20, user name `hot-channels`, icon `:tada:`, color `#95B88F`, switching hour 4, the three arrow emojis, empty post channel, no filters |
| Settings.ValidateSettings | src/settings.ts:73-83 | a missing or empty post channel fails first. Otherwise two present filter lists fail, even empty ones. Everything else passes |
| Settings.MergeSettings | src/settings.ts:95-104 | each field comes from the file when present and from the defaults otherwise. The filter lists are taken from the file |
| Settings.GetSettings | src/settings.ts:93-105 | returns the validation error when validation fails, and otherwise the merged settings. Those always have a non-empty post channel and at most one filter |
| Settings.MergeFullJson | src/settings.ts:95-104 | a file that sets every key overrides every default |
| Settings.MergeOnlyPostChannel | src/settings.ts:93-104 | a file with only a post channel gives the defaults with that channel, and it is accepted exactly when the channel is non-empty |
| Settings.GetSettingsOfValid | src/settings.ts:93-105 | any valid settings, written out as a file, resolve back to themselves |

## Left out

- HTTP: the requests of `fetchHistory` and `postMessage`, `fetchChannels` with its cursor pagination, and the 1.5 s delay between history requests. These are network I/O. The history response is a function parameter instead, and `postMessage` is modelled up to the body it would send.
- Slack.HistoryApi: the history request asks for one page (`limit=1000`) and never asks for the next one, so a channel with more messages in the window is undercounted. The parameter stands for that single page, and the model does not capture the cap.
- Calc.CalcRatioPercentage: the floating-point division and `toFixed(1)` are not modelled and come in as a function parameter. Only the appended `%` is modelled.
- Decimal.IntToString: the exponent notation JavaScript uses for magnitudes of 10^21 and above is not modelled, because message counts, ranks and diffs never reach that size.
- Slack.GetData: the progress log line and its `day` argument are left out because they are console output. The counter `i` feeds only that log line and is left out with it.
- Seqs.SliceTo: a non-integer `ranking_count` is not modelled. The setting is an integer here, and JSON numbers with fractions are not represented.
- Settings.MergeSettings: the conversion of the filter strings to `RegExp` is not modelled, so the lists stay as pattern strings. An invalid pattern, which would throw, is not modelled either.
- Settings.GetSettings: finding the settings file through the `--settings` argument and importing it is file I/O. The model starts from the parsed file. JSON `null` values and keys of the wrong type are not represented.
- Reading the date with moment and the +9:00 offset (`src/const/date.ts`), the environment (`src/env.ts`) and console logging are I/O and clock access.
- The `main` function in `src/index.ts` is not part of this model. It composes the I/O steps. As written, it calls `postMessage` without the settings argument, so `postMessage` fails when it destructures it and nothing is posted. It also filters channels on the nonexistent `settings.excludes`, so neither filter list is ever applied. `Slack.PostMessageBody` models `postMessage` as called with the settings.
- The configurable trend emojis in the settings are never read by `diffToString`, so the model uses the same hard-coded glyphs.
