# NFON inquiry classifier, modelled in Dafny

This project models the rule-based classifier of NFON-Chatbot. The
classifier reads German customer inquiries and recommends one of five NFON
AI products: voicebot, chatbot, live chat, speech-to-text or a general AI
solution. When no product fits, it answers "unclear". The model covers:

- the context scorer over the rule table (`analyzeContext`);
- the decision logic of `analyzeInquiry`: the highest score, confidence,
  the "unclear" override, the analysis sentence, the follow-up question and
  the reply to manually entered inquiries;
- the batch driver (`analyzeBatchInquiries`);
- the CSV reader (`parseCSV`);
- the product catalogue and the sample inquiries;
- the per-category tally, icon and confidence colour of the results view;
- the file-upload handler with its `.txt` line splitter.

Layout, one module per file:

- `types.dfy` (`Types`): inquiries, results and categories.
- `strings.dfy` (`JsStrings`): the JavaScript string built-ins the code uses:
  `includes`, `trim`, `toLowerCase`, `split` and number rendering.
- `products.dfy` (`Products`): the catalogue.
- `scoring.dfy` (`Scoring`): the rule table and the scorer.
- `classifier.dfy` (`Classifier`): the decision and the reply.
- `batch.dfy` (`Batch`): the batch driver.
- `csv.dfy` (`Csv`): CSV parsing.
- `results_view.dfy` (`ResultsView`): the results view.
- `file_uploader.dfy` (`Uploader`): the upload handler.

How the model represents things:

- **Scores.** Scores are integer tenths:
  - a trigger pattern is 20;
  - a business-need phrase is 15;
  - the five context boosters are 10, 8, 10, 10 and 10;
  - the "unclear" threshold is 15.

  Every addend but the chatbot booster's 0.8 is a multiple of 0.5. Only
  the chatbot category gets the 0.8, so a boosted chatbot score is 0.3
  more than a multiple of 0.5. It therefore stays at least 0.2 away from
  every other score and from the 1.5 threshold, and rounding in the code's
  doubles cannot flip a `>` or `<`. So tenths are exact and comparisons
  between scores come out as in the code.
- **Confidence.** Confidence is an exact `real`.
- **Loops.** The loops of the code are methods with loop invariants, each
  proved equal to a specification function:
  - `AnalyzeContext` against `ScoreVector`;
  - `Decide` against `Policy`, with its scan `ScanScores` against `Leader`,
    its confidence `Confident` against `Confidence`, its branches
    `Branches` against `Analyse` and its question `Ask` against `FollowUp`;
  - `AnalyzeBatch` against `ClassifyAll`, one turn at a time
    (`AnalyzeNext`);
  - `ParseCsv` against `CsvInquiries`;
  - `Tally` against `Count`.

  The properties the code promises are proved as lemmas about those
  functions.
- **Component state.** The component state that event handlers update is a
  class whose methods state the new state:
  - `ResultsView.ResultsPanel` holds the tally;
  - `Uploader.FileUploader` holds the file name, the loading flag and the
    inquiry lists handed on.

**The code differs from the intended behaviour in one place.** Repeating a
phrase that already occurs in an inquiry is meant to leave every score
unchanged. The code checks for phrases with substring search, so the
repeated text can form a new phrase where it joins the old text:

- `Scoring.RepeatCanRaise` proves that appending "echtzeit chat" to
  "echtzeit chat anruf" creates the voicebot pattern "anrufe" and raises the
  voicebot score.
- The model follows the code. What does hold, with the same boosters, is
  the presence-only property: `Scoring.PresenceOnly` and
  `Scoring.AppendNothingNew`.

## Model

| member | source | states |
|---|---|---|
| Types.Pos | src/types/index.ts:12 | every category, `unclear` included, has one fixed position in the key order voicebot, chatbot, livechat, speech-to-text, general-ai, unclear; exactly the five product categories come before `unclear` |
| Products.Catalogue | src/data/nfon-products.ts:12-113 | there are five products; product i has the i-th product category, so all five categories are covered once; product ids are pairwise distinct; every product has 5 key features and 4 use cases |
| Products.Find | src/services/analysisService.ts:210 | `find` by category returns the first listed product of that category, and returns nothing exactly when no product has that category |
| Products.FindProduct | src/data/nfon-products.ts:6 | looking up a category in the catalogue succeeds exactly when the category is not `unclear`, and returns that category's catalogue entry |
| Products.FindInLayout | src/services/analysisService.ts:153 | in any list laid out one product per category in key order, `find` succeeds exactly for the non-`unclear` categories and returns the entry at that category's position |
| Products.SampleInquiries | src/data/nfon-products.ts:115-146 | there are five sample inquiries with ids "1" to "5" in order; the ids are pairwise distinct; each has a non-empty text, a customer and a date |
| Scoring.Boost | src/services/analysisService.ts:128-147 | a category gains at most one booster bonus of at most 1.0, and gains one exactly when its own booster matches |
| Scoring.Matches | src/services/analysisService.ts:114-125 | the number of listed phrases found in the text is at most the length of the list |
| Scoring.ScoreVector | src/services/analysisService.ts:101-107 | the scores record has one entry per product category, in key order, each the score of that category |
| Scoring.AddPhraseWeights | src/services/analysisService.ts:114-125 | one phrase loop adds the weight once per listed phrase that occurs in the text and changes no other entry |
| Scoring.AnalyzeContext | src/services/analysisService.ts:99-150 | the scorer returns exactly the score vector of the lower-cased text |
| Scoring.ApplyBoosters | src/services/analysisService.ts:129-147 | each category's score grows by its booster bonus, and only by that |
| Scoring.ScoreBounds | src/services/analysisService.ts:101-147 | every score is at least 0 and at most the full weight of its two lists plus one bonus |
| Scoring.MatchesCounts | src/services/analysisService.ts:115 | a listed phrase that occurs in the text is counted |
| Scoring.MatchesPresenceOnly | src/services/analysisService.ts:114-125 | two texts in which the same listed phrases occur get the same count |
| Scoring.MatchesMonotone | src/services/analysisService.ts:114-125 | a text in which every phrase of another occurs counts at least as many |
| Scoring.MatchesStrict | src/services/analysisService.ts:114-125 | it counts strictly more when one more phrase occurs in it |
| Scoring.PresenceOnly | src/services/analysisService.ts:114-125 | scoring is presence-only: two texts with the same phrases of the table present, and the same boosters, get the same scores however often each phrase occurs |
| Scoring.AppendNothingNew | src/services/analysisService.ts:114-125 | with the same boosters, appending text that makes no new phrase of the table occur leaves every score unchanged |
| Scoring.ExtensionNeverLowers | src/services/analysisService.ts:114-125 | with the same boosters, extending a text never lowers a score |
| Scoring.SharedPhraseCountsTwice | src/services/analysisService.ts:15-96 | a phrase in both lists of a category weighs 2.0 + 1.5, so a text containing it scores at least 3.5 for that category |
| Scoring.SharedPhrases | src/services/analysisService.ts:15-96 | "anrufvolumen", "automatische antworten", "sofortige hilfe" and "omnichannel" are each in both lists of their category |
| Scoring.RepeatCanRaise | src/services/analysisService.ts:115 | repeating a phrase that is already present can still raise a score, through a new match across the seam |
| Scoring.NewPatternRaises | src/services/analysisService.ts:114-125 | extending a text so that a pattern of a category occurs that did not occur before raises that category's score by at least 2.0 |
| Scoring.AcrossTheSeam | src/services/analysisService.ts:115 | "anrufe" does not occur in "echtzeit chat anruf" but does once "echtzeit chat" follows it, because `includes` matches across the join |
| Classifier.Leader | src/services/analysisService.ts:176-184 | the strict `>` scan ends on a highest score; it stays `unclear`, at 0, exactly when no score is positive; otherwise its category's score is the maximum and every earlier category scores strictly less |
| Classifier.Min | src/services/analysisService.ts:197 | `Math.min` returns one of its arguments and is at most both |
| Classifier.FollowUp | src/services/analysisService.ts:222-246 | there is no question exactly when the category is not `unclear` and confidence is at least 0.9; the generic question is used for `unclear` or confidence below 0.7; otherwise the category's own canned question, never the default one |
| Classifier.Decide | src/services/analysisService.ts:176-246 | the decision loop and its branches compute exactly the decision policy of the scores |
| Classifier.ScanScores | src/services/analysisService.ts:176-184 | the scan over the five scores ends on the leader: the earliest category with the highest positive score, or `unclear` at 0 |
| Classifier.Branches | src/services/analysisService.ts:207-219 | the three analysis branches, run as statements, leave the same category and sentence as the analysis policy |
| Classifier.Confident | src/services/analysisService.ts:187-199 | the confidence computed by the statements is the formula: 0.3 unless the highest score and the total are positive, and then 0.4 plus 0.3 times a fifth of the highest score plus 0.3 times its share, capped at 0.95 |
| Classifier.Ask | src/services/analysisService.ts:222-246 | the question chosen by the statements is the generic one for `unclear` or confidence below 0.7, the category's own below 0.9, none otherwise |
| Classifier.AnalyzeInquiry | src/services/analysisService.ts:166-264 | analysing an inquiry gives exactly its classification: scores of the lower-cased text, the decision, and a reply for manual inquiries |
| Classifier.ClassifyShape | src/services/analysisService.ts:248-259 | the result keeps the inquiry; its category, confidence, analysis and question are the policy's for the inquiry's scores; it has a reply exactly when the id starts with "manual-" |
| Classifier.ScorerVectors | src/services/analysisService.ts:101-147 | every scorer output is a well-formed score vector: five entries, none negative |
| Classifier.TotalBounds | src/services/analysisService.ts:191 | the sum of non-negative scores is at least each of them, and at most their number times any bound on them |
| Classifier.LeaderShare | src/services/analysisService.ts:191-195 | on a score vector whose highest score is positive, the total is positive and the relative dominance, highest over total, lies between 0.2 and 1 |
| Classifier.ConfidenceBounds | src/services/analysisService.ts:187-205 | confidence always lies in [0.3, 0.95], and is exactly 0.3 when all scores are 0 and only then |
| Classifier.AllZeroIsBase | src/services/analysisService.ts:187-219 | with all scores 0 the verdict is `unclear` with confidence 0.3, the general analysis and the generic question |
| Classifier.UnclearIffLowScores | src/services/analysisService.ts:202-219 | the verdict is `unclear` exactly when every score is below 1.5; an `unclear` verdict has confidence at most 0.4 and the general analysis; a real category has confidence at least 0.55, so the third analysis branch never overrides it |
| Classifier.RecommendationIsEarliestMaximum | src/services/analysisService.ts:176-184 | a recommended category has the maximal score, and every category before it in key order scores strictly less, so ties go to the earliest |
| Classifier.FollowUpOfPolicy | src/services/analysisService.ts:222-246 | on every scorer output the question is absent exactly at confidence 0.9 or more with a real category, canned between 0.7 and 0.9, generic otherwise, and never the default one |
| Classifier.AnalysisNamesProduct | src/services/analysisService.ts:207-219 | the analysis is never empty, and a recommendation with confidence above 0.6 names its product |
| Classifier.AnalyseNamesProduct | src/services/analysisService.ts:207-219 | every analysis branch gives a non-empty sentence, and the confident branch names the category's product |
| Classifier.TentativeExample | src/services/analysisService.ts:214-215 | the middle analysis branch is reachable: five scores of 1.5 give voicebot with confidence 0.55, the tentative analysis and the generic question |
| Classifier.ResponseContent | src/services/analysisService.ts:152-164 | the reply to an `unclear` inquiry carries the follow-up question; the reply to any other names the recommended product |
| Classifier.UnclearReplyAsks | src/services/analysisService.ts:155-157 | the `unclear` reply template contains its question |
| Classifier.ProductReplyNames | src/services/analysisService.ts:159-163 | both product reply templates contain the product name |
| Batch.AnalyzeBatch | src/services/analysisService.ts:266-276 | the batch returns the classifications of the inquiries, one per inquiry, in order |
| Batch.AnalyzeNext | src/services/analysisService.ts:271-274 | one turn of the batch loop extends the classifications of the first i inquiries to those of the first i + 1 |
| Batch.ClassifyAllStep | src/services/analysisService.ts:271-274 | classifying one more inquiry of the list appends exactly its classification |
| Batch.BatchAlignment | src/services/analysisService.ts:271-274 | a batch has one result per inquiry; result i holds inquiry i; it has a reply exactly when that inquiry's id starts with "manual-" |
| Csv.QuoteCountAppend | src/services/analysisService.ts:313 | the quote count of a concatenation is the sum of the counts |
| Csv.FieldsOf | src/services/analysisService.ts:313 | splitting a line at its breaks always gives at least one field |
| Csv.FieldsJoin | src/services/analysisService.ts:313 | joining the fields of a line with commas gives the line back |
| Csv.FieldsWithoutQuotes | src/services/analysisService.ts:313 | in a line without quotes no field holds a comma |
| Csv.CsvFieldsPlain | src/services/analysisService.ts:313 | in a line without quotes, the field split is the plain split on commas |
| Csv.BreakOutsideQuotes | src/services/analysisService.ts:313 | in a line with balanced quotes, a comma splits exactly when an even number of quotes comes before it |
| Csv.QuoteCountAround | src/services/analysisService.ts:313 | the quotes of a line are those before a comma plus those after it |
| Csv.Substring | src/services/analysisService.ts:319 | `substring` never returns more than its input; with both bounds in range it is the part between them, in either order; with both bounds at or before the start, or both at or past the end, it is empty |
| Csv.StripQuotesChanges | src/services/analysisService.ts:318-320 | a field changes exactly when it has two or more characters and starts and ends with a quote; then it is the result between two quotes; a lone quote stays as it is |
| Csv.StripQuotesInverse | src/services/analysisService.ts:318-320 | stripping the quotes off a quoted value gives the value back |
| Csv.CsvLines | src/services/analysisService.ts:291-295 | splitting the trimmed content always gives at least one line, so the check for no lines never fires |
| Csv.SplitLines | src/services/analysisService.ts:291-303 | the lines are those of the trimmed content, and data starts at line 1 when the first line is a header, at line 0 otherwise, never past the end |
| Csv.Kept | src/services/analysisService.ts:307-310 | the kept line indices lie in the scanned range, belong to non-blank lines, and increase strictly |
| Csv.KeptComplete | src/services/analysisService.ts:307-310 | every non-blank line of the range is kept |
| Csv.RowsAt | src/services/analysisService.ts:332-337 | one inquiry is pushed per kept line |
| Csv.RowsAtIndex | src/services/analysisService.ts:332-337 | inquiry k is the row of the k-th kept line, with that line's index in its id |
| Csv.ParseCsv | src/services/analysisService.ts:288-351 | the parse loop computes exactly the inquiries of the non-blank data lines, in order |
| Csv.PushLine | src/services/analysisService.ts:307-338 | one loop step adds the row of line i when that line is not blank, and nothing otherwise |
| Csv.ParseLine | src/services/analysisService.ts:313-337 | a trimmed line becomes the inquiry with id `csv-i`, the unquoted first field as text, and the unquoted second and third fields as customer and date when present |
| Csv.UnquoteOptional | src/services/analysisService.ts:322-330 | an optional field is present exactly when the line has that many fields, and is then trimmed and unquoted |
| Csv.BlankTrimsToNothing | src/services/analysisService.ts:310 | a line is skipped exactly when it trims to nothing |
| Csv.KeptStep | src/services/analysisService.ts:307-310 | scanning one more line keeps one more index exactly when that line is not blank |
| Csv.RowsAtSnoc | src/services/analysisService.ts:332-337 | keeping one more line pushes exactly its row |
| Csv.CsvIdInjective | src/services/analysisService.ts:333 | two ids `csv-i` and `csv-j` are equal exactly when i and j are |
| Csv.CsvIdsDistinct | src/services/analysisService.ts:307-338 | the parsed inquiries have pairwise distinct ids |
| Csv.CsvLineYieldsInquiry | src/services/analysisService.ts:298-338 | line j yields an inquiry, with id `csv-j`, exactly when it comes after the header (if any) and is not blank |
| Csv.CsvHeaderSkipped | src/services/analysisService.ts:298-303 | the first line becomes an inquiry exactly when it mentions none of "text", "anfrage", "kunde" and is not blank |
| ResultsView.Count | src/components/AnalysisResults.tsx:32-35 | a category's count is at most the number of results |
| ResultsView.Tally | src/components/AnalysisResults.tsx:23-35 | after the tally all six categories are present and each holds the number of results with that category |
| ResultsView.CountsAddUp | src/components/AnalysisResults.tsx:32-35 | the six counts add up to the number of results |
| ResultsView.ResultsPanel.OnResultsChanged | src/components/AnalysisResults.tsx:21-39 | an empty result list leaves the tally as it was; a non-empty one replaces it with its own tally |
| ResultsView.Present | src/components/AnalysisResults.tsx:103-104 | there are never more summary rows than categories |
| ResultsView.RowTotalAppend | src/components/AnalysisResults.tsx:103-105 | the total of two row lists put together is the sum of their totals |
| ResultsView.SummaryOfTally | src/components/AnalysisResults.tsx:95-104 | for more than one result the summary lists, in key order, exactly the categories some result has, each with its count, and the counts add up to the number of results |
| ResultsView.SummaryListsCounts | src/components/AnalysisResults.tsx:103-104 | with the tally of the results, the rows of all six categories are exactly the categories with a non-zero count, each with its count, in key order |
| ResultsView.PresentRows | src/components/AnalysisResults.tsx:103-104 | the rows of any list of categories are those listed with a non-zero entry, each with that entry, in key order when the list is |
| ResultsView.PresentTotal | src/components/AnalysisResults.tsx:103-104 | leaving out zero rows does not change the total of the counts |
| ResultsView.PresentSix | src/components/AnalysisResults.tsx:103-105 | the rows of the six categories of a complete tally add up to its six entries |
| ResultsView.PresentSnoc | src/components/AnalysisResults.tsx:103-105 | one more category adds its entry to the total of the rows, whether or not it gets a row |
| ResultsView.ShownClassification | src/components/AnalysisResults.tsx:58-67 | a classified inquiry that is `unclear` shows the help icon and a red bar; a recommendation never has a red bar and shows the check icon exactly when its bar is green (the thresholds at 159-163); a result without a follow-up question always shows the check icon |
| Uploader.NonBlank | src/components/FileUploader.tsx:43 | the filter keeps only lines of the file that are not blank, and never more lines than there are |
| Uploader.NonBlankKeepsAll | src/components/FileUploader.tsx:43 | a file without blank lines keeps every line |
| Uploader.NonBlankEmpty | src/components/FileUploader.tsx:43 | nothing is kept exactly when every line is blank |
| Uploader.JoinBlank | src/components/FileUploader.tsx:43 | lines joined with line feeds are blank exactly when every line is |
| Uploader.TxtInquiriesShape | src/components/FileUploader.tsx:43-47 | a text file gives one inquiry per non-blank line, in order, with id `txt-k` for the k-th; each text is non-empty and already trimmed; there is no customer, date or source file |
| Uploader.TxtIdsDistinct | src/components/FileUploader.tsx:45 | the ids of a text file's inquiries are pairwise distinct |
| Uploader.TxtEmptyIffBlank | src/components/FileUploader.tsx:43-50 | a text file yields no inquiry exactly when it holds only white space |
| Uploader.TxtRoundTrip | src/components/FileUploader.tsx:43-47 | writing trimmed, non-empty texts one per line and reading the file back gives the same texts, in order |
| Uploader.FileUploader.HandleFileChange | src/components/FileUploader.tsx:17-75 | without a file, or with a name ending in neither ".csv" nor ".txt", nothing changes. Otherwise the name is shown. A ".csv" file goes to the CSV parser and any other accepted file to the line splitter. Inquiries are handed on only when there are some. A failed read hands on nothing. Loading ends in every case |
| Uploader.FileUploader.ClearFile | src/components/FileUploader.tsx:77-79 | clearing forgets the shown file name and changes nothing else |
| JsStrings.TrimIsTrimmed | src/services/analysisService.ts:308 | `trim` keeps a contiguous part of its input with no white space at either end, and gives nothing exactly for an all-space input |
| JsStrings.TrimIdempotent | src/components/FileUploader.tsx:46 | trimming twice is trimming once |
| JsStrings.ToLowerIdempotent | src/services/analysisService.ts:100 | lower-casing the already lower-cased text changes nothing, so the scorer's second `toLowerCase` is harmless |
| JsStrings.SplitJoin | src/services/analysisService.ts:291 | joining the pieces of a split with the separator gives back the input |
| JsStrings.JoinSplit | src/components/FileUploader.tsx:43 | splitting a join of separator-free pieces gives back the pieces |
| JsStrings.DecimalRoundTrip | src/services/analysisService.ts:333 | the decimal rendering of an index reads back as that index |
| JsStrings.NatToStringInjective | src/services/analysisService.ts:333 | distinct indices render differently |

## Left out

- The booster regular expressions (src/services/analysisService.ts:129-147)
  rely on JavaScript `\b` word boundaries. The model does not evaluate them.
  The caller supplies the set of boosters that matched. The batch driver
  takes a function from lower-cased text to that set.
- Scoring.AppendNothingNew: it holds the boosters fixed. Appending text can
  switch a `\b` booster off ("website" matches the chatbot booster,
  "websites" does not), so the lemma covers the phrase part of the score only.
- Scoring.ExtensionNeverLowers: it holds the boosters fixed. Extending a text
  can switch a `\b` booster off and so lower a score; the lemma covers the
  phrase part only.
- `toLowerCase`: only A–Z and Ä, Ö, Ü are lowered. Other Unicode case
  mappings are not modelled.
- Confidence uses exact real arithmetic, not IEEE-754 doubles. Rounding at
  the 0.4/0.6/0.7/0.9 boundaries is therefore not modelled.
- Time-dependent code is not modelled: the 1500 ms `setTimeout` and the
  Promise wrapping (src/services/analysisService.ts:167-169, 262).
- Batch.AnalyzeBatch: the `catch` branch (src/services/analysisService.ts:277-285)
  is unreachable. `analyzeInquiry` neither throws synchronously nor rejects
  its promise. An error inside its timer callback would leave the batch
  pending forever; this is not modelled.
- `parseCSV`'s `try`/`catch` is not modelled. Nothing in the modelled
  parsing throws, so the `catch` branch is unreachable there.
- `parseCSV`'s check for no lines is not modelled: it can never fire
  (`Csv.CsvLines`).
- The comma split in `parseCSV` uses a regular expression with a lookahead.
  The model states it as a split at commas followed by an even number of
  quotes (`Csv.IsBreak`), which is what the lookahead tests.
- Toasts, `console.error`, JSX rendering and percentage formatting are not
  modelled.
- The product icons and badge colours are not modelled.
- `file.text()` is asynchronous reading. The model takes the file content
  as given, or `None` when reading throws.
- Uploader.FileUploader.HandleFileChange: it does not model overlapping
  calls of the async handler. It also does not model the React render in
  which `isLoading` is true.
- ResultsView.ResultsPanel.OnResultsChanged: it does not model React effect
  timing. The model leaves out the render that shows the previous tally
  before the effect runs.
- ResultsView.SummaryRows: rows come in key order. `Object.entries` on the
  tally object gives that same insertion order.
- src/services/llmService.ts is never called by the classifier and is not
  part of this model.
- The React pages and the input components are not part of this model:
  src/pages/Index.tsx, src/components/InquiryInput.tsx,
  src/components/ApiKeyInput.tsx and src/components/Header.tsx.
- The "manual-" id prefix is given by InquiryInput.tsx. Here it is only a
  property of the inquiry's id.
