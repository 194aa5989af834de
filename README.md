# CV analyzer scoring core, in Dafny

This project models the scoring core of a Laravel application that analyses
uploaded CVs. `CVController` turns the text extracted from a PDF into several
values:

- a summary, or a fixed fallback text;
- an estimate of the years of experience;
- three keyword scores (skills, soft skills, education);
- a relevance score.

The `CV` model then sets a fit score, the rounded mean of the four scores.

Modules, one per component:

- `PhpStrings` (`php_strings.dfy`): the PHP built-ins the core relies on,
  on ASCII text. These are `strtolower`, `str_contains`, `trim` with its
  default character list (space, tab, newline, carriage return, NUL,
  vertical tab) and `empty` on strings, which is true for `""` and `"0"`.
- `KeywordScoring` (`keyword_scoring.dfy`): the fixed keyword lists,
  `calculateScore` as a method with a loop, and
  `calculateRelevantExperience`. Both are proved against the specification
  function `Score`, which is min(100, 20 × number of matching list entries).
  Lemmas relate `Score` to the set of matching positions, to list
  concatenation and to the empty text.
- `ExperienceEstimator` (`experience.dfy`): `calculateExperienceYears` as a
  method with the source's loop and its in-place `processedPeriods` list.
  It is proved equal to the function `ExperienceYears`. The main lemma,
  `DateTotalIsSetSum`, shows that the date-range total is the sum of
  `end - start` over the SET of admissible periods. So each distinct period
  counts once, whatever the order of the matches or how often they repeat.
- `Summarizer` (`summarizer.dfy`): the decision `getSummary` takes on the
  service's response.
- `CVModel` (`cv_model.dfy`): PHP `round` of a quarter, half away from zero,
  and the `CV` class. Its `CalculateFitScore` changes only `fitScore`.
- `Pipeline` (`pipeline.dfy`): the guard and scoring sequence of `store`.
  The result is the tagged `Outcome` (`Analyzed(analysis)` or
  `EmptyExtraction`). `StoreAndRate` goes on to create the record and call
  `CalculateFitScore`.
- `PhpMath` (`php_math.dfy`): PHP's `min` and `max` on two integers.
- `Wrappers` (`wrappers.dfy`): `Option`.

Inputs that stand for the outside world:

- The extracted text is a `string`.
- The summarization response is a `SummaryResponse`: the success flag, and
  the value at `[0]['summary_text']` as an `Option<string>`. `None` means
  missing or null.
- The current year is an `int` parameter in place of `date('Y')`.
- The two regular-expression searches are inputs:
  - the date-range matches, in text order, as a `seq<DateMatch>`;
  - the first explicit "N years of experience" figure, as an `Option<nat>`.
- The file name and storage path are plain `string`s.

Behaviour of the code that a reader might not expect, which the model keeps:

- The relevance list is the concatenation `array_merge` builds, not a set
  union with duplicates removed. The two fixed lists share no keyword (`RelevantKeywordsDistinct`),
  so the result is the same.
- The summary can be empty if the service returns an empty
  `summary_text`: the code returns it verbatim (`SummaryEmptyOnlyFromService`).
- The guard also refuses text that trims to `"0"`, because PHP's `empty("0")`
  holds (`ZeroTextRejected`).
- Fit-score rounding is half away from zero (PHP `round`). For a
  non-negative sum s this equals (s + 2) / 4 in integer division.

## Model

| member | source | states |
|---|---|---|
| PhpStrings.Lower | app/Http/Controllers/CVController.php:165-168 | lower-casing keeps the length, leaves no capital letter, changes only capitals and shifts each to its small letter |
| PhpStrings.LowerIdempotent | app/Http/Controllers/CVController.php:165-168 | lower-casing an already lower-cased text changes nothing |
| PhpStrings.Contains | app/Http/Controllers/CVController.php:168 | the empty needle is found in every text, a found needle is no longer than the text, and a prefix is always found |
| PhpStrings.ContainsIffOccurs | app/Http/Controllers/CVController.php:168 | the substring test holds exactly when the lower-cased keyword occurs at some index of the lower-cased text |
| PhpStrings.ContainsInEmpty | app/Http/Controllers/CVController.php:168 | only the empty keyword occurs in the empty text |
| PhpStrings.TrimLeft | app/Http/Controllers/CVController.php:47 | the front part trim drops is all whitespace, and what is left does not start with whitespace |
| PhpStrings.TrimRight | app/Http/Controllers/CVController.php:47 | the back part trim drops is all whitespace, and what is left does not end with whitespace |
| PhpStrings.Trim | app/Http/Controllers/CVController.php:47 | trim returns a slice of the text whose outside is whitespace and whose ends are not; it is empty exactly when the text is all whitespace |
| PhpStrings.PhpEmpty | app/Http/Controllers/CVController.php:47 | only strings of length at most 1 count as empty: the empty string, and of the one-character strings exactly "0" |
| PhpMath.Min | app/Http/Controllers/CVController.php:173 | the result is at most both arguments and is one of them |
| PhpMath.Max | app/Http/Controllers/CVController.php:159 | the result is at least both arguments and is one of them |
| KeywordScoring.MatchCount | app/Http/Controllers/CVController.php:167-171 | the number of matching entries is at most the length of the list |
| KeywordScoring.Score | app/Http/Controllers/CVController.php:164-173 | a score is in [0, 100], a multiple of 20, and at most 20 per list entry |
| KeywordScoring.CalculateScore | app/Http/Controllers/CVController.php:162-174 | the loop's score equals min(100, 20 × matching entries), lower-casing text and keyword |
| KeywordScoring.CalculateRelevantExperience | app/Http/Controllers/CVController.php:176-180 | the relevance score is the score over the skills followed by developer, software, web, and is never below the skill score |
| KeywordScoring.MatchCountIsMatchedPositions | app/Http/Controllers/CVController.php:167-171 | the count equals the number of list positions k with lower(k) a substring of lower(text) |
| KeywordScoring.ScoreIsCappedMatchTotal | app/Http/Controllers/CVController.php:164-173 | score == min(20 × number of matching positions, 100) |
| KeywordScoring.MatchCountAppend | app/Http/Controllers/CVController.php:178 | counting over a concatenated list adds the counts of its two parts (nothing is de-duplicated) |
| KeywordScoring.ScoreGrowsWithList | app/Http/Controllers/CVController.php:167-173 | appending keywords to a list never lowers its score |
| KeywordScoring.RelevanceAtLeastSkill | app/Http/Controllers/CVController.php:176-179 | relevance score ≥ skill score for every text |
| KeywordScoring.EmptyTextScore | app/Http/Controllers/CVController.php:164-173 | the empty text scores 0 if and only if no list entry is the empty string |
| KeywordScoring.FixedListsScoreZeroOnEmptyText | app/Http/Controllers/CVController.php:14-16 | the empty text scores 0 against the skill, soft-skill, education and relevance lists |
| KeywordScoring.RelevantKeywordsDistinct | app/Http/Controllers/CVController.php:178 | the merged relevance list holds no keyword twice |
| KeywordScoring.ThreeSkillsExample | app/Http/Controllers/CVController.php:162-174 | "PHP, Laravel, JavaScript" scores 60 against the skill list |
| KeywordScoring.ThreeSkillsRelevance | app/Http/Controllers/CVController.php:176-179 | "PHP, Laravel, JavaScript" also scores 60 against the relevance list, as it names no role word |
| ExperienceEstimator.EndYear | app/Http/Controllers/CVController.php:118-122 | a four-digit end year is taken as it is; present, current and now each stand for the current year |
| ExperienceEstimator.DistinctPeriods | app/Http/Controllers/CVController.php:114-140 | the processed periods hold no period twice and only admissible ones (not in the future, start not after end) |
| ExperienceEstimator.Reconcile | app/Http/Controllers/CVController.php:149-151 | the result is one of the two signals; a positive explicit figure wins when the date total is 0 or within 2 of it; a zero figure, or one more than 2 from a non-zero total, leaves the total |
| ExperienceEstimator.Clamp | app/Http/Controllers/CVController.php:159 | the result is in [0, 50]; values inside pass unchanged, values outside go to the nearer bound |
| ExperienceEstimator.ExperienceYears | app/Http/Controllers/CVController.php:105-160 | the estimate is always in [0, 50] |
| ExperienceEstimator.CalculateExperienceYears | app/Http/Controllers/CVController.php:105-160 | the loop with its processed-period list, the reconciliation and the clamp compute ExperienceYears, which is in [0, 50] |
| ExperienceEstimator.DistinctPeriodsAreAdmissiblePeriods | app/Http/Controllers/CVController.php:124-130 | the processed list holds exactly the admissible periods named by the matches |
| ExperienceEstimator.DateTotalIsSetSum | app/Http/Controllers/CVController.php:116-140 | the date-range total is the sum of end − start over the set of distinct admissible periods |
| ExperienceEstimator.DateTotal | app/Http/Controllers/CVController.php:113-140 | the total the loop accumulates over the processed periods is never negative |
| ExperienceEstimator.DateTotalDependsOnPeriodsOnly | app/Http/Controllers/CVController.php:128-133 | match lists naming the same admissible periods give the same total, whatever their order and repetitions |
| ExperienceEstimator.DateTotalOfRepeatedRanges | app/Http/Controllers/CVController.php:128-133 | repeating every range leaves the total unchanged |
| ExperienceEstimator.DateTotalSkipsInadmissible | app/Http/Controllers/CVController.php:124-126 | a future or inverted range adds nothing |
| ExperienceEstimator.DateTotalAddsNewRange | app/Http/Controllers/CVController.php:128-133 | an admissible range not seen before adds end − start; one seen before adds nothing |
| ExperienceEstimator.NoSignalsNoExperience | app/Http/Controllers/CVController.php:113 | no date ranges and no explicit statement give 0 |
| ExperienceEstimator.ZeroStatementIgnored | app/Http/Controllers/CVController.php:143-151 | a figure of 0 acts like no statement, and then the estimate is min(date total, 50) |
| ExperienceEstimator.ExampleSingleRange | app/Http/Controllers/CVController.php:116-140 | "2018-2020" gives 2, and so does the same range written twice |
| ExperienceEstimator.ExampleOpenRange | app/Http/Controllers/CVController.php:118-122 | "2018-present" in 2024 gives 6 |
| ExperienceEstimator.ExampleStatementTooFarOff | app/Http/Controllers/CVController.php:149-151 | "2015-present" in 2024 with "5 years of experience" keeps 9 |
| ExperienceEstimator.ExampleStatementOnly | app/Http/Controllers/CVController.php:142-151 | "3+ years of experience" alone gives 3 |
| ExperienceEstimator.ExampleInvertedRange | app/Http/Controllers/CVController.php:124 | "2025-2020" contributes nothing at any current year |
| Summarizer.SummaryOf | app/Http/Controllers/CVController.php:97-102 | a failed response gives exactly "Error generating summary"; a successful one without the field gives exactly "Summary not available"; otherwise the field's text verbatim |
| Summarizer.SummaryDistinguishesOutcomes | app/Http/Controllers/CVController.php:97-102 | unless the service returns a sentinel text, the summary tells failure, missing field and success apart |
| Summarizer.SummaryEmptyOnlyFromService | app/Http/Controllers/CVController.php:99 | the summary is empty only when the service successfully returned an empty text |
| CVModel.RoundQuarter | app/Models/CV.php:25-30 | round(s / 4) is within half of s / 4, and ties go away from zero |
| CVModel.FitScore | app/Models/CV.php:25-30 | four times the fit score lies within 2 of the sub-score sum, and an exact half goes away from zero, so it is the mean rounded as PHP rounds |
| CVModel.RoundQuarterUnique | app/Models/CV.php:25-30 | RoundQuarter's contract determines the result |
| CVModel.FitScoreInRange | app/Models/CV.php:25-30 | sub-scores in [0, 100] give a fit score in [0, 100] |
| CVModel.FitScoreExactOnMultiplesOf20 | app/Models/CV.php:25-30 | sub-scores that are multiples of 20 give an exact mean that is a multiple of 5 |
| CVModel.FitScoreOfEqualScores | app/Models/CV.php:25-30 | four equal sub-scores x give x, so (100,100,100,100) gives 100 and (0,0,0,0) gives 0 |
| CVModel.FitScoreMixedExample | app/Models/CV.php:25-30 | (20, 40, 60, 80) gives 50 |
| CVModel.CV.constructor | app/Http/Controllers/CVController.php:59-68 | CV::create stores the eight attributes given and leaves fit_score unset |
| CVModel.CV.CalculateFitScore | app/Models/CV.php:23-32 | fit_score becomes round(mean of the four sub-scores); name, path, summary, years and sub-scores are unchanged |
| CVModel.CalculateFitScoreTwice | app/Models/CV.php:25-31 | a second call leaves the fit score as the first set it |
| Pipeline.Store | app/Http/Controllers/CVController.php:47-57 | text trimming to "" or "0" gives EmptyExtraction and nothing else does; otherwise the analysis holds the summary, the estimate and the four scores of that text, each in range and relevance ≥ skill |
| Pipeline.Rejected | app/Http/Controllers/CVController.php:47 | a text is refused exactly when it is all whitespace or trims to "0" |
| Pipeline.StoreAndRate | app/Http/Controllers/CVController.php:47-70 | a refused text makes no record; otherwise a fresh record with the given name and path whose summary, years and four scores are those of the text's analysis, and whose fit score is set from them, in [0, 100] and a multiple of 5 |
| Pipeline.BlankTextRejected | app/Http/Controllers/CVController.php:47-49 | all-whitespace text is refused |
| Pipeline.ZeroTextRejected | app/Http/Controllers/CVController.php:47-49 | a lone "0" between whitespace trims to "0" and is refused |
| Pipeline.ContentfulTextAnalyzed | app/Http/Controllers/CVController.php:47-49 | a text is analyzed if and only if it has a character outside trim's whitespace list and does not trim to "0" |

## Left out

- Upload and storage (`storeAs`, `Storage::delete`, `destroy`): these are filesystem I/O. The file name and path are inputs.
- PDF text extraction (`Smalot\PdfParser`): a foreign library. The extracted text is an input.
- The HTTP request to the summarization service, its headers and API key: network I/O. Only the decision on the response is modelled.
- The decoding of the JSON body: the value at `[0]['summary_text']` is an input. PHP's coercion of a non-string value to the `string` return type is not modelled.
- The two regular expressions (lines 110 and 142 of the controller) are not executed. Their matches are inputs. Two quirks of the date pattern are not modelled: it has no word boundaries, and the alternation lists the en dash twice, so no em dash is accepted.
- The period key: the source uses the string `"$start-$end"`. The model uses the pair of years, which is one-to-one on digit years.
- `strtolower` is ASCII lower-casing. Locale and multibyte behaviour are not modelled.
- `(int)` of very long digit strings overflows in PHP. The model uses unbounded integers.
- `date('Y')` is the `currentYear` parameter.
- Logging (`Log::info`, `Log::debug`, `Log::error`): side effects only.
- Eloquent persistence: `save()`, `orderBy()->get()`, redirects and flash messages. `CV::create` becomes the `CV` constructor, without the database write.
- The generic exception path of `store` (the `catch` at line 73). Besides the empty-text guard, the left-out calls can throw: `Http::post` in `getSummary` (lines 86-95) on a connection failure or timeout, and the database write of `CV::create` (line 59). Such an exception ends `store` with no record. The model has no case for it: `Outcome` has no `ProcessingFailure` case, `StoreAndRate` makes a record for every text that is not refused, and `SummaryResponse.successful == false` stands only for a response with a non-2xx status. A transport failure therefore does not yield "Error generating summary", although the design describes it that way.
- `$languageKeywords`: defined but never used.
- `index.blade.php` and `routes/web.php`: presentation and routing.
- The float result of PHP's `round`: the fit score is an integer.
