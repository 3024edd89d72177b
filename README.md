# Candidate matching pipeline — a Dafny model

The application is a hiring assistant. A recruiter uploads a JSON file of candidate records and
types a free-text hiring query such as "two senior React developers and a designer". The
server does the following:

- finds the array of records in the document and checks its shape;
- detects which keys hold names, e-mails, skills, experience and so on;
- normalises every record into a canonical candidate;
- keeps the candidates in a session store with a time to live.

The processing endpoint first asks the language model, once, to turn the query into a list
of role requirements. Then, for each role of that list, it:

- applies a lenient rule-based pre-filter;
- scores the survivors in batches of 100 with the model;
- has the model make a detailed final selection among the best fifty;
- streams progress events and finally the selections.

The selections can then be exported as CSV rows. Every model call goes through a client that
retries transient failures with a growing wait.

This project models that pipeline with the model, JSON parsing, clocks and transport taken
off. The proofs are about this model, and cover the properties the code is written to provide,
as the table below lists them: first-match rules, defaults, partition and ordering facts,
bounds on percentages, retry counts and cache expiry.

Modules, one per source file, plus shared helpers:

| module | file | models |
|---|---|---|
| `Wrappers`, `Strings`, `Seqs`, `Sorting`, `Json`, `Types` | wrappers.dfy, strings.dfy, seqs.dfy, sorting.dfy, json.dfy, types.dfy | `Option`/`Result`; the JavaScript string, array, sort, truthiness and `typeof` semantics the code relies on; the records of `types/*.ts` |
| `SchemaDetector` | schema_detector.dfy | `lib/parsers/schemaDetector.ts` |
| `CandidateNormalizer` | candidate_normalizer.dfy | `lib/parsers/candidateNormalizer.ts` |
| `JsonParser` | json_parser.dfy | `lib/parsers/jsonParser.ts` |
| `FileUtils` | file_utils.dfy | `lib/utils/fileUtils.ts` |
| `RuleBasedFilter` | rule_based_filter.dfy | `lib/filters/ruleBasedFilter.ts` |
| `QueryParser`, `ResponseRepair` | query_parser.dfy, response_repair.dfy | `lib/parsers/queryParser.ts`, plus the fence extraction, cleanup and brace trimming shared with the scorer and the analyser |
| `PromptBuilder` | prompt_builder.dfy | `lib/llm/promptBuilder.ts` |
| `BatchProcessor` | batch_processor.dfy | `lib/llm/batchProcessor.ts` |
| `DeepAnalyzer` | deep_analyzer.dfy | `lib/rankers/deepAnalyzer.ts` |
| `ProcessRoute`, `ProcessEndpoint` | process_route.dfy | `app/api/process/route.ts`: the event stream over any pipeline, then the stages as deployed |
| `Cache` | cache_manager.dfy | `lib/utils/cacheManager.ts` |
| `MistralClient` | mistral_client.dfy | `lib/llm/mistralClient.ts` |
| `ExportRoute` | export_route.dfy | `app/api/export/route.ts` |

## How the model is built

**JSON values.**
- A parsed JSON value is a `JsonValue`: null, bool, number (`real`), string, array, or object.
- An object is an ordered list of members, because `Object.keys` order decides every
  first-match rule.
- JavaScript `undefined` is `Option.None`.
- `Truthy` is the test behind `||` and `if (x)`: `undefined`, `null`, `false`, `0` and `""` are
  falsy.
- Where JavaScript would throw a `TypeError`, the model returns `Result.Err`. This covers
  reading a member of `null`, `Object.keys(null)`, calling `.match` on a number, and
  `url.includes` on a non-string.

**Mutable state.**
- Code that mutates state is written as methods with loops.
- Each such method is proved equal to a specification function. Examples are the key
  collection in `detectSchema`, the `Set` of skills, the experience accumulation, the
  batching and wave loops, the backwards `splice`, the route's role loop, the retry loop
  and the cache sweep.
- The lemmas then state the source's promises about those functions.

**Oracles.**
- The language model, `JSON.parse` of its replies, `JSON.stringify`, the markdown-stripping
  regular expressions, the text of non-integer numbers, and `calculateYearsFromDates` are
  function parameters.
- The parse oracles return the typed shapes the prompts ask for: `RawRole`, `RawScore` and
  `RawSelection`.

**The cache.**
- `CacheManager` is a class with two map fields.
- Every operation takes the current time `now` in milliseconds.

**The retry loop.**
- The retry loop reads attempt `k`'s outcome from `outcomes(k)`.
- It returns the calls it made and the waits it would have slept.

**The processing endpoint.**
- `sendProgress` appends a frame to a sequence.
- The query parser, filter, scorer, batch counter and analyser are passed in as a
  `Pipeline`.
- `ProcessEndpoint.RoutePipeline` supplies the modelled ones.

## Model

| member | source | states |
|---|---|---|
| `Types.DetectedSchema.Push` | lib/parsers/schemaDetector.ts:48-79 | pushing a key onto category `c` appends it to that list and leaves every other list unchanged |
| `Json.PropChainSpec` | lib/parsers/candidateNormalizer.ts:105-110 | `v.a \|\| v.b \|\| …` yields some member's value; it is truthy iff some member is, and otherwise it is the last member's value |
| `Json.PropChainFirstTruthy` | lib/parsers/candidateNormalizer.ts:223 | the chain yields the first truthy member |
| `Json.Or` | lib/parsers/candidateNormalizer.ts:9 | `a \|\| b` is `a` when `a` is truthy and `b` otherwise |
| `Json.ObjectKeys` | lib/parsers/schemaDetector.ts:38 | `Object.keys` fails exactly on `null`, and on an object gives the member names in order |
| `Json.TypeOf` | lib/utils/fileUtils.ts:16 | `typeof v` is `'object'` exactly for null, arrays and objects |
| `Json.ToNumber` | lib/filters/ruleBasedFilter.ts:50 | the operand of `>` as a number: a number is itself, a string is `Number` of its text, an array of two or more elements is NaN |
| `Json.ArrayReadsItsText` | lib/filters/ruleBasedFilter.ts:50 | an array compared with `>` is read as `Number(String(array))`, whenever its numbers print as text that reads back |
| `Json.IntTextReadsBack` | lib/filters/ruleBasedFilter.ts:50 | `Number(String(i))` is `i` for every integer |
| `Json.ForeignCharIsNaN` | lib/filters/ruleBasedFilter.ts:50 | text holding a character that is not a space, digit, sign or point converts to NaN |
| `Json.FieldLookupSpec` | lib/parsers/jsonParser.ts:18 | a member is found iff the object has one with that name, and the value is that of the first such member |
| `SchemaDetector.FieldTableCategories` | lib/parsers/schemaDetector.ts:3-14 | no row of the field table is the unknown category |
| `SchemaDetector.ClassifyInSpec` | lib/parsers/schemaDetector.ts:46-83 | the result is unknown iff no row from `t` on has a pattern contained in the key; otherwise it is some matching row's category and no earlier row matches |
| `SchemaDetector.ClassifyInFirstMatch` | lib/parsers/schemaDetector.ts:46-82 | when row `u` matches and no earlier row does, the key gets row `u`'s category (the first category in table order wins) |
| `SchemaDetector.ClassifySpec` | lib/parsers/schemaDetector.ts:42-88 | a key, normalised without `_`, blanks and `-`, gets the category of the first table row with a contained pattern, or unknown when there is none |
| `SchemaDetector.KeysOfErrPersists` | lib/parsers/schemaDetector.ts:37-39 | once a sampled record throws, later records change nothing |
| `SchemaDetector.KeysOfSpec` | lib/parsers/schemaDetector.ts:36-39 | the sampled keys are distinct, and a key is sampled iff one of the first 50 records has it |
| `SchemaDetector.KeysOfOrder` | lib/parsers/schemaDetector.ts:36-39 | the collected keys are the sampled records' keys, one after another, deduplicated in first-seen order, as a `Set` iterates |
| `SchemaDetector.KeysOfOk` | lib/parsers/schemaDetector.ts:37-39 | key collection succeeds when no sampled record is `null` |
| `SchemaDetector.OfCategoryMembers` | lib/parsers/schemaDetector.ts:42-88 | a key is in a category's list iff it is a collected key classified into that category |
| `SchemaDetector.SchemaOfLists` | lib/parsers/schemaDetector.ts:42-88 | each list of the schema is exactly the keys of its category, in key order |
| `SchemaDetector.SchemaOfPartition` | lib/parsers/schemaDetector.ts:42-88 | every key appears in the list of its own category and in no other list |
| `SchemaDetector.CollectKeys` | lib/parsers/schemaDetector.ts:36-39 | the nested key-collection loop computes `KeysOf` of the sample |
| `SchemaDetector.ClassifyInto` | lib/parsers/schemaDetector.ts:43-87 | one key joins exactly the list of its category |
| `SchemaDetector.ClassifyAll` | lib/parsers/schemaDetector.ts:42-88 | the classification loop builds `SchemaOf` of the keys |
| `SchemaDetector.DetectSchema` | lib/parsers/schemaDetector.ts:16-91 | `detectSchema` returns `SchemaResult`: the error on an empty list, else the schema of the first 50 records' keys |
| `SchemaDetector.DetectSchemaSucceeds` | lib/parsers/schemaDetector.ts:17-19 | without sampled `null` records, a schema is returned iff the list is non-empty |
| `SchemaDetector.ExtractFieldValueSpec` | lib/parsers/schemaDetector.ts:93-100 | the result is the value of the first listed field that is not undefined, `null` or `''`; it is nothing iff every field is absent or blank |
| `SchemaDetector.ZeroAndFalseArePresent` | lib/parsers/schemaDetector.ts:95 | `0` and `false` are returned, `''` is not |
| `SchemaDetector.CommaItems` | lib/parsers/schemaDetector.ts:110 | a comma-split string gives only non-empty string items |
| `SchemaDetector.ExtractArrayFieldSpec` | lib/parsers/schemaDetector.ts:102-114 | the first field holding an array (returned as is) or a string (split) decides; without one the result is `[]` |
| `SchemaDetector.BlankStringFieldWins` | lib/parsers/schemaDetector.ts:108-111 | a string that splits into nothing still wins over a later array field |
| `CandidateNormalizer.AddAll` | lib/parsers/candidateNormalizer.ts:58-91 | adding values to the insertion-ordered skill set gives `AppendNew` |
| `CandidateNormalizer.AddPieces` | lib/parsers/candidateNormalizer.ts:62-65 | a skills string adds its non-blank `/[,;\|]/` pieces, trimmed |
| `CandidateNormalizer.AddSkillEntries` | lib/parsers/candidateNormalizer.ts:60-71 | the first loop adds each entry's pieces, or an object's `name \|\| skill \|\| technology` |
| `CandidateNormalizer.AddTechEntries` | lib/parsers/candidateNormalizer.ts:74-89 | the second loop adds the experience entries' `technologies \|\| tech_stack \|\| skills` |
| `CandidateNormalizer.ExtractSkills` | lib/parsers/candidateNormalizer.ts:56-92 | `extractSkills` returns `SkillList`, the skill stream deduplicated |
| `CandidateNormalizer.SkillListSpec` | lib/parsers/candidateNormalizer.ts:56-92 | skills are distinct; a skill is listed iff some entry contributes it; the skills field's own skills come first, in first-seen order |
| `CandidateNormalizer.SkillPiecesAreTrimmed` | lib/parsers/candidateNormalizer.ts:62-65 | every kept piece is non-empty and trimmed, and each non-blank piece is kept after trimming |
| `CandidateNormalizer.ExtractYearsFromDuration` | lib/parsers/candidateNormalizer.ts:255-266 | fails exactly on a truthy non-string, where `.match` throws; a returned number is positive; on a string the result is `Y + M/12` when that is positive and `null` otherwise, with `Y` and `M` the first year and month matches (0 when absent) |
| `CandidateNormalizer.YearsAndMonthsExample` | lib/parsers/candidateNormalizer.ts:258-265 | "2 years 3 months" is 2.25 years |
| `CandidateNormalizer.YearsOfExample` | lib/parsers/candidateNormalizer.ts:258 | the year pattern in "2 years 3 months" captures 2 |
| `CandidateNormalizer.MonthsOfExample` | lib/parsers/candidateNormalizer.ts:259 | the month pattern in "2 years 3 months" captures 3 |
| `CandidateNormalizer.YearsWordHasNoDigit` | lib/parsers/candidateNormalizer.ts:259 | the month search skips the word " years " |
| `CandidateNormalizer.SecondDigitIsMonths` | lib/parsers/candidateNormalizer.ts:259 | from the second digit run, the month pattern captures 3 |
| `CandidateNormalizer.FirstDigitIsNotMonths` | lib/parsers/candidateNormalizer.ts:259 | the first digit run, followed by "years", is not a month match |
| `CandidateNormalizer.SkipNonDigits` | lib/parsers/candidateNormalizer.ts:258-259 | positions without a digit never start a match |
| `CandidateNormalizer.MonthsOnlyExample` | lib/parsers/candidateNormalizer.ts:259-265 | "18 mos" is 1.5 years |
| `CandidateNormalizer.NoDurationExamples` | lib/parsers/candidateNormalizer.ts:256-265 | "Present" gives `null`; a number throws |
| `CandidateNormalizer.NoDigitNoMatch` | lib/parsers/candidateNormalizer.ts:258-259 | a text without digits matches no duration |
| `CandidateNormalizer.UnitMatchSpec` | lib/parsers/candidateNormalizer.ts:258-259 | a match exists iff some digit run, after blanks, is followed by the unit word, case-insensitively; a match is the value of the digit run at the first such position |
| `CandidateNormalizer.UnitMatchAt` | lib/parsers/candidateNormalizer.ts:258-259 | when `q` is the first position whose digit run is followed by the unit, the captured number is the value of that run |
| `CandidateNormalizer.ExperienceItemOf` | lib/parsers/candidateNormalizer.ts:104-113 | an item's `endDate` is always truthy, and is `'Present'` when no end-date member is truthy |
| `CandidateNormalizer.RoundTenth` | lib/parsers/candidateNormalizer.ts:135 | `Math.round(x*10)/10` lies within 0.05 of `x` |
| `CandidateNormalizer.CollectExperience` | lib/parsers/candidateNormalizer.ts:98-121 | the experience loop computes `ExperienceOf`: the items and the summed years |
| `CandidateNormalizer.ExtractExperience` | lib/parsers/candidateNormalizer.ts:94-136 | `extractExperience` uses the entries' years, or the direct field when the sum is 0, rounded to a tenth |
| `CandidateNormalizer.ExperienceOfErrPersists` | lib/parsers/candidateNormalizer.ts:102-121 | a throwing entry ends the loop with that error |
| `CandidateNormalizer.ExperienceItemsSpec` | lib/parsers/candidateNormalizer.ts:102-114 | there is one item per object entry, in order |
| `CandidateNormalizer.ExperienceTotalSpec` | lib/parsers/candidateNormalizer.ts:102-120 | the total is the sum of the items' years, from the dates or else from the duration, an item without years adding 0 |
| `CandidateNormalizer.NoEntriesUseDirectField` | lib/parsers/candidateNormalizer.ts:124-135 | with no entries, the years come from the direct field alone: a number as is, a string by its first digit run |
| `CandidateNormalizer.ExtractEducation` | lib/parsers/candidateNormalizer.ts:138-157 | the loop computes `EducationOf` of the education field |
| `CandidateNormalizer.EducationCount` | lib/parsers/candidateNormalizer.ts:142-154 | exactly the object and string entries give an item |
| `CandidateNormalizer.ExtractSalary` | lib/parsers/candidateNormalizer.ts:159-184 | a falsy salary value gives undefined |
| `CandidateNormalizer.SalaryShapes` | lib/parsers/candidateNormalizer.ts:164-183 | a number is the expected salary; an object gives the record `{current: current or current_salary, expected: expected or expected_salary, currency: currency or 'USD'}`, so always a currency; a string gives a salary iff it holds a digit, and then `{expected: the value of its first digit run}`; a boolean gives none |
| `CandidateNormalizer.FirstNumberFound` | lib/parsers/candidateNormalizer.ts:177-180 | `/\d+/g` finds a number iff the text holds a digit |
| `CandidateNormalizer.FirstNumberAt` | lib/parsers/candidateNormalizer.ts:177-180 | when `k` is the first digit, the number found is the value of the whole digit run starting at `k` |
| `Strings.FirstNumberFrom` | lib/parsers/candidateNormalizer.ts:177-180 | no result means no digit; a result is the value of the digit run at the first digit |
| `CandidateNormalizer.IfTruthy` | lib/parsers/candidateNormalizer.ts:195-203 | a direct link is set only when truthy, and then to that value |
| `CandidateNormalizer.ApplyPortfolioEntries` | lib/parsers/candidateNormalizer.ts:206-217 | the portfolio loop computes `LinksOf` |
| `CandidateNormalizer.ExtractPortfolioLinks` | lib/parsers/candidateNormalizer.ts:186-220 | `extractPortfolioLinks` sets the direct fields first, then applies each entry |
| `CandidateNormalizer.LinksOfErrPersists` | lib/parsers/candidateNormalizer.ts:206-217 | a throwing entry ends the loop with that error |
| `CandidateNormalizer.LinksKeepTruthy` | lib/parsers/candidateNormalizer.ts:194-217 | a truthy slot, such as a direct field, is never overwritten by a portfolio entry |
| `CandidateNormalizer.GithubFallsThrough` | lib/parsers/candidateNormalizer.ts:209-215 | a github URL whose slot is taken fills the empty portfolio slot |
| `CandidateNormalizer.OwnSummaryWins` | lib/parsers/candidateNormalizer.ts:223-224 | a non-empty own summary string is used verbatim |
| `CandidateNormalizer.RoleAndLocationSummary` | lib/parsers/candidateNormalizer.ts:227-234 | otherwise role and `based in <location>` are joined by a space |
| `CandidateNormalizer.FallbackSummary` | lib/parsers/candidateNormalizer.ts:234 | with neither, the summary is `'No summary available'` |
| `CandidateNormalizer.NormalizeCandidate` | lib/parsers/candidateNormalizer.ts:4-54 | fails exactly on a `null` record or a throwing experience or link pass; on success it keeps the record as `rawData` |
| `CandidateNormalizer.NormalizeDefaults` | lib/parsers/candidateNormalizer.ts:9-13 | the id defaults to `candidate_<index>`, the name to `Candidate <index>`, the email to `''`; the skills hold no duplicates |
| `CandidateNormalizer.MapIndexedSpec` | lib/parsers/candidateNormalizer.ts:272-274 | a successful indexed map keeps the length and gives element `i` the result of `f(xs[i], i)` |
| `CandidateNormalizer.MapIndexedOk` | lib/parsers/candidateNormalizer.ts:272-274 | the map succeeds iff every element's call does |
| `CandidateNormalizer.NormalizeCandidatesSpec` | lib/parsers/candidateNormalizer.ts:268-275 | `normalizeCandidates` keeps the length and normalises record `i` with index `i` |
| `CandidateNormalizer.NormalizeCandidatesOk` | lib/parsers/candidateNormalizer.ts:268-275 | it succeeds exactly when every record normalises |
| `JsonParser.KnownArray` | lib/parsers/jsonParser.ts:15-21 | a found known member holds that array |
| `JsonParser.AnyNonEmptyArray` | lib/parsers/jsonParser.ts:24-28 | a found member holds that array, and the array is non-empty |
| `JsonParser.TopLevelArrayIsReturned` | lib/parsers/jsonParser.ts:8-10 | a top-level array is returned unchanged |
| `JsonParser.KnownArrayWins` | lib/parsers/jsonParser.ts:13-21 | the first known name holding an array wins, even when the array is empty |
| `JsonParser.KnownArrayFirst` | lib/parsers/jsonParser.ts:17-21 | the known-name search returns the first of the names with an array |
| `JsonParser.NoArrayIsAnError` | lib/parsers/jsonParser.ts:24-31 | without a known array or any non-empty array member, "Could not find candidate array" is raised |
| `JsonParser.NoKnownArray` | lib/parsers/jsonParser.ts:17-21 | without an array under a known name the first search finds nothing |
| `JsonParser.NoNonEmptyArray` | lib/parsers/jsonParser.ts:24-28 | without a non-empty array member the second search finds nothing |
| `JsonParser.AnyNonEmptyArrayFirst` | lib/parsers/jsonParser.ts:24-28 | the second search returns the array of the first key, in `Object.keys` order, holding a non-empty array |
| `JsonParser.AnyNonEmptyArrayFound` | lib/parsers/jsonParser.ts:24-28 | the second search finds an array iff some key holds a non-empty array |
| `JsonParser.FirstNonEmptyArray` | lib/parsers/jsonParser.ts:24-28 | when some key holds a non-empty array there is a first such key |
| `JsonParser.FallbackArrayWins` | lib/parsers/jsonParser.ts:13-28 | without an array under a known name, the first member holding a non-empty array is the candidate list |
| `JsonParser.ValidateCandidateData` | lib/parsers/jsonParser.ts:40-90 | the counting loop computes `ValidationOf` |
| `JsonParser.ValidationStats` | lib/parsers/jsonParser.ts:49-89 | invalid iff not a non-empty array, with all-zero stats; when valid, `total` is the length and `withName`, `withEmail` are at most `total` |
| `JsonParser.NonObjectsDoNotCount` | lib/parsers/jsonParser.ts:72-74 | records that are not objects count for neither name nor email |
| `FileUtils.ValidateJsonStructure` | lib/utils/fileUtils.ts:11-40 | the result is valid iff it carries no error message |
| `FileUtils.ScalarsAreInvalid` | lib/utils/fileUtils.ts:12-18 | scalars are invalid; falsy ones with "Empty file content" |
| `FileUtils.ArrayRule` | lib/utils/fileUtils.ts:21-31 | an array is valid iff it is non-empty and its first element's `typeof` is `'object'`; later elements are not looked at |
| `FileUtils.ObjectRule` | lib/utils/fileUtils.ts:33-39 | an object is valid iff one of its members is an array |
| `FileUtils.EmptyArrayMemberPasses` | lib/utils/fileUtils.ts:34-37 | a member holding an empty array suffices |
| `RuleBasedFilter.LowerAll` | lib/filters/ruleBasedFilter.ts:17-18 | lower-casing a list keeps its length and lower-cases each skill |
| `RuleBasedFilter.ApplyRuleBasedFilter` | lib/filters/ruleBasedFilter.ts:4-55 | the output is a subsequence of the input; with no criteria it is the input; otherwise it keeps exactly the passing candidates, each with as many copies as the input holds, and no copy of a failing one |
| `RuleBasedFilter.AsWrittenAgreesWithoutNulls` | lib/filters/ruleBasedFilter.ts:40-51 | without `null` bounds, the corrected test and the test as written agree |
| `RuleBasedFilter.ExperienceSlack` | lib/filters/ruleBasedFilter.ts:41-46 | with a minimum of 4, 3 years pass and 2 fail; with a maximum of 5, 7 years pass and 7.5 fail |
| `RuleBasedFilter.UnknownsPass` | lib/filters/ruleBasedFilter.ts:41-51 | unknown years and an unknown expected salary are never grounds for rejection |
| `RuleBasedFilter.ExtraSkillKeepsPassing` | lib/filters/ruleBasedFilter.ts:16-37 | adding a skill never makes a passing candidate fail |
| `RuleBasedFilter.SkillMatchScoreBounds` | lib/filters/ruleBasedFilter.ts:57-73 | the skill score lies in [0, 1] |
| `RuleBasedFilter.FullMatchScoresOne` | lib/filters/ruleBasedFilter.ts:63-72 | a candidate holding every required skill scores 1 |
| `RuleBasedFilter.ScoreSkillMatch` | lib/filters/ruleBasedFilter.ts:57-73 | the counting loop computes the matched share, which lies in [0, 1] |
| `RuleBasedFilter.CalculateSeniorityLevel` | lib/filters/ruleBasedFilter.ts:75-81 | each level exactly on its band: `unknown` iff the years are undefined or 0, `junior` iff below 2 (and not 0), `mid` iff in [2, 5), `senior` iff in [5, 8), `lead` iff at least 8 |
| `RuleBasedFilter.SeniorityMonotone` | lib/filters/ruleBasedFilter.ts:77-80 | more years never give a lower level |
| `QueryParser.RoleDefaults` | lib/parsers/queryParser.ts:46-55 | the count defaults to 1 when missing or 0 and the seniority to `'any'`; skills default to `[]`; title, bounds and salary range are copied unchanged |
| `QueryParser.RoleRoundTrip` | lib/parsers/queryParser.ts:46-55 | a role that already has its defaults reads back as itself |
| `QueryParser.RoleDefaultsIdempotent` | lib/parsers/queryParser.ts:46-55 | filling the defaults twice is filling them once |
| `QueryParser.RolesOf` | lib/parsers/queryParser.ts:45 | the role map succeeds iff `roles` is present and no role is `null`; it gives one role per parsed role |
| `QueryParser.RoleList` | lib/parsers/queryParser.ts:45-55 | role `i` of the output is role `i` of the reply, with defaults filled |
| `QueryParser.ParseQuery` | lib/parsers/queryParser.ts:32-56 | the result is `Ok` iff the extracted JSON text parses and has a `roles` list without `null`; `originalQuery` echoes the query |
| `ResponseRepair.FenceBodyStart` | lib/parsers/queryParser.ts:36 | the fenced text starts just after the opening fence, or after `json` when that follows it |
| `ResponseRepair.FenceContentFound` | lib/parsers/queryParser.ts:36-38 | a fenced block is found iff the text holds two non-overlapping fences |
| `ResponseRepair.JsonHasNoFence` | lib/parsers/queryParser.ts:36 | a fence cannot start inside the word `json` |
| `ResponseRepair.UnfencedReplyIsTrimmed` | lib/parsers/queryParser.ts:35-39 | a reply without a fence is parsed whole, trimmed |
| `ResponseRepair.JsonContentIsTrimmed` | lib/parsers/queryParser.ts:35-39 | the text handed to `JSON.parse` has no surrounding blanks |
| `ResponseRepair.ControlToSpace` | lib/rankers/deepAnalyzer.ts:84 | control characters become spaces and nothing else changes |
| `ResponseRepair.RemoveTrailingCommas` | lib/rankers/deepAnalyzer.ts:86 | the comma pass never lengthens the text |
| `ResponseRepair.NoCommaNoChange` | lib/rankers/deepAnalyzer.ts:86 | without commas the comma pass changes nothing |
| `ResponseRepair.CommasKeepClean` | lib/rankers/deepAnalyzer.ts:86 | the comma pass adds no control character |
| `ResponseRepair.RemoveTrailingCommasSpec` | lib/rankers/deepAnalyzer.ts:86 | the comma pass deletes exactly the commas that blanks and a `}` or `]` follow, with those blanks, and keeps every other character in order |
| `ResponseRepair.RemoveTrailingCommasKeeps` | lib/rankers/deepAnalyzer.ts:86 | from any position outside a deleted run of blanks, the left-to-right scan keeps exactly the characters that are not deleted |
| `ResponseRepair.DroppedRun` | lib/rankers/deepAnalyzer.ts:86 | the blanks between a deleted comma and its bracket are all deleted |
| `ResponseRepair.CollapseWhitespace` | lib/rankers/deepAnalyzer.ts:87 | every blank is a single space, no two blanks are adjacent, and a non-blank start stays non-blank |
| `ResponseRepair.Cleanup` | lib/rankers/deepAnalyzer.ts:71-88 | the cleaned text holds no control character other than a space |
| `ResponseRepair.CollapsedFromClean` | lib/rankers/deepAnalyzer.ts:87 | collapsing adds no control character |
| `ResponseRepair.TrimIsInfix` | lib/rankers/deepAnalyzer.ts:88 | the trimmed text is a contiguous part of the original |
| `ResponseRepair.InfixKeepsSingleBlanks` | lib/rankers/deepAnalyzer.ts:87-88 | a part of a collapsed text has no two adjacent blanks |
| `ResponseRepair.CleanupShape` | lib/rankers/deepAnalyzer.ts:84-88 | the cleaned text has no blank at either end and never two blanks in a row |
| `ResponseRepair.TrimToOpeningBrace` | lib/rankers/deepAnalyzer.ts:93-100 | the text is unchanged or loses a non-empty prefix |
| `ResponseRepair.TrimToClosingBrace` | lib/rankers/deepAnalyzer.ts:102-109 | the text is unchanged or loses a non-empty suffix |
| `ResponseRepair.OccursAtChar` | lib/rankers/deepAnalyzer.ts:95 | a one-character text occurs at `i` iff that character is at `i` |
| `ResponseRepair.TrimToOpeningBraceSpec` | lib/rankers/deepAnalyzer.ts:93-100 | a text holding a `{` is cut to start at its first `{` |
| `ResponseRepair.TrimToClosingBraceSpec` | lib/rankers/deepAnalyzer.ts:102-109 | a text with a `}` after its first character ends with `}` after trimming |
| `ResponseRepair.TrimToBracesSpec` | lib/rankers/deepAnalyzer.ts:93-109 | a text holding a `{` comes out starting with `{`; ending with `}` when a `}` follows; and as the whole suffix from its first `{` when no `}` follows |
| `ResponseRepair.TrimToLastClosingBrace` | lib/rankers/deepAnalyzer.ts:102-109 | a text is cut to end at its last `}` when that `}` is past index 0, and left as it is when that `}` is at index 0 |
| `ResponseRepair.NoClosingBrace` | lib/rankers/deepAnalyzer.ts:102-109 | a text without `}` is left as it is |
| `ResponseRepair.TrimToBracesSpan` | lib/rankers/deepAnalyzer.ts:93-109 | a text with a `{` and a later last `}` comes out as exactly the span from its first `{` to its last `}` |
| `PromptBuilder.BatchSummaryOfSpec` | lib/llm/promptBuilder.ts:8-15 | id and name are kept; a non-empty role and a present experience are shown as they are, and are `'Not specified'` and 0 when falsy; a non-empty summary is cut to its first min(200, n) characters, 200 of them when it is longer, and is `'No summary'` when falsy; at most the first 15 skills are shown, joined by `', '` |
| `PromptBuilder.BatchSummaries` | lib/llm/promptBuilder.ts:8-15 | one summary per candidate, in order |
| `PromptBuilder.MinLine` | lib/llm/promptBuilder.ts:23 | the minimum line is empty iff the minimum is falsy |
| `PromptBuilder.MaxLine` | lib/llm/promptBuilder.ts:24 | the maximum line is empty iff the maximum is falsy |
| `PromptBuilder.BatchHeaderNames` | lib/llm/promptBuilder.ts:17 | the header names the number of candidates and the role title |
| `PromptBuilder.BatchScoringLines` | lib/llm/promptBuilder.ts:17-27 | the prompt's header, its conditional lines and the serialised summaries are where the template puts them |
| `PromptBuilder.ExperienceTexts` | lib/llm/promptBuilder.ts:50 | one text per experience entry, in order |
| `PromptBuilder.EducationTexts` | lib/llm/promptBuilder.ts:51 | one text per education entry, in order |
| `PromptBuilder.ExperienceTextDuration` | lib/llm/promptBuilder.ts:50 | a falsy duration shows as `duration unknown`; a given one shows as itself |
| `PromptBuilder.DeepDetailSpec` | lib/llm/promptBuilder.ts:43-56 | all skills are shown; the experience texts are joined by `'; '`; there is one text per entry |
| `PromptBuilder.DeepDetails` | lib/llm/promptBuilder.ts:43-56 | one detail per candidate, in order |
| `PromptBuilder.DeepHeaderNamesCount` | lib/llm/promptBuilder.ts:58 | the header names how many candidates are wanted |
| `PromptBuilder.DeepAnalysisLines` | lib/llm/promptBuilder.ts:58-69 | the prompt's header, minimum line and serialised details are where the template puts them |
| `BatchProcessor.ScoreEntries` | lib/llm/batchProcessor.ts:70-82 | the id mapping succeeds iff every returned id is a batch candidate's; then there is one entry per score, with its score and reasoning, for the role, tied to the first batch candidate with that id |
| `BatchProcessor.FindById` | lib/llm/batchProcessor.ts:71 | `batch.find(c => c.id === score.id)` returns the first candidate with the id |
| `Seqs.Find` | lib/llm/batchProcessor.ts:71 | `Array.find` returns the first element satisfying the test, and nothing iff none does |
| `BatchProcessor.Fallback` | lib/llm/batchProcessor.ts:133-138 | the fallback gives every batch candidate, in order, score 50 and `'Error during scoring'` |
| `BatchProcessor.ScoreBatchSpec` | lib/llm/batchProcessor.ts:44-140 | whatever the reply, each entry is a batch candidate for the role; a failed call, or two failed parse attempts, gives the fallback |
| `BatchProcessor.UnknownIdFails` | lib/llm/batchProcessor.ts:72-74 | an id outside the batch fails the attempt |
| `BatchProcessor.BatchesSpec` | lib/llm/batchProcessor.ts:17-19 | the batches concatenate to the input; there are ceil(n/100) of them; each holds 1..100 candidates and all but the last exactly 100 |
| `BatchProcessor.SplitIntoBatches` | lib/llm/batchProcessor.ts:14-19 | the stepping loop computes `Batches` |
| `BatchProcessor.ProgressCalls` | lib/llm/batchProcessor.ts:28-31 | the progress calls are `(1, total)`, …, `(count, total)` |
| `BatchProcessor.MapAll` | lib/llm/batchProcessor.ts:27-34 | one result per batch, in order |
| `BatchProcessor.RunWave` | lib/llm/batchProcessor.ts:27-37 | a wave reports its batch numbers and appends its batches' entries in order |
| `BatchProcessor.RunWaves` | lib/llm/batchProcessor.ts:26-38 | the wave loop yields every batch's entries in batch order, and a progress call per batch numbered 1..total |
| `BatchProcessor.ScoreInWaves` | lib/llm/batchProcessor.ts:26-38 | the waves score every batch |
| `BatchProcessor.ProcessCandidatesInBatches` | lib/llm/batchProcessor.ts:9-42 | the result is `ProcessedScores`, with one progress call per batch |
| `BatchProcessor.ProcessedScoresSpec` | lib/llm/batchProcessor.ts:36-41 | the result is by non-increasing score, is a permutation of every batch's entries, and holds only pool candidates scored for the role |
| `BatchProcessor.ProgressCount` | lib/llm/batchProcessor.ts:7-21 | a pool of n candidates reports ceil(n/100) batches |
| `Sorting.Insert` | lib/llm/batchProcessor.ts:41 | insertion keeps the list sorted and adds exactly one element |
| `Sorting.AllBelow` | lib/rankers/deepAnalyzer.ts:60 | a rearrangement staying below the last key keeps the list sorted |
| `Sorting.SortBy` | lib/rankers/deepAnalyzer.ts:60 | the sort by a numeric key is sorted and a permutation |
| `Sorting.SortSortedIsIdentity` | lib/llm/batchProcessor.ts:41 | an already sorted list is left as it is |
| `DeepAnalyzer.Finalists` | lib/rankers/deepAnalyzer.ts:12 | the finalists are the candidates of the first min(50, n) scored entries, in order |
| `DeepAnalyzer.SelectionEntries` | lib/rankers/deepAnalyzer.ts:44-59 | the mapping succeeds iff every returned id is a finalist's; then there is one entry per selection, tied to the first finalist with that id, with the selection's fields and missing lists as `[]` |
| `DeepAnalyzer.SelectionAttemptSpec` | lib/rankers/deepAnalyzer.ts:41-60 | a parsed attempt succeeds iff every id is known; it is then sorted by rank and a permutation of the mapped selections |
| `DeepAnalyzer.SelectionAttemptMembers` | lib/rankers/deepAnalyzer.ts:44-60 | every entry is a finalist's, for the role |
| `DeepAnalyzer.AnalyseReplyMembers` | lib/rankers/deepAnalyzer.ts:40-136 | whichever attempt succeeds, its entries are finalists for the role, sorted by rank |
| `DeepAnalyzer.DeepAnalysisSpec` | lib/rankers/deepAnalyzer.ts:7-141 | every selected candidate is among the first 50 scored, for the role, sorted by rank |
| `DeepAnalyzer.UnknownSelectionFails` | lib/rankers/deepAnalyzer.ts:45-48 | an id outside the finalists raises "not found" |
| `DeepAnalyzer.SecondAttemptDecides` | lib/rankers/deepAnalyzer.ts:61-135 | when the first attempt fails, the cleaned and brace-trimmed attempt decides, error included |
| `DeepAnalyzer.SelectedIds` | lib/rankers/deepAnalyzer.ts:181 | the selected ids, one per selection, in order |
| `DeepAnalyzer.RemainingSpec` | lib/rankers/deepAnalyzer.ts:181-186 | exactly the selected ids leave the pool, and the rest keep their order |
| `DeepAnalyzer.SpliceOut` | lib/rankers/deepAnalyzer.ts:182-186 | the backwards `splice` loop computes the filter of the pool |
| `DeepAnalyzer.RemoveSelected` | lib/rankers/deepAnalyzer.ts:181-186 | the removal loop leaves `Remaining(pool, ids)` |
| `DeepAnalyzer.PrependAssoc` | lib/rankers/deepAnalyzer.ts:178 | pushing selections in two steps equals pushing their concatenation |
| `DeepAnalyzer.RoleProgress` | lib/rankers/deepAnalyzer.ts:155-157 | the k-th report is `Processing role: <title>` with k+1 of the role count |
| `DeepAnalyzer.MultiRoleWithStep` | lib/rankers/deepAnalyzer.ts:152-187 | one role's step, then the rest over the reduced pool |
| `DeepAnalyzer.RoleTurn` | lib/rankers/deepAnalyzer.ts:153-186 | one loop turn preserves the relation between the selections so far and the whole result |
| `DeepAnalyzer.SelectRoles` | lib/rankers/deepAnalyzer.ts:149-189 | the role loop computes `MultiRoleWith`, reporting progress once per role started |
| `DeepAnalyzer.SelectMultiRoleCandidates` | lib/rankers/deepAnalyzer.ts:144-190 | `selectMultiRoleCandidates` computes `MultiRole`, with one progress report per role on success |
| `DeepAnalyzer.MultiRoleFromPool` | lib/rankers/deepAnalyzer.ts:150-186 | every selection comes from the starting pool |
| `DeepAnalyzer.PickedOnceWith` | lib/rankers/deepAnalyzer.ts:181-186 | a candidate picked for one role is never picked for a later role |
| `DeepAnalyzer.RoleSelectionsFromPool` | lib/rankers/deepAnalyzer.ts:164-175 | filter, scoring and deep analysis only select from the pool they are given |
| `DeepAnalyzer.PickedOnce` | lib/rankers/deepAnalyzer.ts:144-190 | every selection is from the pool, and no candidate is selected for two roles |
| `ProcessRoute.RoleShare` | app/api/process/route.ts:65 | `roleIndex/roles*100` lies in [0, 100) |
| `ProcessRoute.BatchFrames` | app/api/process/route.ts:117-125 | one scoring event per batch, numbered 1..total |
| `ProcessRoute.Turns` | app/api/process/route.ts:63-139 | one turn per role |
| `ProcessRoute.TurnsAt` | app/api/process/route.ts:63-139 | turn `i` is role `i`'s frames and outcome on the full pool |
| `ProcessRoute.RoleTurn` | app/api/process/route.ts:64-136 | the loop body gives role `i`'s frames and outcome; an empty filtered list stops after its error-stage event |
| `ProcessRoute.RunRoles` | app/api/process/route.ts:60-139 | the role loop's frames, failure and selections are those of `RolesRun` |
| `ProcessRoute.ProcessWith` | app/api/process/route.ts:19-165 | the stream body emits `ProcessFrames` |
| `ProcessRoute.FailureStays` | app/api/process/route.ts:157-165 | once a role fails, later roles add nothing |
| `ProcessRoute.RunFramesFrom` | app/api/process/route.ts:63-139 | a property every role's frames have holds for the run's frames |
| `ProcessRoute.RunCollects` | app/api/process/route.ts:135-136 | the run succeeds iff every turn does, and then collects their selections in order |
| `ProcessRoute.Selected` | app/api/process/route.ts:136 | the selections of the turns, one list per turn |
| `ProcessRoute.BatchFramesInRange` | app/api/process/route.ts:121 | batch-event percentages lie in [0, 100] |
| `ProcessRoute.RoleFramesInRange` | app/api/process/route.ts:65-133 | each role's percentages lie in [0, 100] |
| `ProcessRoute.RolesRunInRange` | app/api/process/route.ts:63-139 | the run's percentages lie in [0, 100] |
| `ProcessRoute.PercentagesInRange` | app/api/process/route.ts:24-163 | every emitted percentage lies in [0, 100], and every frame but the last is a progress event |
| `ProcessRoute.EarlyExits` | app/api/process/route.ts:23-53 | a missing member or an unknown session gives one error event at 0% and nothing else; otherwise the first event is `parsing` at 5% |
| `ProcessRoute.ResultsFrame` | app/api/process/route.ts:143-163 | at most one results frame, last, right after `complete` at 100%; present iff everything succeeded; otherwise the last frame is an error at 0% |
| `ProcessRoute.RolesRunCollects` | app/api/process/route.ts:63-139 | the roles succeed iff each does; the selections are the concatenation in role order of each role on the full session pool |
| `ProcessRoute.EmptyRoleSkipped` | app/api/process/route.ts:98-105 | an empty filtered list gives its two filtering events and an error-stage event, nothing else, and no selections |
| `ProcessRoute.FailureEndsRun` | app/api/process/route.ts:135-165 | a failing role ends the run with one error event at 0% after its frames, and no results |
| `ProcessEndpoint.Post` | app/api/process/route.ts:10-176 | the session is looked up, and dropped if expired, only for a well-formed request; the general cache is untouched |
| `Cache.Live` | lib/utils/cacheManager.ts:12-25 | a read finds a value iff the key is present and `now` is not past its expiry |
| `Cache.AfterRead` | lib/utils/cacheManager.ts:19-22 | a read drops the key only when it has expired, and nothing else |
| `Cache.Unexpired` | lib/utils/cacheManager.ts:54-70 | the sweep keeps exactly the unexpired entries, unchanged |
| `Cache.SetThenGet` | lib/utils/cacheManager.ts:7-25 | a value stored with ttl minutes at t is returned up to and including t + ttl·60000, and not after |
| `Cache.SetOverwrites` | lib/utils/cacheManager.ts:7-10 | a second store replaces both data and expiry |
| `Cache.SweepIdempotent` | lib/utils/cacheManager.ts:54-70 | sweeping twice at the same moment is sweeping once |
| `Cache.SweepKeepsReads` | lib/utils/cacheManager.ts:12-70 | after a sweep a read finds what it would have found before, and drops nothing |
| `Cache.CacheManager.constructor` | lib/utils/cacheManager.ts:4-5 | both maps start empty |
| `Cache.CacheManager.Set` | lib/utils/cacheManager.ts:7-10 | the cache maps the key to the data expiring ttl minutes from now; the sessions are untouched |
| `Cache.CacheManager.Get` | lib/utils/cacheManager.ts:12-25 | returns the live value; an expired key alone is deleted; the sessions are untouched |
| `Cache.CacheManager.Delete` | lib/utils/cacheManager.ts:27-29 | only the key leaves the cache |
| `Cache.CacheManager.SetSession` | lib/utils/cacheManager.ts:31-33 | only the session map changes, at the key |
| `Cache.CacheManager.GetSession` | lib/utils/cacheManager.ts:35-48 | the same rules as `get` over the session map; the cache is untouched |
| `Cache.CacheManager.DeleteSession` | lib/utils/cacheManager.ts:50-52 | only the session leaves the session map |
| `Cache.CacheManager.ClearExpired` | lib/utils/cacheManager.ts:54-70 | both maps keep exactly their unexpired entries |
| `Cache.CacheManager.Clear` | lib/utils/cacheManager.ts:72-75 | both maps become empty |
| `Cache.SweepEntries` | lib/utils/cacheManager.ts:58-62 | the deleting loop over the entries leaves exactly the unexpired ones |
| `MistralClient.NumberOr` | lib/llm/mistralClient.ts:29-30 | a falsy temperature or token limit, 0 included, becomes the default |
| `MistralClient.Waits` | lib/llm/mistralClient.ts:43-45 | the k-th wait is `retryDelay·(k+1)` |
| `MistralClient.MistralClient.Chat` | lib/llm/mistralClient.ts:16-50 | the retry loop's result, calls and waits are those of `ChatFrom` from attempt 0 |
| `MistralClient.MistralClient.CallBound` | lib/llm/mistralClient.ts:5-24 | between 1 and `maxRetries` calls, all with the same request, and a wait between consecutive calls only |
| `MistralClient.MistralClient.StopsAt` | lib/llm/mistralClient.ts:26-40 | the first answer or client error at attempt k is returned at once, after k+1 calls and the waits 1000·1 … 1000·k |
| `MistralClient.MistralClient.GivesUp` | lib/llm/mistralClient.ts:24-49 | when every attempt fails retryably, the thrown error names the last message, after `maxRetries` calls and no wait after the last |
| `MistralClient.MistralClient.ThreeFailures` | lib/llm/mistralClient.ts:5-49 | three failures give the waits 1000 ms and 2000 ms and "Failed after 3 retries: <message>" |
| `ExportRoute.TextOr` | app/api/export/route.ts:21-30 | `s \|\| 'N/A'`: 'N/A' iff absent, empty or 'N/A', otherwise the value itself |
| `ExportRoute.ValueOr` | app/api/export/route.ts:31-33 | a falsy link becomes 'N/A', a truthy one is kept |
| `ExportRoute.YearsOr` | app/api/export/route.ts:24 | falsy years become 0, others are kept |
| `ExportRoute.ExportRows` | app/api/export/route.ts:17-34 | one row per selection, in order |
| `ExportRoute.Export` | app/api/export/route.ts:5-51 | a missing or non-array `results` gives 400 "Invalid results data" and no rows; otherwise the CSV rows are `ExportRows` of the selections, one per selection; a body that fails to parse gives 500 with the error's message, or "Failed to export results" when it is empty |
| `ExportRoute.ExportRowFields` | app/api/export/route.ts:18-33 | rank, name, email, role, match and reasoning are copied verbatim; phone, location and years fall back exactly when falsy |
| `ExportRoute.SplitAfterPiece` | app/api/export/route.ts:25-28 | a piece without separators is split off whole |
| `ExportRoute.JoinedListSplitsBack` | app/api/export/route.ts:25-28 | a `'; '`-joined list without `;` splits back into its items, each after the first preceded by one blank |
| `ExportRoute.SplitWithout` | app/api/export/route.ts:25-28 | a text without separators splits into itself |

## Left out

Inputs and oracles:
- The model, the chat SDK, `JSON.parse` and `JSON.stringify` are oracle parameters.
  - The parse oracles return typed shapes (`RawRole`, `RawScore`, `RawSelection`), not
    arbitrary JSON.
  - The query parser's chat call is a function of the query. The prompt wording of
    `lib/parsers/queryParser.ts:4-23` and the closing instructions of both prompt templates
    in `lib/llm/promptBuilder.ts` are not modelled.
- `calculateYearsFromDates` (lib/parsers/candidateNormalizer.ts:237-253) is an oracle
  `yearsBetween`, because it reads the clock and uses `Date` arithmetic.
- The regular-expression markdown passes are one oracle `markdownStrip` (lib/rankers/deepAnalyzer.ts:73-82,
  lib/llm/batchProcessor.ts:94-103). This is because of their lazy, dot-all matching.
  The later passes are concrete.
- The `[\r\n]+` pass is not modelled separately. After control characters have become
  spaces, that pass cannot match.
- The request bodies of both endpoints are parsed values.
  - For processing, `sessionId` and `query` are strings, and a missing member is the empty
    string. Non-string values are not modelled.
  - For export, `results` is absent, not an array, or a list of selections.
- The text of a non-integer number is an oracle `fracText`.
- `Json.NumberText` writes every digit of an integer-valued number. JavaScript writes those
  of magnitude 1e21 and above in exponent form (`String(1e21)` is `"1e+21"`). The prompt
  lines that print experience bounds and the wanted count (`PromptBuilder.MinLine`,
  `PromptBuilder.MaxLine` and `PromptBuilder.DeepHeader`) differ from the source on such values.

Semantics not modelled:
- SchemaDetector: `FieldTable` holds the patterns already stripped of `_`, blanks and `-`.
  The stripping is not applied to the literals.
- `toLowerCase` and the `/i` flag are modelled on ASCII letters only.
- `PromptBuilder.BatchSummaryOfSpec`: strings are sequences of Unicode scalar values, so
  lengths and `substring` positions count scalars, while JavaScript counts UTF-16 code
  units. The 200-character summary cut (`PromptBuilder.ShortSummary`, lib/llm/promptBuilder.ts:14)
  therefore differs on text with characters beyond U+FFFF: on 150 copies of U+1F600 the
  source keeps 100 characters (and may split a surrogate pair), the model keeps all 150.
  Other positions are taken and used within one string, so they are not affected.
- `Json.ToNumber`: `Number` of text reads only decimal literals (an optional sign, digits and
  at most one point, between spaces). Exponents (`"1e5"` is 100000), the `0x`, `0o` and `0b`
  prefixes (`"0x10"` is 16) and `"Infinity"` are read as NaN here. The same holds for an
  array whose one element is such text. A candidate whose expected salary is `"1e5"` or
  `["1e5"]` therefore always passes `RuleBasedFilter.SalaryTest`, while the source compares
  100000 with the cap.
- Objects with a duplicated key are outside the modelled domain. `JSON.parse` keeps the
  last value of a repeated key, and its objects never hold a key twice. `Json.FieldLookup`
  would read the first occurrence instead.
- Key order: `Object.keys` lists integer-like keys (such as `"0"` or `"12"`) first, in
  ascending numeric order, and then the other keys in insertion order. `Json.ObjectKeys`
  lists the members in source order. The two agree only on objects without integer-like
  keys. On the others, the order of the detected schema lists and of the fallback array
  search in `JsonParser.ParseJsonFile` may differ from the source.
- Array and string members read through `v[key]` are not modelled, nor are prototype
  members.
- IEEE floating point: years, salaries, scores and percentages are `real`.
- Sorting:
  - `Array.prototype.sort` is modelled as a sort on `seq` by its numeric key.
  - Stability is not stated.
  - An inconsistent comparator, such as NaN keys, is not modelled.
- `Cache.CacheManager.Set`: the time to live is a whole number of minutes. `Date` rounding
  of fractional times is not modelled.

I/O, transport and concurrency:
- `hashFile`, `generateSessionId` and the upload route are not part of this model.
- The React components are not part of this model.
- `lib/utils/streamHelper.ts` is not part of this model.
- The `ReadableStream`, `TextEncoder` and SSE framing are not modelled. A frame is a value
  in a sequence.
- Console logging is not modelled.
- The papaparse `unparse` call is not modelled: the export ends with the rows.
- `chatStream` is not modelled. Neither is the constructor's `MISTRAL_API_KEY` check, which
  reads the environment.
- The `setInterval` sweep is exposed as `ClearExpired(now)`.
- `setTimeout` waits are recorded in `delays`, not slept.
- `Promise.all` within a wave is sequential. Results are concatenated in batch order
  anyway.

Structure:
- `totalPositions` and `currentPosition` in the process route (app/api/process/route.ts:57,60,138)
  are computed but never read, so they are not modelled.
- The route's batch callback is modelled as `batchCount` scoring events right after the
  scoring-start event. These are the events the batch scorer's progress calls would emit.
- The route's catch of a thrown request-body parse is the `Err` case of the body.
- `FileUtils.ValidateFileSize` is exactly `size <= maxSize`. As a predicate with that body it has no
  separate contract.
- `RuleBasedFilter.ApplyRuleBasedFilter` treats a `null` bound as no bound, which the source
  does not. The as-written version is `ApplyRuleBasedFilterAsWritten` (see Findings). The
  route and the multi-role selector use the corrected filter.
- `CandidateNormalizer.ExtractSalary`: its own `ensures` covers only the falsy case; the
  record for each shape (number, object, string, boolean) is stated in full by the lemma
  `SalaryShapes`. Arrays are handled like objects, as `typeof [] === 'object'` in the source,
  and are not given a clause of their own.
- `ProcessEndpoint.Post` is stated against `ProcessFrames` with the deployed pipeline; the
  properties of those frames are the `ProcessRoute` lemmas.

## Findings

| source | as written | input that shows it | evidently intended | confidence | as-written member | corrected member |
|---|---|---|---|---|---|---|
| lib/filters/ruleBasedFilter.ts:44-46 | `criteria.maxExperience !== undefined` lets `null` through, and `years > null + 2` compares with 2 | a role whose parsed `maxYearsExperience` is `null`, as the query template allows, and a candidate with 5 years: rejected | `null` means no maximum, as `undefined` does | not executed | `RuleBasedFilter.NullMaxExperienceRejects` | `RuleBasedFilter.ApplyRuleBasedFilter` |
| lib/filters/ruleBasedFilter.ts:49-51 | `criteria.salaryMax !== undefined` lets `null` through, and `expected > null * 1.2` compares with 0 | a role with `salaryRange: {min: null, max: null}` and a candidate expecting 1000: rejected | `null` means no cap | not executed | `RuleBasedFilter.NullSalaryMaxRejects` | `RuleBasedFilter.ApplyRuleBasedFilter` |
