# llm-seo core, modelled in Dafny

llm-seo measures how visible a brand is in the answers of large language
models. It expands query templates into concrete questions about a product
category, the target brand, its competitors and their use cases. It sends
every question to OpenAI, Anthropic and Google Gemini, retrying when a
provider rate-limits the call. It then scans each answer for whole-word
mentions of the target and its competitors, scores how early each brand is
first mentioned, and summarises the mentions per brand.

This project models that core and proves what it promises:

- **Mention analysis** (`mention_analyzer.dfy`, module `MentionAnalyzer`).
  It covers alias matching with `\b alias \b`, the mention of each brand,
  the position score, and the analysis table of one record per (answer,
  brand). It also covers the same analysis run in chunks of ten, the
  per-brand tally and summary, and the collection of the answers of a run.
- **Query generation** (`queries_generator.dfy`, module `QueriesGenerator`).
  It covers `re.findall` of `{name}` markers and the replace-based filling
  of one template. It also covers the competitor-by-use-case product of
  queries for one template and the numbering of all queries from 1.
- **Configuration** (`config_loader.dfy`, module `ConfigLoader`). It covers
  the provider lookup with its default provider, and loading an API key
  from the environment.
- **Provider layer** (`llm_clients.dfy`, module `LlmClients`). It covers
  provider and mode choice, client building, retry with exponential
  backoff, answer normalisation, and the answer map of all providers.
- **Support modules**:
  - `Strings`: ASCII `lower`, `strip`, `replace`, `startswith`, `endswith`
    and `\w`;
  - `Matching`: `re.finditer` of a literal between word boundaries;
  - `Sorting`: Python's stable sort by an integer key;
  - `Sequences`: a flat map and its laws;
  - `Wrappers`: `Option` and `Result`.
- **The examples of the mention test suite** (`mention_analyzer_tests.dfy`,
  module `MentionAnalyzerTests`), proved on `Mentions`: each text is cut into
  pieces at a character the aliases do not contain, and the matches are
  counted piece by piece.

Where the source changes state step by step, the model is a method with
loops and invariants, proved equal to a specification function:

- `detect_mentions`, `mention_analyzer` and its chunked form;
- the tally of `print_summary` and the collection loop of `load_answers`;
- `fill_single_template`, `generate_queries_from_template` and
  `generate_all_queries`;
- `call_with_retry`.

The properties are then proved about those functions. Scores are kept in
tenths (10, 6, 3 and 0 stand for 1.0, 0.6, 0.3 and 0.0); averages and
sleep delays are Dafny `real`s.

What is passed in as parameters instead of being read:

- The brand registry and the target's name (`load_brands`, `brands.json`).
- The templates, the placeholders and the use cases.
- The parsed configuration (`CONFIG`) and the environment (`os.environ`).
- The listing of a run directory, with each file's parsed content.
- What the user types at a prompt.
- What each provider's SDK answers.

Some behaviours of the source that the proofs make explicit:

- `generate_queries_from_template` iterates the competitors only when the
  template names `{brand1}` or `{competitor}`. A template naming only
  `{brand2}` therefore keeps that marker unfilled
  (`Brand2AloneIsNotIterated`).
- An empty competitor name or use case is falsy, so its marker stays in the
  query. The no-brace lemma therefore needs non-empty names.
- `fill_single_template` replaces key after key in the running result, so
  a value that holds a later key's marker is filled again: with `a` bound
  to `{b}` and `b` to `Z`, `{a}` becomes `Z` (`FillCascades`). The fill
  lemmas therefore assume values without `{`.
- `pick_mode` answered with a blank line calls `pick_provider("")`, which
  prompts a second time (`BlankModeAsksForProvider`).
- `load_api_key("")` loads the default provider's key, because
  `get_provider_config` treats the empty name as absent
  (`EmptyNameLoadsDefaultKey`).
- `build_client` accepts a key made of blanks, which `load_api_key` refuses
  (`BlankKeyBuildsClient`).
- `call_with_retry` with `max_retries <= 0` makes no call and raises
  `None`, a `TypeError`.

## Model

| member | source | states |
|---|---|---|
| Matching.FindFrom | src/mention_analyzer.py:97-98 | defines the left-to-right scan of `re.finditer` from a position: a whole-word match is reported and the scan resumes after it, otherwise it moves one character on; `FindFromSound` and `FindFromComplete` state what it reports |
| Matching.FindAll | src/mention_analyzer.py:97-98 | defines the matches of one alias in a text as the scan from 0; `FindFromSound`, `FindFromComplete` and `FindAllInsideText` state them |
| Matching.FindFromSound | src/mention_analyzer.py:97-98 | every match `re.finditer` reports is a whole-word occurrence of the alias at or after the scan start, and successive matches do not overlap |
| Matching.FindFromComplete | src/mention_analyzer.py:97-98 | no whole-word occurrence is missed unless it starts inside an earlier reported match |
| Matching.FindAllInsideText | src/mention_analyzer.py:97-98 | every match position lies within the text, and only a non-empty text has matches |
| Matching.FindAllSplit | src/mention_analyzer.py:97-98 | when a text ends in a non-word character that the alias does not contain, the matches in it followed by more text are its own matches followed by those of the rest, moved by its length |
| Matching.FindAllLowerSplit | src/mention_analyzer.py:91-98 | the same split for the lower-cased text of `detect_mentions`: positions and counts add up piece by piece |
| Matching.NoMatchWithout | src/mention_analyzer.py:91-98 | a text containing a letter of the alias in neither case holds no match |
| Matching.PatternAlone | src/mention_analyzer.py:91-98 | for an alias of at least two characters that begins and ends with a word character, the alias alone, in any case and followed by at most one non-word character, matches exactly once, at 0 |
| Sorting.SortBy | src/mention_analyzer.py:101 | the sort returns a permutation of its input (same length, same multiset) |
| Sorting.SortByIsSorted | src/mention_analyzer.py:101 | the sorted list is in key order |
| Sorting.SortByIsStable | src/mention_analyzer.py:68 | elements that share a key keep their relative order, as Python's sort does |
| Sorting.SortedHeadIsLeast | src/mention_analyzer.py:101-107 | the head of the sorted matches has the smallest start of all matches |
| Strings.Lower | src/mention_analyzer.py:91 | defines `str.lower` on ASCII letters, keeping the length; `LowerIsIdempotent` states that no capital is left and a second pass changes nothing |
| Strings.Strip | src/config_loader.py:44-45 | defines `str.strip` as cutting whitespace from both ends; `StripProperties` and `StripIsIdempotent` state what is cut and what is left |
| Strings.Replace | src/queries_generator.py:61 | defines `str.replace` as the left-to-right, non-overlapping replacement of every occurrence; `ReplaceAfterPrefix` states how it treats a prefix without the marker |
| Strings.StripProperties | src/config_loader.py:44-45 | `strip` cuts only whitespace from either end, leaves no whitespace at either end, and is empty exactly for an all-whitespace input |
| Strings.StripIsIdempotent | src/config_loader.py:45 | stripping twice is stripping once |
| Strings.LowerIsIdempotent | src/mention_analyzer.py:91 | lower-casing leaves no capital and a second pass changes nothing |
| Strings.ReplaceAfterPrefix | src/queries_generator.py:61 | `replace` copies a prefix without the marker's first character and replaces the rest on its own |
| MentionAnalyzer.AliasMatches | src/mention_analyzer.py:96-99 | the collected match starts lie within the lower-cased text, which is non-empty when there is any |
| MentionAnalyzer.AliasMatchesAreMatches | src/mention_analyzer.py:96-99 | every collected start is a whole-word match of one of the aliases |
| MentionAnalyzer.AliasMatchesContainAll | src/mention_analyzer.py:96-99 | every match `re.finditer` reports for each alias is collected |
| MentionAnalyzer.Least | src/mention_analyzer.py:107 | the smallest start is one of the starts and no start precedes it |
| MentionAnalyzer.BrandMention | src/mention_analyzer.py:95-109 | defines one brand's mention from the matches of all its aliases in the lower-cased text: their number, whether there is one, and the earliest as first position; `MentionFacts` states it for the target (lines 95-109) and for each competitor (lines 112-126) |
| MentionAnalyzer.Mentions | src/mention_analyzer.py:90-128 | one mention for the target and one per competitor, each first position inside its text |
| MentionAnalyzer.MentionFacts | src/mention_analyzer.py:100-126 | each mention names its brand in registry order, flags only the target, and counts the whole-word alias matches. `found` holds exactly when the count is positive. The first position is absent exactly when there is no match; otherwise it is a match that no match of any alias precedes. The text length is the original text's |
| MentionAnalyzerTests.SingleAliasMention | src/mention_analyzer.py:95-126 | with a single target alias, the target's mention counts that alias's whole-word matches and is found exactly when there is one |
| MentionAnalyzerTests.TwoAliasMention | src/mention_analyzer.py:95-126 | with two target aliases the counts of both add up, and when each matches only at one same place, that place is the first position |
| MentionAnalyzerTests.FindsExactBrandMatch | tests/test_mention_analyzer.py:12-23 | in `I recommend using Obsidian for note-taking.` with competitor Notion there are two mentions, and Obsidian's is found with count 1 |
| MentionAnalyzerTests.FindsBrandCaseInsensitive | tests/test_mention_analyzer.py:25-34 | `obsidian and OBSIDIAN are the same` counts Obsidian twice |
| MentionAnalyzerTests.FindsBrandAlias | tests/test_mention_analyzer.py:36-45 | with aliases `Obsidian` and `Obsidian.md`, `Check out Obsidian.md for your notes` finds the brand; both aliases match at 10, so the count is 2 and the first position 10 |
| MentionAnalyzerTests.MultipleBrandMentions | tests/test_mention_analyzer.py:47-55 | `Obsidian is great. I use Obsidian daily. Obsidian rocks!` counts Obsidian three times |
| MentionAnalyzer.MentionFromSortedMatches | src/mention_analyzer.py:101-109 | taking the head of the sorted matches gives the earliest match |
| MentionAnalyzer.CollectMatches | src/mention_analyzer.py:95-99 | the extend loop collects the matches of every alias in list order |
| MentionAnalyzer.DetectBrand | src/mention_analyzer.py:112-126 | collecting, sorting and counting one brand's matches gives that brand's mention |
| MentionAnalyzer.DetectMentions | src/mention_analyzer.py:90-128 | `detect_mentions` returns the target's mention followed by each competitor's, in registry order |
| MentionAnalyzer.PositionScore | src/mention_analyzer.py:131-142 | the score is one of 0, 0.3, 0.6 and 1.0, and it is 0 exactly when there is no mention |
| MentionAnalyzer.PositionScoreTiers | src/mention_analyzer.py:135-142 | the score is 1.0 when `p / n <= 0.20`, 0.6 when `0.20 < p / n <= 0.60`, and 0.3 above |
| MentionAnalyzer.PositionScoreIsMonotone | src/mention_analyzer.py:131-142 | a later first mention never scores higher, and no mention scores least |
| MentionAnalyzer.MostMentionedIndex | src/mention_analyzer.py:150 | `max(..., key=count)` picks a mention with the largest count, the first such one in order |
| MentionAnalyzer.RecordOf | src/mention_analyzer.py:148-165 | defines the record of one brand of one answer from its mention; `AnswerRecordsAt` states its fields |
| MentionAnalyzer.Analysis | src/mention_analyzer.py:148-165 | defines the table as the records of each answer in turn; `AnalysisLength`, `AnalysisAt` and `AnalyzeAnswers` state its shape and its entries |
| MentionAnalyzer.AnalysisLength | src/mention_analyzer.py:148-163 | the table has one record per answer and brand |
| MentionAnalyzer.AnalysisAt | src/mention_analyzer.py:148-163 | record `k = i * B + j` of the table (with `B` brands) is record `j` of answer `i`: the table is answer-major and brand-minor |
| MentionAnalyzer.AnswerRecordsAt | src/mention_analyzer.py:150-163 | record `j` of an answer carries its question id, brand `j`'s own name, flags, count and position score, and the answer's most mentioned brand, the first in registry order with the largest count |
| MentionAnalyzer.AppendRecords | src/mention_analyzer.py:152-163 | the inner loop appends, after what was there, one record per mention of the answer, in mention order, each with the answer's most mentioned brand |
| MentionAnalyzer.AnalysisAppend | src/mention_analyzer.py:148-165 | the table of two answer lists is the concatenation of their tables |
| MentionAnalyzer.AnalyzeAnswers | src/mention_analyzer.py:144-165 | the nested loops of `mention_analyzer` build the analysis table |
| MentionAnalyzer.AnalyzeInChunks | src/mention_analyzer.py:167-179 | analysing slices of ten in order and appending the results gives the table of all answers |
| MentionAnalyzer.BrandsAreTheRecordBrands | src/mention_analyzer.py:202-205 | the summary dictionary lists each brand once, and exactly the brands of the records |
| MentionAnalyzer.Stats | src/mention_analyzer.py:201-209 | defines a brand's totals over the records: summed count, summed score, records that found it, and the first record's target flag; `Tally`, `CountRecordKeepsStats` and `UnlistedBrandHasNoTotals` state its keys and totals |
| MentionAnalyzer.AverageScore | src/mention_analyzer.py:213 | defines the printed average, `score_sum / len(results) * len(brands)` in tenths; `AverageIsMeanPerAnswer` states that it is the brand's mean per answer |
| MentionAnalyzer.LineOf | src/mention_analyzer.py:212-215 | defines one summary line from a brand's totals; `SummaryLineFacts` states its fields |
| MentionAnalyzer.UnlistedBrandHasNoTotals | src/mention_analyzer.py:204-205 | a brand seen for the first time starts from zero totals |
| MentionAnalyzer.FirstFlagIsTheFirstRecords | src/mention_analyzer.py:204-205 | the target flag kept for a brand is that of its first record |
| MentionAnalyzer.Tally | src/mention_analyzer.py:201-209 | the counting loop builds a dictionary with exactly the record brands, in first-appearance order, with each brand's summed count, summed score and number of records that found it |
| MentionAnalyzer.CountRecord | src/mention_analyzer.py:203-209 | one record is counted: a new brand enters with zero totals and the record's target flag, the record's count, score and found flag are added to its brand, and no other brand changes |
| MentionAnalyzer.CountRecordKeepsStats | src/mention_analyzer.py:201-209 | after one more record the dictionary again holds exactly the listed brands, each with its totals over the records so far |
| MentionAnalyzer.AnalysisBrands | src/mention_analyzer.py:148-163 | for a non-empty answer list and pairwise different brand names, the brands of the table, in first-appearance order, are the target followed by the competitors in registry order |
| MentionAnalyzer.ScoreSumIsPerAnswer | src/mention_analyzer.py:152-163 | with pairwise different brand names, a brand's summed score over the table is the sum of its position scores, one from each answer |
| MentionAnalyzer.AverageIsMeanPerAnswer | src/mention_analyzer.py:201-213 | for a non-empty answer list and pairwise different brand names, the summary has one line per registry brand, line `k` is brand `k`, and its `score_sum / len(results) * len(brands)` is its summed score divided by the number of answers |
| MentionAnalyzer.AverageIsMeanScore | src/mention_analyzer.py:207-213 | for a non-empty answer list and pairwise different brand names, the printed average of brand `k` is the mean of its position scores over the answers |
| MentionAnalyzer.Summary | src/mention_analyzer.py:200-215 | the printed lines are a permutation of the per-brand lines, in non-increasing mention order, with ties in dictionary order |
| MentionAnalyzer.SummaryLineFacts | src/mention_analyzer.py:212-215 | each line shows its brand's total count, the number of its records that found it, the average score and the first record's target flag |
| MentionAnalyzer.OutputFiles | src/mention_analyzer.py:37 | exactly the names starting with `output_` and ending with `.json` are kept |
| MentionAnalyzer.SlotAnswers | src/mention_analyzer.py:45-55 | one answer per provider slot with a text, carrying the file's id and question; `null` slots are skipped |
| MentionAnalyzer.Collected | src/mention_analyzer.py:39-66 | defines the answers gathered from the output files, in file and slot order; `CollectedAnswers` and `LoadAnswers` state which answers they are |
| MentionAnalyzer.CollectedAnswers | src/mention_analyzer.py:36-66 | the answers collected are exactly those of the text-holding slots of the readable output files |
| MentionAnalyzer.LoadAnswers | src/mention_analyzer.py:36-69 | `load_answers` returns the collected answers sorted by question id, as a permutation, with equal ids in collection order |
| MentionAnalyzer.AppendSlotAnswers | src/mention_analyzer.py:45-55 | the loop over one file's provider slots appends an answer with the file's id and question for each slot holding a text, skipping `null` slots, in slot order |
| QueriesGenerator.WordPrefix | src/queries_generator.py:55 | the greedy `\w+` after a brace takes exactly the run of word characters |
| QueriesGenerator.Placeholders | src/queries_generator.py:54-55 | defines the names of `re.findall(r'\{(\w+)\}')` in order; `PlaceholdersExactly` and `PlaceholdersOfPieces` state which names they are |
| QueriesGenerator.PlaceholdersExactly | src/queries_generator.py:54-55 | a name is found exactly when it is a word that occurs in braces |
| QueriesGenerator.PlaceholdersOfPieces | src/queries_generator.py:54-55 | the names of a template built from texts and markers are its marker names in order, duplicates kept |
| QueriesGenerator.PlaceholdersInOrder | tests/test_query_generator.py:15 | `{brand1} vs {brand2}` gives `brand1`, `brand2` |
| QueriesGenerator.NoPlaceholders | tests/test_query_generator.py:16 | a text without markers gives no name |
| QueriesGenerator.PlaceholdersKeepDuplicates | tests/test_query_generator.py:17 | `{s} and {s}` gives `s` twice |
| QueriesGenerator.Filled | src/queries_generator.py:58-62 | defines filling as `Replace` of each `{key}` in dictionary order; `FillSingleTemplate`, `FillOnPieces` and `FillWithoutMarkers` state what it produces |
| QueriesGenerator.FillSingleTemplate | src/queries_generator.py:58-62 | the replace loop over the keys in dictionary order computes the fold of `Replace` |
| QueriesGenerator.FillOnPieces | src/queries_generator.py:58-62 | for a template whose texts have no `{` and whose marker names are words, with word keys and values without `{`, filling replaces each marker by the first value bound to its name, and leaves unbound markers and the text alone |
| QueriesGenerator.FillWithoutMarkers | src/queries_generator.py:58-62 | a template without `{` comes back unchanged |
| QueriesGenerator.FilledAppend | src/queries_generator.py:60-61 | filling with two lists of variables is filling with the first, then the second |
| QueriesGenerator.FillLeavesNoBrace | src/queries_generator.py:58-62 | for a template whose texts have no brace and whose marker names are words, with word keys, every marker bound, and values without braces, the result has no brace |
| QueriesGenerator.FillCascades | src/queries_generator.py:60-61 | the replace fold cascades: with `a` bound to `{b}` and `b` to `Z`, `{a}` is filled to `Z`, not to its own value |
| QueriesGenerator.FillExamples | tests/test_query_generator.py:22-28 | `{brand1} vs {brand2}` fills to `A vs B`, and an unknown marker is left as it is |
| QueriesGenerator.Choices | src/queries_generator.py:77-78 | an iterated list offers each of its names in order |
| QueriesGenerator.Variables | src/queries_generator.py:70-89 | defines the variables of one query in insertion order; `ExpansionsShape` states that each expansion is filled with them, `ComparisonBindings` that a comparison query binds all six names |
| QueriesGenerator.Expansions | src/queries_generator.py:76-94 | defines every filled query of a template, competitor-major; `ExpansionsShape` and `ExpandTemplate` state its length and entries |
| QueriesGenerator.QueriesFromTemplate | src/queries_generator.py:65-94 | defines the queries of one template or the error for a missing `category` or target; `GenerateQueriesFromTemplate` and `GenerationFails` state it |
| QueriesGenerator.GenerateQueriesFromTemplate | src/queries_generator.py:65-94 | computes the expansions of the template, or the error for a missing `category` or target |
| QueriesGenerator.ExpandTemplate | src/queries_generator.py:76-94 | the nested competitor and use-case loops produce exactly the expansions of the template, competitor-major |
| QueriesGenerator.AppendCaseQueries | src/queries_generator.py:82-92 | the inner loop appends one filled query per use-case choice, in order, behind what was produced before |
| QueriesGenerator.ExpansionsShape | src/queries_generator.py:76-92 | there are `|competitor choices| * |use-case choices|` queries, competitor-major, and query `i * C + j` fills the template for choice `i` and case `j` |
| QueriesGenerator.UngatedTemplate | src/queries_generator.py:76-78 | a template without `brand1`, `competitor` and `use_case` yields the single base-filled query |
| QueriesGenerator.EmptyIteratedList | src/queries_generator.py:77-82 | a template that iterates an empty list yields no query |
| QueriesGenerator.Brand2AloneIsNotIterated | src/queries_generator.py:76-77 | `{brand2}` alone does not iterate the competitors: one query per use case, without a competitor |
| QueriesGenerator.GenerationFails | src/queries_generator.py:70-74 | generation fails exactly when `category` or the target alias is missing |
| QueriesGenerator.CategoryOnlyExample | tests/test_query_generator.py:66-71 | `What are the best {category} apps?` yields exactly `What are the best note-taking apps?` |
| QueriesGenerator.ComparisonQueriesHaveNoBraces | tests/test_query_generator.py:73-79 | every query of `{brand1} vs {brand2} for {use_case}` is free of braces when the values are brace-free and non-empty |
| QueriesGenerator.Tagged | src/queries_generator.py:105-110 | each query of a template is paired with its category, in order |
| QueriesGenerator.AppendQueries | src/queries_generator.py:105-111 | the inner loop numbers the new queries on from the running counter |
| QueriesGenerator.AppendTemplate | src/queries_generator.py:102-111 | one template's queries are generated and numbered on, or its error is reported |
| QueriesGenerator.AppendGroup | src/queries_generator.py:101-111 | one category's templates are expanded in order and numbered on; an error stops at the first template |
| QueriesGenerator.AllQueries | src/queries_generator.py:96-112 | defines the numbered list of every category's queries or the first error; `GenerateAllQueries`, `AllQueriesAreNumbered` and `AllQueriesComeFromTheirCategory` state it |
| QueriesGenerator.GenerateAllQueries | src/queries_generator.py:96-112 | the loops of `generate_all_queries` compute the numbered list of every category's queries, or the first error |
| QueriesGenerator.PairsWithoutTemplates | src/queries_generator.py:101-102 | categories without templates produce no query |
| QueriesGenerator.NumberedAt | src/queries_generator.py:99-111 | record `i` carries id `i + 1` and the `i`-th query with its category |
| QueriesGenerator.AllQueriesAreNumbered | tests/test_query_generator.py:89 | the ids are 1, 2, ..., n in order |
| QueriesGenerator.AllQueriesComeFromTheirCategory | src/queries_generator.py:101-110 | a record with a category and query exists exactly when the query comes from a template of that category |
| QueriesGenerator.AllQueriesInCategoryOrder | src/queries_generator.py:101-111 | the records of the first categories are a prefix of the records of all categories |
| ConfigLoader.GetProviderConfig | src/config_loader.py:21-25 | a found entry is one of the listed providers' entries |
| ConfigLoader.DefaultProviderIsUsed | src/config_loader.py:24-25 | with no name or an empty one, the default provider's entry is returned, or a `KeyError` for it |
| ConfigLoader.NamedProviderIsUsed | src/config_loader.py:24-25 | a non-empty name selects its own entry, or a `KeyError` for it, whatever the default is |
| ConfigLoader.LoadApiKey | src/config_loader.py:27-57 | a returned key is non-empty with no whitespace at either end; every error names the provider asked for |
| ConfigLoader.LoadApiKeySucceedsExactly | src/config_loader.py:42-45 | a key is returned exactly when the configured variable is set to something other than whitespace |
| ConfigLoader.LoadApiKeyIsStrippedValue | src/config_loader.py:44-45 | the key is the stripped value of the variable, found inside it |
| ConfigLoader.LoadApiKeyFailures | src/config_loader.py:30-57 | an unknown provider, a missing `api_key_env`, and an unset or blank variable each give their own error, the last naming the variable |
| ConfigLoader.EmptyNameLoadsDefaultKey | src/config_loader.py:21-31 | an empty provider name loads the default provider's key |
| LlmClients.Alias | src/llm_clients.py:36-37 | maps `gpt`, `claude` and `gemini` to their providers and anything else to none; its ensures states that a result is a provider, `PickProviderAliases` that exactly these three names select one |
| LlmClients.PickProvider | src/llm_clients.py:33-50 | a chosen provider is one of openai, anthropic and google, and a non-empty name is looked up lower-cased |
| LlmClients.PickProviderAliases | src/llm_clients.py:35-37 | `gpt`, `claude` and `gemini` in any case select openai, anthropic and google, and nothing else selects a provider |
| LlmClients.UpperCaseAlias | src/llm_clients.py:37 | `GPT` selects openai |
| LlmClients.PickProviderIgnoresCase | src/llm_clients.py:37 | a name and its lower-cased form select the same provider |
| LlmClients.PickMode | src/llm_clients.py:349-367 | a provider comes back exactly in single mode, and it is a supported one |
| LlmClients.PickModeChoices | src/llm_clients.py:359-367 | `all` gives every provider, an alias gives single mode with its provider, anything else non-blank gives every provider |
| LlmClients.BlankModeAsksForProvider | src/llm_clients.py:349-364 | a blank mode answer shows the provider prompt, whose answer decides the mode |
| LlmClients.ValidateApiKey | src/llm_clients.py:53-59 | defines the check on a provider's key; its ensures states that a refusal is the missing-key error naming the provider, `ValidateApiKeyRefusesOnlyEmpty` that only an unset or empty key is refused |
| LlmClients.ValidateApiKeyRefusesOnlyEmpty | src/llm_clients.py:53-59 | only an unset or empty key is refused |
| LlmClients.BuildClient | src/llm_clients.py:62-103 | no client exactly for a missing or empty name; a built client is for the named, supported provider and holds a non-empty key |
| LlmClients.BuildClientOutcomes | src/llm_clients.py:62-103 | an unsupported name, a configuration miss, an unset or empty key and success each happen exactly under their condition; a success keeps the key as read |
| LlmClients.BlankKeyBuildsClient | src/llm_clients.py:73-74 | a key of blanks builds a client while the configuration loader refuses it |
| LlmClients.Delays | src/llm_clients.py:114-129 | the `k`-th delay is `initial_delay * backoff_factor^k` |
| LlmClients.FirstStop | src/llm_clients.py:117-135 | the first attempt that is not rate-limited, or the attempt limit |
| LlmClients.CallWithRetry | src/llm_clients.py:106-137 | calls stop at the first attempt that is not rate-limited, within `max_retries`. Its value is returned or its exception raised. If every attempt is rate-limited, the last rate-limit error is raised, and `None` when no attempt was made. The sleeps are the backoff delays, one between every two calls and none after the last |
| LlmClients.DelaysGrow | src/llm_clients.py:128-129 | with a factor of at least one the delays never shrink |
| LlmClients.DefaultBackoff | src/llm_clients.py:106-110 | with the defaults the two sleeps last 2 and 4 seconds |
| LlmClients.Normalize | src/llm_clients.py:157-237 | the answer keeps the reply's text; Anthropic's total is input plus output; Gemini reports the requested model and OpenAI and Anthropic their own |
| LlmClients.AskProvider | src/llm_clients.py:307-328 | an answer comes only from a client built for a supported provider; a client that cannot be built, a missing configuration entry or `model`, and a failed SDK call each give `None`; a successful call gives the normalised reply of the provider's SDK |
| LlmClients.AskAllProviders | src/llm_clients.py:331-346 | the result has exactly the keys openai, anthropic and google, each holding that provider's answer |
| LlmClients.AskAllProvidersSlots | src/llm_clients.py:307-346 | a provider whose client cannot be built gets `None`, and a filled Anthropic slot adds up its tokens |

## Left out

- LlmClients.Normalize: a Gemini token count is either missing, read as
  0 as `getattr(..., 0)` does, or a number. The SDK's usage fields are
  optional and default to `None`; a count that is present but `None` is
  copied into the answer as `None` by the source. The model has no such
  reply and does not capture that case.
- File and directory I/O is not modelled. This covers `load_config`,
  `load_templates`, `load_brands`, `get_use_cases`, `save_queries`,
  `save_analysis`, and the `brands.json` read inside `detect_mentions`.
  Their results are parameters: the registry, the target name, the
  template groups, the use cases, the configuration and a run
  directory's listing.
- `load_answers` with no run directory picks the newest directory by
  modification time. That choice is not modelled; the listing of the
  chosen directory is the input. A file that is missing, unreadable for
  lack of permission or not valid JSON is an entry without content, and
  is skipped. The other errors of opening and reading a file (a directory
  of that name, bytes that are not valid text) are not caught by the
  source and would end the run; the model has no such entries.
- The JSON type errors are not modelled: a wrong type in a file, or a
  missing `id`, `question` or `text`, would raise in the source. Fields
  are modelled as strings and integers.
- Console I/O is not modelled. `input()` lines are parameters,
  `print_summary` returns its lines instead of printing them, and logging
  and the `__main__` blocks are left out.
- Strings are ASCII only. `str.lower`, `str.strip`, `\w` and `\b` are
  modelled for ASCII characters; Unicode case mapping and Unicode word
  characters are not.
- Floating point is not modelled. Position scores are integers in tenths
  and averages are exact `real`s; rounding to two decimals in the printed
  summary is left out. Sleep delays are exact `real`s.
- Concurrency is left out. `aio.to_thread` in `mention_analyzer_async`,
  `aio.gather` in `ask_all_providers` and `aio.sleep` are sequential in
  the model: chunks run in order, each provider's slot is computed on its
  own, and sleeps are returned as a list of delays.
- The network and the SDKs are opaque. The OpenAI, Anthropic and Gemini
  SDKs are a parameter that gives a reply, or fails, for a client, model
  and question. Client objects are the provider key with its API key.
  The retried call inside `ask_openai`, `ask_anthropic` and `ask_google`
  is that parameter; `CallWithRetry` models the retry loop on its own.
- `ask_something` is not modelled, since it is interactive I/O around
  `build_client` and the `ask_*` functions.
- QueriesGenerator.GenerateQueriesFromTemplate: the use cases are a
  parameter. The source reads them from the templates file through
  `get_use_cases`, so the `use_cases` entry of the `placeholders`
  argument (as the test suite passes it) is not where they come from.
- Placeholder values are modelled as strings only; a non-string value would
  make `replace` raise.
- Dictionary order is modelled explicitly: the competitor names of the
  registry and the categories of the templates are sequences in
  dictionary order.
- A query's variables are a list of pairs in insertion order, with no
  repeated key.
- MentionAnalyzer.PositionScore: the requires excludes a first position
  with an empty text, where the source divides by zero. Detected mentions
  never reach that case, since a match needs a non-empty text;
  `Mentions` proves this for every mention.
- `tests/test_mention_analyzer.py` breaks off at line 64, inside
  `test_detects_competitor_mentions`, before its call and its assertions;
  that test is not modelled.
- `src/query_runner.py`, `src/query_enhancer.py` and `src/cli.py` are not
  part of this model.
