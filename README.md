# HKJC race-card scraper, modelled in Dafny

This project models the core of `hkjc_scraper`, a scraper for the Hong Kong Jockey Club racing site.
Given a race day, a course (`HV` or `ST`) and a race number, it reads the race card, finds the race
table by its Chinese header labels and builds one topline record per runner. It then visits each
horse's detail page to collect past runs, injury records and a profile text. The topline entry and
the detail dict are merged into a `HorseRecord`, and a JSON checkpoint is written every
`checkpoint_interval` horses so a crashed run can resume.

The browser is not modelled. A page is a value: its tables (header cells, row cells, row links),
its text, the texts of the elements that selectors find, its title and its URL. Everything else is modelled on values, as the Python source is:

| module | file | models |
|---|---|---|
| `Strings` | strings.dfy | substring search, `" ".join`, decimal digits and `str(int)` |
| `Dom` | dom.dfy | links, table rows and tables as values |
| `Normalize` | normalize.dfy | `normalize_text` and `extract_text_safe` (utils.py) |
| `Validate` | validate.dfy | the date, course and race-number checks and the race-card URL (utils.py) |
| `Retry` | retry.dfy | `retry_with_backoff` (utils.py), with the operation and the jitter as oracles |
| `HeaderMatch` | headermatch.dfy | `_header_matches` (selectors.py) |
| `Selectors` | selectors.dfy | `SelectorHelper` (selectors.py) |
| `Models` | models.dfy | the pydantic records of models.py, their string validator, `model_dump`, and the checkpoint dict round trip |
| `RaceCard` | racecard.dfy | `RaceCardScraper` (racecard.py) |
| `HorseDetail` | horsedetail.dfy | `HorseDetailScraper` (horse_detail.py) |
| `Crawl` | crawl.dfy | the `main` command (main.py): gate, checkpoint load and resume, the per-horse loop, the exception handlers |

The loops of the source are methods with loop invariants. Each method is proved equal to a
specification function, and the lemmas state what the source promises about that function.

Some places where the code and its documentation disagree, or where the code does something
unexpected. The model follows the code in each case:

- `validate_date_format` uses `strptime("%Y/%m/%d")`, which accepts one-digit months and days. So
  "2025/9/17" is accepted (`Validate.AcceptsSingleDigitMonth`), although
  tests/test_parsing_unit.py:41 expects it to be rejected.
- `validate_course` upper-cases before comparing. Besides the four case variants it therefore also
  accepts `ſT`, `ſt`, `ﬅ` and `ﬆ` (`Validate.CourseSpellings`).
- `get_header_column_map` lets a later header column overwrite an earlier one with the same first
  matching label (selectors.py:149). Likewise `extract_table_data` keeps the last column of a
  repeated header.
- In `_extract_horse_data` the default "1" for 練馬師喜好 (racecard.py:140-141) never applies,
  because the field mapping always sets that key from 優先參賽次序 (`RaceCard.MappedKeys`).
- In `_extract_horse_id_from_url`, the pattern `HorseId=(\d+)` can never match where
  `HorseId=([A-Z0-9_]+)` did not (`RaceCard.NumericPatternUnreachable`).
- The past-run scan stops at the first basic table that yields records. Comprehensive tables never
  stop it, so several of them accumulate more than six runs (`HorseDetail.ComprehensiveTablesAccumulate`).
- An injury's pass date is read but dropped, because `InjuryRecord` has only a date and a description.
- An explicit `detail_url=None` becomes "" through the `"*"` validator (`Models.ExplicitNoneUrlBecomesEmpty`).
- The page-text fallback for past runs never yields a record, because its read of the page text
  always raises (see Findings).
- click refuses a `--course` that is not HV or ST in some letter case with exit status 2, so the course
  check in `main` never fails (`Crawl.CourseGatePasses`).
- A `checkpoint_interval` of 0 raises `ZeroDivisionError` after the record is stored. The
  per-horse handler catches it, so the record stays and no checkpoint is written.

## Model

| member | source | states |
|---|---|---|
| Normalize.NormalizeTextSpec | hkjc_scraper/utils.py:33-45 | the result of `Normalize.NormalizeText` has no whitespace at either end, whitespace inside only as single plain blanks, and no occurrence of the replaced literal |
| Normalize.NormalizeIdempotent | hkjc_scraper/utils.py:33-45 | normalizing twice gives the same text as normalizing once |
| Normalize.NormalizedIsFixpoint | hkjc_scraper/utils.py:33-45 | a text that already has the normalized shape is returned unchanged |
| Normalize.NormalizeKeepsContent | hkjc_scraper/utils.py:39-45 | only whitespace is dropped: after the literal is replaced, the non-whitespace characters survive in order |
| Normalize.CellText | hkjc_scraper/utils.py:116-124 | normalizing the text `extract_text_safe` already normalized gives a single normalization of the raw text |
| Normalize.ReplacedHasNoLiteral | hkjc_scraper/utils.py:39 | after the replacement the literal occurs at no position |
| Normalize.CollapseIsTidy | hkjc_scraper/utils.py:42 | after `\s+` is collapsed, whitespace occurs only as single blanks, never two in a row, and a run that follows whitespace does not start with whitespace |
| Normalize.CollapseKeepsContent | hkjc_scraper/utils.py:42 | collapsing keeps every non-whitespace character, in order |
| Normalize.StripIsNormalized | hkjc_scraper/utils.py:45 | stripping a collapsed text leaves it normalized at both ends |
| Normalize.StripKeepsContent | hkjc_scraper/utils.py:45 | stripping keeps every non-whitespace character, in order |
| Validate.ParseDate | hkjc_scraper/utils.py:211-217 | a date the format accepts has a year 1-9999, a month 1-12 and a day within that month, leap years included |
| Validate.MonthToken | hkjc_scraper/utils.py:214 | a month token that parses lies in 1-12 |
| Validate.DayToken | hkjc_scraper/utils.py:214 | a day token that parses lies in 1-31 |
| Validate.DateRoundTrip | hkjc_scraper/utils.py:211-217 | every calendar date written as zero-padded YYYY/MM/DD is accepted and parses back to itself |
| Validate.MonthTokenPadded | hkjc_scraper/utils.py:214 | every month 1-12 written with two digits reads back as that month |
| Validate.DayTokenPadded | hkjc_scraper/utils.py:214 | every day 1-31 written with two digits reads back as that day |
| Validate.PadValue | hkjc_scraper/utils.py:214 | a zero-padded number is all digits and reads back as the number |
| Validate.DateExamplesAccepted | tests/test_parsing_unit.py:35-37 | "2025/09/17", "2025/12/31" and "2025/01/01" are accepted |
| Validate.AcceptsSeptember17 | tests/test_parsing_unit.py:35 | "2025/09/17" is accepted |
| Validate.AcceptsDecember31 | tests/test_parsing_unit.py:36 | "2025/12/31" is accepted |
| Validate.AcceptsNewYear | tests/test_parsing_unit.py:37 | "2025/01/01" is accepted |
| Validate.DateExamplesRejected | tests/test_parsing_unit.py:39-42 | "2025-09-17", "25/09/17" and "invalid" are rejected, and so are 2025/02/29 and year 0000 |
| Validate.RejectsNonLeapDay | hkjc_scraper/utils.py:214 | 2025/02/29 is rejected because 2025 is not a leap year |
| Validate.RejectsYearZero | hkjc_scraper/utils.py:214 | year 0000 is rejected |
| Validate.AcceptsLeapDay | hkjc_scraper/utils.py:214 | 2024/02/29 is accepted |
| Validate.AcceptsSingleDigitMonth | hkjc_scraper/utils.py:214 | "2025/9/17" is accepted, against tests/test_parsing_unit.py:41 |
| Validate.DateExamplesLenient | hkjc_scraper/utils.py:211-217 | the leap day and the one-digit month are both accepted |
| Validate.Upper | hkjc_scraper/utils.py:223 | upper-casing never shortens a string |
| Validate.UpperCharLetter | hkjc_scraper/utils.py:223 | exactly which characters upper-case to H, V, S, T and to ST, and that none upper-cases to HV |
| Validate.CourseSpellings | hkjc_scraper/utils.py:220-223 | a course is accepted exactly when it is one of the twelve spellings whose `upper()` is HV or ST |
| Validate.RacecardUrlShape | hkjc_scraper/utils.py:231-238 | for a valid course and race number the URL is the template filled with the date, HV or ST, and the race number's decimal digits |
| Retry.RetryWithBackoff | hkjc_scraper/utils.py:55-92 | the outcome, the sleeps and the number of calls are those of the attempt schedule, with falsy arguments replaced by the configured values; its specification is `Retry.RetrySpec` |
| Retry.RunSchedule | hkjc_scraper/utils.py:73-90 | at most max_retries+1 calls; one sleep between consecutive calls and none after the last; each sleep is min(base·2^k + jitter, max_delay) for its attempt k and lies in [0, max_delay] |
| Retry.RunReturnsFirstSuccess | hkjc_scraper/utils.py:73-77 | a returned value is the last call's, which succeeded, and every earlier call failed |
| Retry.RunFirstSuccess | hkjc_scraper/utils.py:73-88 | when attempt s is the first success, its value is returned after s+1 calls and s sleeps |
| Retry.RunAllFail | hkjc_scraper/utils.py:73-92 | when every attempt fails, max_retries+1 calls and max_retries sleeps are made and the last attempt's exception is raised |
| Retry.NegativeRetriesRaiseTypeError | hkjc_scraper/utils.py:71-92 | a negative retry count makes no call and raises TypeError (`raise None`) |
| Retry.DelaysNonDecreasing | hkjc_scraper/utils.py:80-83 | with a base of at least 1000 ms, a wait is never shorter than the one before it |
| Retry.DefaultSchedule | hkjc_scraper/utils.py:63-66 | with the retry count unset or 0 and the delays unset, the configured 3/1000/5000 give at most 4 calls, at most 3 sleeps, each in [1000, 5000] ms |
| HeaderMatch.WordChars | hkjc_scraper/selectors.py:100-101 | the cleaned text keeps word characters only |
| HeaderMatch.CJKCore | hkjc_scraper/selectors.py:108-109 | the core keeps CJK ideographs only |
| HeaderMatch.AnyBigramInIff | hkjc_scraper/selectors.py:117-120 | the window loop succeeds exactly when some two-character window of the expected core occurs in the observed core |
| HeaderMatch.HeaderMatchesSymmetric | hkjc_scraper/selectors.py:89-122 | the header comparison gives the same answer with its arguments swapped |
| HeaderMatch.EmptyMatchesEverything | hkjc_scraper/selectors.py:96 | the empty label matches every label, in both directions |
| HeaderMatch.HeaderExamplesMatch | tests/test_parsing_unit.py:155-160 | 馬號 and 馬名 match themselves and their labels with an English gloss |
| HeaderMatch.HorseNoNotJockey | tests/test_parsing_unit.py:163 | 馬號 does not match 騎師 |
| HeaderMatch.HorseNameNotTrainer | tests/test_parsing_unit.py:164 | 馬名 does not match 練馬師 |
| HeaderMatch.NoMatchBetween | hkjc_scraper/selectors.py:89-122 | two non-empty all-CJK labels with no character in common never match |
| HeaderMatch.AllCJKKept | hkjc_scraper/selectors.py:100-109 | an all-CJK label passes both cleaning steps unchanged |
| Selectors.Texts | hkjc_scraper/selectors.py:276-280 | one normalized text per cell, in order |
| Selectors.NonEmptyTexts | hkjc_scraper/selectors.py:68-72 | the header texts kept are non-empty and normalized, at most one per cell |
| Selectors.TableHasHeaders | hkjc_scraper/selectors.py:53-87 | the answer is whether at least 3 expected labels are each matched by some non-empty header text; its specification is `Selectors.HasHeaders` |
| Selectors.HeaderTexts | hkjc_scraper/selectors.py:68-72 | the loop collects exactly the non-empty header texts; its specification is `Selectors.NonEmptyTexts` |
| Selectors.CountFound | hkjc_scraper/selectors.py:75-80 | the count is the number of expected labels matched by some text, each label counted once; its specification is `Selectors.CountMatched` |
| Selectors.CountMatchedBound | hkjc_scraper/selectors.py:75-80 | the count never exceeds the number of expected labels |
| Selectors.FewLabelsNeverQualify | hkjc_scraper/selectors.py:82-83 | with fewer than 3 expected labels no table qualifies |
| Selectors.EmptyHeadersNeverQualify | hkjc_scraper/selectors.py:64-72 | a table whose header cells are all blank never qualifies |
| Selectors.FirstIndex | hkjc_scraper/selectors.py:32-35 | the index found satisfies the test and no earlier one does; None means none does |
| Selectors.FindTableByHeaders | hkjc_scraper/selectors.py:19-51 | the table found is the first qualifying one over the selector results and then all tables; its specification is `Selectors.FoundTable` |
| Selectors.SearchResults | hkjc_scraper/selectors.py:28-48 | the loop returns the first qualifying table of the flattened query results, or None |
| Selectors.FirstWithHeaders | hkjc_scraper/selectors.py:32-35 | the inner loop returns the index of the first qualifying table of one query result |
| Selectors.FoundTableIsFirst | hkjc_scraper/selectors.py:19-51 | a table found has the headers and every table before it, in selector then document order, does not; None only when no table qualifies |
| Selectors.GetHeaderColumnMap | hkjc_scraper/selectors.py:124-156 | the loop builds the header column map of the table; its specification is `Selectors.HeaderColumnMap` |
| Selectors.FirstMatchingLabel | hkjc_scraper/selectors.py:147-151 | the label chosen for a header text is the first expected label, in list order, that matches it; its specification is `Selectors.FirstMatch` |
| Selectors.MapColumnsSound | hkjc_scraper/selectors.py:141-151 | each mapped label sits at a non-empty column whose label it is, and no later non-empty column has that label |
| Selectors.MapColumnsComplete | hkjc_scraper/selectors.py:141-151 | every non-empty column that has a label is mapped, at that column or a later one |
| Selectors.FirstMatchIn | hkjc_scraper/selectors.py:147-151 | the label chosen is an expected label and matches the header text |
| Selectors.ColumnMapSpec | hkjc_scraper/selectors.py:141-151 | every key is an expected label whose column is the last non-empty header whose first match it is, and every header with a match is accounted for |
| Selectors.ColumnMapInjective | hkjc_scraper/selectors.py:141-151 | no two labels are mapped to the same column |
| Selectors.GetCellByHeader | hkjc_scraper/selectors.py:158-178 | the cell text is normalized, and "" when the header is unmapped or its column lies beyond the row |
| Selectors.CellUnderHeader | hkjc_scraper/selectors.py:158-178 | for a mapped header, the value read is the row's cell in the header's last matching column, or "" for a shorter row |
| Selectors.EmptyTabIsFound | hkjc_scraper/selectors.py:193-195 | a first tab with blank text is returned, because the empty text matches any target |
| Selectors.FoundTabMatches | hkjc_scraper/selectors.py:180-203 | a tab found is among the results and its text matches some target; None means no tab matches any target |
| Selectors.TakePrefix | hkjc_scraper/selectors.py:283-285 | the rows kept are a prefix of the rows |
| Selectors.DataRows | hkjc_scraper/selectors.py:287-297 | at most one dict per row |
| Selectors.ExtractTableData | hkjc_scraper/selectors.py:261-302 | the method returns the table's row dicts; its specification is `Selectors.TableData` |
| Selectors.CollectRows | hkjc_scraper/selectors.py:287-297 | the loop returns one dict per kept row, in order; its specification is `Selectors.DataRows` |
| Selectors.AllTexts | hkjc_scraper/selectors.py:276-280 | the loop returns the normalized texts of the cells; its specification is `Selectors.Texts` |
| Selectors.RowData | hkjc_scraper/selectors.py:289-294 | the loop builds the row's header-to-cell dict; its specification is `Selectors.RowDict` |
| Selectors.TableDataBound | hkjc_scraper/selectors.py:283-285 | at most one dict per data row, and at most max_rows when that is positive |
| Selectors.RowDictContents | hkjc_scraper/selectors.py:289-294 | every header among the first n is a key, and each key holds the value of the last column with that header |
| Selectors.RowDroppedIff | hkjc_scraper/selectors.py:296-297 | a row gives no dict exactly when there are no headers or the row has no cells |
| Selectors.HorseLinksOf | hkjc_scraper/selectors.py:311-319 | at most one link per row, each with a non-empty horse href and normalized text |
| Selectors.FindHorseLinks | hkjc_scraper/selectors.py:304-324 | the links found are the horse links of the rows after the header row; its specification is `Selectors.HorseLinksOf` |
| Selectors.FirstHorseLink | hkjc_scraper/selectors.py:313-319 | the link chosen is the row's first link whose href names a horse page |
| RaceCard.RunLength | hkjc_scraper/racecard.py:184-205 | the run measured is the longest run of the pattern's class starting at the position |
| RaceCard.Search | hkjc_scraper/racecard.py:184-205 | `re.search` finds the leftmost match, and None means no position matches |
| RaceCard.Group | hkjc_scraper/racecard.py:184-205 | a match's group is non-empty and made of the pattern's characters |
| RaceCard.LastSegment | hkjc_scraper/racecard.py:186-191 | the part after the last '_' is a suffix without '_', preceded by '_' when shorter than the code |
| RaceCard.ExtractHorseId | hkjc_scraper/racecard.py:177-211 | an ID extracted never contains '_' |
| RaceCard.HorseIdSpec | hkjc_scraper/racecard.py:177-211 | None exactly when none of the three reachable patterns matches; a `HorseId=` code gives its last '_' segment; otherwise the ID is a non-empty run of digits |
| RaceCard.CodeAtStart | hkjc_scraper/racecard.py:183-191 | for `HorseId=` followed by a code, the ID is the code's last segment |
| RaceCard.SegmentedCode | hkjc_scraper/racecard.py:183-190 | for `HorseId=front_last`, the ID is `last` |
| RaceCard.HorseIdExample | hkjc_scraper/racecard.py:183 | the code HK_2024_K106 gives K106 |
| RaceCard.TrailingUnderscore | hkjc_scraper/racecard.py:186-190 | a code ending in '_' gives the empty ID |
| RaceCard.NumericPatternUnreachable | hkjc_scraper/racecard.py:193-196 | when the code pattern finds nothing, the numeric `HorseId=` pattern finds nothing either |
| RaceCard.Absolute | hkjc_scraper/racecard.py:168-169 | a site-relative href gets the site origin in front, any other href is kept |
| RaceCard.FindHorseDetailLink | hkjc_scraper/racecard.py:159-175 | the link found is the row's first horse link, made absolute; its specification is `RaceCard.DetailLink` |
| RaceCard.DetailLinkNonEmpty | hkjc_scraper/racecard.py:165-170 | a detail link found is never empty |
| RaceCard.ExtractHorseData | hkjc_scraper/racecard.py:100-157 | the method returns the row's ToplineData; its specification is `RaceCard.RowTopline` |
| RaceCard.MapFields | hkjc_scraper/racecard.py:132-137 | the loop builds the mapped-field dict; its specification is `RaceCard.MappedFields` |
| RaceCard.AddLink | hkjc_scraper/racecard.py:144-150 | the link step adds the detail URL and the horse ID as the source does; its specification is `RaceCard.WithLink` |
| RaceCard.LinkCases | hkjc_scraper/racecard.py:144-150 | a link sets `detail_url`, and sets 馬匹ID only when the parsed ID is non-empty |
| RaceCard.WithLinkFields | hkjc_scraper/racecard.py:144-150 | the link step changes only `detail_url` and 馬匹ID, keeps values text, and sets each exactly when the link and its ID are non-empty |
| RaceCard.FieldTargetsDistinct | hkjc_scraper/racecard.py:112-129 | no two headers of the mapping feed the same field |
| RaceCard.FieldMappingGood | hkjc_scraper/racecard.py:112-129 | the mapping targets distinct string fields other than the ID, and 優先參賽次序 feeds 練馬師喜好 |
| RaceCard.MappedFieldsAt | hkjc_scraper/racecard.py:132-137 | every field of the mapping is set, to the cell under its header |
| RaceCard.MappedKeys | hkjc_scraper/racecard.py:132-141 | the mapped dict holds text for string fields only, never 馬匹ID or `detail_url`, and always 練馬師喜好, so the "1" default never applies |
| RaceCard.RowArguments | hkjc_scraper/racecard.py:109-150 | the arguments hold text: each mapped field's cell, `detail_url` exactly when a link is found, and 馬匹ID exactly when that link gives a non-empty ID |
| RaceCard.RowToplineFor | hkjc_scraper/racecard.py:100-157 | for any well-formed mapping the record validates with each mapped cell, the link and the parsed ID |
| RaceCard.RowToplineFields | hkjc_scraper/racecard.py:100-157 | every row validates; each field holds the cell under its header, 練馬師喜好 the 優先參賽次序 cell, `detail_url` the link and 馬匹ID the parsed ID or "" |
| RaceCard.RowToplineSome | hkjc_scraper/racecard.py:100-157 | no row fails validation |
| RaceCard.ToplinesOf | hkjc_scraper/racecard.py:82-92 | at most one record per row |
| RaceCard.ScrapeRaceTable | hkjc_scraper/racecard.py:61-98 | the method returns the records of the race table found; its specification is `RaceCard.RaceTableOf` |
| RaceCard.ExtractRows | hkjc_scraper/racecard.py:82-92 | the loop returns the records of the data rows, in order; its specification is `RaceCard.ToplinesOf` |
| RaceCard.ToplinesOfEveryRow | hkjc_scraper/racecard.py:82-92 | exactly one record per row, each the row's own record, in order |
| RaceCard.ToplineAt | hkjc_scraper/racecard.py:82-92 | the record at position i is that of row i |
| RaceCard.RaceTableSpec | hkjc_scraper/racecard.py:61-98 | [] without a race table or with an empty column map; otherwise one record per data row, each the row's own |
| Models.PositionOnly | hkjc_scraper/models.py:15-36 | a past run with only its position set has every other field at its default "" |
| Models.ConvertToString | hkjc_scraper/models.py:68-76 | the validator gives text for everything but lists and dicts, which pass unchanged |
| Models.StrOf | hkjc_scraper/models.py:114-122 | a string field accepts every value except a list or a dict |
| Models.InjuriesOf | hkjc_scraper/models.py:8-12 | an accepted injury list keeps one record per item |
| Models.PastRunsOf | hkjc_scraper/models.py:15-36 | an accepted past-run list keeps one record per item |
| Models.Build | hkjc_scraper/models.py:90-122 | construction succeeds exactly when every field validates, and the record then has exactly the schema's string fields |
| Models.BuildTopline | hkjc_scraper/models.py:39-76 | a ToplineData built from arguments holds the HorseRecord built from them |
| Models.InjuryItems | hkjc_scraper/models.py:8-12 | dumped injury records validate back to themselves |
| Models.RunItems | hkjc_scraper/models.py:15-36 | dumped past-run records validate back to themselves |
| Models.Dump | hkjc_scraper/models.py:90-112 | `model_dump` has a key for each string field and the two list fields |
| Models.DumpTopline | hkjc_scraper/models.py:39-66 | a ToplineData dump adds `detail_url` to the record's keys |
| Models.FromToplineAndDetail | hkjc_scraper/models.py:78-87 | a merged record has exactly the schema's string fields |
| Models.FromToplineData | hkjc_scraper/models.py:124-127 | a converted record has exactly the schema's string fields |
| Models.SaveCheckpoint | hkjc_scraper/utils.py:151 | one dump per record |
| Models.LoadCheckpoint | hkjc_scraper/utils.py:179-184 | either nothing or one record per entry |
| Models.Defaults | hkjc_scraper/models.py:90-112 | a record built with no arguments has "1" for 練馬師喜好, "" for every other string field and empty lists |
| Models.ConvertIdempotent | hkjc_scraper/models.py:68-76 | the validator leaves its own output unchanged |
| Models.ConversionExamples | tests/test_parsing_unit.py:129-140 | 1 becomes "1", 85.5 "85.5", None "", True "True" and -3 "-3" |
| Models.BuildFromFields | hkjc_scraper/models.py:90-122 | two argument maps that give the same fields give the same record |
| Models.IgnoresExtraKeys | hkjc_scraper/models.py:90-112 | keys that name no field do not change the record |
| Models.AcceptableWhenTexts | hkjc_scraper/models.py:90-122 | text arguments with valid record lists always validate |
| Models.BuiltField | hkjc_scraper/models.py:114-122 | each string field holds its converted argument or its default |
| Models.OverlaidField | hkjc_scraper/models.py:78-87 | after the merge, a string field comes from the detail dict, else the topline dict, else its default |
| Models.OverlaidLists | hkjc_scraper/models.py:78-87 | the detail dict's injury and past-run lists replace the topline's |
| Models.ToplineWhenAcceptable | hkjc_scraper/models.py:39-66 | valid fields with a text `detail_url`, or none, give a ToplineData carrying that URL |
| Models.DumpRoundTrip | hkjc_scraper/models.py:90-122 | building a record from its own dump gives the record back |
| Models.CheckpointRoundTrip | hkjc_scraper/utils.py:151-179 | loading what `save_checkpoint` wrote gives back the same records, in order |
| Models.LoadAllOrNothing | hkjc_scraper/utils.py:179-184 | either every entry is rebuilt, in order, or the result is [] because some entry fails to validate |
| Models.DetailOverridesTopline | hkjc_scraper/models.py:78-87 | every key of the detail dict overrides the topline's; other fields keep the topline value or the default |
| Models.ExplicitNoneUrlBecomesEmpty | hkjc_scraper/models.py:66-76 | a `detail_url` passed as None becomes "" |
| Models.DetailUrlIgnored | hkjc_scraper/models.py:90-112 | HorseRecord has no `detail_url`, so its value never changes the record |
| Models.FromToplineDataKeepsFields | hkjc_scraper/models.py:124-127 | converting a ToplineData keeps every field of the record |
| Models.ResumeRebuild | hkjc_scraper/main.py:148-152 | a checkpoint record rebuilt for resuming keeps every field and has `detail_url` "" |
| Models.TextArguments | hkjc_scraper/models.py:39-66 | text arguments always validate; given fields keep their text, the others their default, and the lists are empty |
| Models.GivenFieldKept | hkjc_scraper/models.py:90-122 | a string field given as text keeps that text |
| Models.MissingFieldDefaults | hkjc_scraper/models.py:93-112 | a string field not given takes its default |
| Models.RecordExampleGiven | tests/test_parsing_unit.py:113-123 | the record of the unit test keeps the given number and name |
| Models.RecordExampleRest | tests/test_parsing_unit.py:113-127 | that record holds the given injury and past run, and defaults the horse ID to "" |
| Models.WrongTypesRejected | hkjc_scraper/models.py:68-76 | a list for a string field, or a string for a list field, fails validation |
| HorseDetail.FieldAliases | hkjc_scraper/horse_detail.py:214-234 | one alias list per PastRunRecord field |
| HorseDetail.IndicatorCount | hkjc_scraper/horse_detail.py:186-193 | the count never exceeds the number of indicators |
| HorseDetail.KindOf | hkjc_scraper/horse_detail.py:171 | only a table with at least two rows is classified |
| HorseDetail.HeaderIndexSpec | hkjc_scraper/horse_detail.py:199-201 | every header text is a key, mapped to its last column |
| HorseDetail.CellValueFirstUsable | hkjc_scraper/horse_detail.py:524-531 | the value is the cell under the first alias whose column lies in the row, or "" |
| HorseDetail.RowsRunsSpec | hkjc_scraper/horse_detail.py:206-240 | at most one record per row, each meaningful and read from a row with enough cells |
| HorseDetail.TableRunsSpec | hkjc_scraper/horse_detail.py:204 | a table gives at most six records, each meaningful |
| HorseDetail.ScrapePastRunsFromMainPage | hkjc_scraper/horse_detail.py:159-300 | the runs are those of the table scan, or, when the scan finds none, those of the page-text fallback as intended; as written that fallback never reads a text (see Findings); its specification is `HorseDetail.PastRuns` |
| HorseDetail.ScanTables | hkjc_scraper/horse_detail.py:168-289 | the table loop returns the scan's records; its specification is `HorseDetail.ScanFrom` |
| HorseDetail.ReadTable | hkjc_scraper/horse_detail.py:170-287 | one table's kind and, when it is a race table, its records; its specification is `HorseDetail.KindOf` |
| HorseDetail.TableRecords | hkjc_scraper/horse_detail.py:197-240 | the records of one classified table; its specification is `HorseDetail.TableRuns` |
| HorseDetail.BuildHeaderIndex | hkjc_scraper/horse_detail.py:199-201 | the loop builds the header-to-column map; its specification is `HorseDetail.HeaderIndex` |
| HorseDetail.CollectRuns | hkjc_scraper/horse_detail.py:206-240 | the loop keeps the meaningful records of long enough rows, in order; its specification is `HorseDetail.RowsRuns` |
| HorseDetail.ScanEnd | hkjc_scraper/horse_detail.py:168-289 | past the last table the scan returns what it gathered |
| HorseDetail.ScanSkips | hkjc_scraper/horse_detail.py:171-195 | a table that is not a race table is skipped |
| HorseDetail.ScanStops | hkjc_scraper/horse_detail.py:284-285 | a basic table ends the scan once some record has been gathered |
| HorseDetail.ScanGoesOn | hkjc_scraper/horse_detail.py:168-289 | any other race table adds its records and the scan goes on |
| HorseDetail.ScanFromGrows | hkjc_scraper/horse_detail.py:168-289 | the scan only ever appends records |
| HorseDetail.ScanFromBound | hkjc_scraper/horse_detail.py:168-289 | at most six records per table |
| HorseDetail.ScanFromKept | hkjc_scraper/horse_detail.py:237 | every record gathered is meaningful for some table kind |
| HorseDetail.BasicTableEndsScan | hkjc_scraper/horse_detail.py:284-285 | tables after a basic table that ended the scan are never read |
| HorseDetail.ComprehensiveTablesAccumulate | hkjc_scraper/horse_detail.py:168-289 | comprehensive tables never stop the scan: their records are all concatenated |
| HorseDetail.NoHeadersNoRaceTable | hkjc_scraper/horse_detail.py:195 | an empty header row is not a race table |
| HorseDetail.RaceResultAt | hkjc_scraper/horse_detail.py:314-315 | a match ends after its start and within the text |
| HorseDetail.RaceResultAtSpec | hkjc_scraper/horse_detail.py:314-315 | a match is two non-empty digit runs separated by ':' and optional whitespace |
| HorseDetail.FindAllDigits | hkjc_scraper/horse_detail.py:314-315 | every match found has two non-empty all-digit groups |
| HorseDetail.FindAllEmptyIff | hkjc_scraper/horse_detail.py:314-317 | no match is found exactly when no position starts one |
| HorseDetail.Last | hkjc_scraper/horse_detail.py:321 | `matches[-6:]` keeps at most six, and never more than there are |
| HorseDetail.PositionRunsSpec | hkjc_scraper/horse_detail.py:323-340 | one record per match, holding its second group as the position |
| HorseDetail.ParsePastRunsFromText | hkjc_scraper/horse_detail.py:302-349 | the method returns [] when reading the page text raises, as the call at horse_detail.py:308 always does, and otherwise the intended records of the text; its specification is `HorseDetail.FallbackRuns` |
| HorseDetail.FallbackSpec | hkjc_scraper/horse_detail.py:311-340 | for a page text that is read, the intended fallback gives one record for each of the last six `race: position` matches, with its all-digit position; as written no text is read (`HorseDetail.PastRunsAsWritten`) |
| HorseDetail.PastRunsAsWritten | hkjc_scraper/horse_detail.py:302-308 | as written the page text is never read, and the past runs are those of the table scan alone |
| HorseDetail.FallbackDiscrepancy | hkjc_scraper/horse_detail.py:306-346 | a page without race tables whose text holds "843: 06" gets no past run as written, and the position 06 as intended |
| HorseDetail.OwnerRowByCells | hkjc_scraper/horse_detail.py:453-469 | the horse's row test comes down to its cells: at least five, the name cell equal to the name, and a date and a description |
| HorseDetail.InjuryScan | hkjc_scraper/horse_detail.py:446-511 | at most one record per row, each with a non-empty date and description |
| HorseDetail.ScrapeInjuries | hkjc_scraper/horse_detail.py:421-522 | the method returns the injury records of the veterinary table, or [] without a name or a table; its specification is `HorseDetail.Injuries` |
| HorseDetail.ScanInjuryRows | hkjc_scraper/horse_detail.py:446-511 | the row loop returns the scan's records; its specification is `HorseDetail.InjuryScan` |
| HorseDetail.RowText | hkjc_scraper/horse_detail.py:456 | the row text is the cell texts joined with blanks |
| HorseDetail.CheckOwnerRow | hkjc_scraper/horse_detail.py:453-469 | the method decides whether a row is the horse's row; its specification is `HorseDetail.OwnerRow` |
| HorseDetail.FindOwnerRow | hkjc_scraper/horse_detail.py:453-469 | the loop finds the first row of the horse |
| HorseDetail.AppendContinuations | hkjc_scraper/horse_detail.py:479-509 | the loop appends the records of the continuation rows; its specification is `HorseDetail.ContinuationRecords` |
| HorseDetail.ContinuationRecordsSpec | hkjc_scraper/horse_detail.py:479-509 | continuation records have a non-empty date holding '/' or only digits, and a non-empty description |
| HorseDetail.ContinuationsIgnoreLaterRows | hkjc_scraper/horse_detail.py:484-490 | rows after the first non-continuation row never add a record |
| HorseDetail.InjuryScanEmptyIff | hkjc_scraper/horse_detail.py:446-511 | no records exactly when no row is the horse's |
| HorseDetail.InjuryScanFirst | hkjc_scraper/horse_detail.py:446-511 | the records are those of the first row of the horse, then of the rows continuing it |
| HorseDetail.BeforeSeparator | hkjc_scraper/horse_detail.py:558-560 | `split(sep)[0]` is a prefix of the title |
| HorseDetail.BeforeSeparatorSpec | hkjc_scraper/horse_detail.py:558-560 | the part kept holds no separator, and is the whole title or is followed by one |
| HorseDetail.ExtractHorseName | hkjc_scraper/horse_detail.py:533-565 | the method returns the page's horse name; its specification is `HorseDetail.HorseName` |
| HorseDetail.FirstNameElement | hkjc_scraper/horse_detail.py:544-552 | the loop finds the first element whose text is usable as a name |
| HorseDetail.HorseNameSpec | hkjc_scraper/horse_detail.py:533-565 | a name from an element is non-empty, normalized and shorter than 20 characters; without one, a name exists exactly when the title holds 馬匹資料 |
| HorseDetail.TitleNameExample | hkjc_scraper/horse_detail.py:555-560 | "友得盈 - 馬匹資料" gives 友得盈 |
| HorseDetail.FirstDigit | hkjc_scraper/horse_detail.py:148 | the index found holds a digit and no earlier index from the start does; None means no digit follows |
| HorseDetail.DigitRun | hkjc_scraper/horse_detail.py:148-150 | a match of `(\d+)` is a non-empty run of digits |
| HorseDetail.DigitRunSpec | hkjc_scraper/horse_detail.py:148-150 | the match is the leftmost digit together with every digit after it up to the first non-digit, and there is none exactly when the text holds no digit |
| HorseDetail.Rating | hkjc_scraper/horse_detail.py:129-157 | a rating found is a non-empty run of digits |
| HorseDetail.FindInternationalRating | hkjc_scraper/horse_detail.py:140-151 | the selector loop returns the first element text's digit run; its specification is `HorseDetail.Rating` |
| HorseDetail.RatingSpec | hkjc_scraper/horse_detail.py:129-157 | the rating is the digit run of the first found element whose text holds a digit, and there is none exactly when no found element's text holds one |
| HorseDetail.ExtractBasicInfo | hkjc_scraper/horse_detail.py:73-92 | the method returns the horse ID and rating dict; its specification is `HorseDetail.BasicInfo` |
| HorseDetail.ScrapeProfile | hkjc_scraper/horse_detail.py:393-419 | the method returns the profile text of the tables; its specification is `HorseDetail.Profile` |
| HorseDetail.AppendRowParts | hkjc_scraper/horse_detail.py:397-406 | the loop appends the rows' `key: value` parts; its specification is `HorseDetail.RowParts` |
| HorseDetail.RowPartsSpec | hkjc_scraper/horse_detail.py:399-406 | every part is non-empty, and there are none exactly when no row gives one |
| HorseDetail.ProfilePartsSpec | hkjc_scraper/horse_detail.py:393-408 | the same over all tables, in table then row order |
| HorseDetail.ProfileEmptyIff | hkjc_scraper/horse_detail.py:410-419 | the profile is "" exactly when no row of any table gives a part |
| HorseDetail.ScrapeHorseDetails | hkjc_scraper/horse_detail.py:29-71 | the method returns the details dict of the page: the basic info (horse ID and international rating), the past runs, the profile and the injuries, and {} for an empty URL; its specification is `HorseDetail.Details` |
| HorseDetail.BasicInfoShape | hkjc_scraper/horse_detail.py:73-92 | the basic info holds text for the horse ID, present exactly when the page URL yields a non-empty one, and for 國際評分, present exactly when a rating is found, and for nothing else |
| HorseDetail.MergeDetailDict | hkjc_scraper/main.py:178-182 | a details dict laid over an entry always validates; its runs, injuries, profile and every basic-info field win, and every other field keeps the entry's value |
| HorseDetail.DetailsMerge | hkjc_scraper/main.py:174-182 | merging a page's details into an entry gives the page's runs, injuries and profile, the URL's ID when there is one, the page's international rating over the race card's when one is found, and the entry's other fields |
| Crawl.ProcessEntry | hkjc_scraper/main.py:166-202 | one turn of the loop: skip, fetch, merge, store and checkpoint as the source does; its specification is `Crawl.StepOf` |
| Crawl.CrawlEntries | hkjc_scraper/main.py:165-202 | the loop returns the records, checkpoints and interruption of the specification; its specification is `Crawl.CrawlFrom` |
| Crawl.RebuildEntries | hkjc_scraper/main.py:148-152 | the loop rebuilds the entries from the loaded records; its specification is `Crawl.ResumeFrom` |
| Crawl.RunScraper | hkjc_scraper/main.py:78-227 | the method ends the way `main` does; its specification is `Crawl.Scrape` |
| Crawl.StepShape | hkjc_scraper/main.py:166-188 | a turn adds at most one record, only at the end, changes no other record, and changes nothing for a horse already done |
| Crawl.StepChangesOnFetch | hkjc_scraper/main.py:174-188 | the records change only when the entry has a URL, its page is fetched and the merge validates; then the merged record is stored at its position |
| Crawl.StoreWellFormed | hkjc_scraper/main.py:185-188 | storing a well-formed record keeps the records well-formed |
| Crawl.StepWellFormed | hkjc_scraper/main.py:166-202 | a turn keeps the records well-formed |
| Crawl.CheckpointCadence | hkjc_scraper/main.py:193-194 | a checkpoint is written exactly when a path is set, the entry was processed without error and i+1 is a multiple of a non-zero interval; a turn is interrupted exactly on an interrupt during the fetch |
| Crawl.CrawlLength | hkjc_scraper/main.py:165-202 | the loop adds at most one record per entry and removes none |
| Crawl.CrawlStops | hkjc_scraper/main.py:214-219 | an interrupt ends the loop with the records of that moment |
| Crawl.CrawlGoesOn | hkjc_scraper/main.py:165-202 | otherwise the loop goes on with the next entry |
| Crawl.StepSavesWithPath | hkjc_scraper/main.py:193 | no checkpoint without a path |
| Crawl.CrawlSaves | hkjc_scraper/main.py:193-194 | checkpoints only accumulate, and none is written without a path |
| Crawl.CrawlKeeps | hkjc_scraper/main.py:168-188 | the loop never shortens the records, and keeps those it has passed and those already done |
| Crawl.CrawlWellFormed | hkjc_scraper/main.py:165-202 | the records and every checkpoint stay well-formed |
| Crawl.ResumeStep | hkjc_scraper/main.py:149-152 | each loaded record becomes an entry with `detail_url` "" |
| Crawl.Unlinked | hkjc_scraper/main.py:148-152 | one entry per record, holding it, with no URL |
| Crawl.ResumeFromSpec | hkjc_scraper/main.py:148-152 | well-formed records are all rebuilt, in order, without URLs |
| Crawl.CrawlWithoutUrls | hkjc_scraper/main.py:174 | entries without a URL change no record and are never interrupted |
| Crawl.LoadedWellFormed | hkjc_scraper/main.py:124-127 | loaded records are well-formed |
| Crawl.ResumedEntriesHaveNoUrl | hkjc_scraper/main.py:148-152 | a resumed run's entries have no URL |
| Crawl.ResumeFetchesNothing | hkjc_scraper/main.py:141-206 | a run resumed from a checkpoint fetches nothing and writes the loaded records unchanged, with status 0 |
| Crawl.CrawlIgnoresSaves | hkjc_scraper/main.py:165-202 | the records and the interruption do not depend on the checkpoints written |
| Crawl.NoUrlPassesOn | hkjc_scraper/main.py:174 | an entry without a URL is passed over |
| Crawl.FetchedStep | hkjc_scraper/main.py:174-188 | a fetched page whose merge validates stores the merged record, without interruption |
| Crawl.SecondEntryStored | hkjc_scraper/main.py:185-188 | a record for entry 1 with no records so far is appended at position 0 |
| Crawl.FreshRunShifts | hkjc_scraper/main.py:185-188 | when entry 0 has no URL, entry 1's record lands at position 0 |
| Crawl.FinishExit | hkjc_scraper/main.py:155-206 | the loop and the final save end properly: status 0 with output, or 1 with a last checkpoint when a path is set |
| Crawl.ScrapeExit | hkjc_scraper/main.py:78-227 | every run past the gate ends properly |
| Crawl.ExitSpec | hkjc_scraper/main.py:33-227 | status 0 with output, or 1 or 2 without; status 2 exactly when click refuses `--course` or `--raceno`; other invalid arguments exit 1; neither writes anything; a failed run with a path leaves a checkpoint; every checkpoint loads back to the records it holds |
| Crawl.CourseChoice | hkjc_scraper/main.py:40-45 | click accepts a course exactly when `validate_course` would, and hands `main` HV or ST |
| Crawl.CourseGatePasses | hkjc_scraper/main.py:104-106 | after click, the course check of `main` always passes, so only the date and the race number can fail the gate |

## Left out

- Playwright and the browser: navigation, waits, clicks and selector queries are left out. A page is the value of what the queries would find.
- File and JSON I/O: the checkpoint file is the list of dicts it holds. A missing or unreadable file is an absent value, and `save_final_output` is the output value.
- Logging and the Rich console output are left out.
- Floating-point values are left out: a float's `str()` is carried as opaque text.
- Unicode classes: `\s` and `strip()` use Python's whitespace set. `\w` is approximated by ASCII letters and digits, '_' and the CJK block U+4E00-U+9FFF.
- `str.upper()` is modelled only for the characters that can form HV or ST.
- Regular expressions are hand-written scanners for the patterns the core uses, not a regex engine.
- `_find_international_rating` (horse_detail.py:129-157): the four selector queries are left out. Each is given by the inner text of the element it would find, or None (`HorseDetail.DetailPage`).
- ScrapePastRunsFromMainPage: states the past runs with the page-text fallback as intended. As written, the fallback never yields a record, because `page.inner_text()` at horse_detail.py:308 always raises (see Findings).
- ParsePastRunsFromText: returns records for a page text that was read. As written no text is ever read, so the program always takes its [] branch.
- FallbackSpec: describes the intended fallback. What the program as written does is stated by `HorseDetail.PastRunsAsWritten` and `HorseDetail.FallbackDiscrepancy`.
- Strings.IsDigit and Strings.AllDigits accept only ASCII '0'-'9'. Python's `\d` in str patterns, `int()` and `str.isdigit()` also accept the other Unicode decimal digits, such as '２' or '١'. So strptime's year and day digits, the horse-ID patterns, the rating and `race: position` patterns and the continuation-row date test (horse_detail.py:490) accept texts that the model rejects.
- The text=/xpath half of the profile scraper (horse_detail.py:360-391) is left out: it depends on the rendered page layout.
- The tab scrapers (horse_detail.py:567-731), `click_tab_safe`, `wait_for_tab_content` and `find_table_in_content` are left out. They drive the browser, and the core never calls the tab scrapers.
- `random_delay` and the sleeps: the sleeps of the retry wrapper are recorded as a list, and the others are left out.
- Crawl.ProcessEntry: a page fetch, with its retry wrapper, is an oracle that returns the details dict, an exception or a KeyboardInterrupt.
- Crawl.RunScraper: a KeyboardInterrupt is modelled only while the race card or a horse page is being fetched.
- `get_config` reads the environment: the configuration is passed in as values. The `--max-retries` option has no effect because the retry wrapper reads `get_config()` again.
- `--headful`, the `--out` path and the log level are left out, because they do not change the records.
- click's other usage errors are left out: a missing required option or an unknown option also exits 2 before `main` runs. `Crawl.Args` holds the `--raceno` value as the integer click reads, or None where it cannot read one. The text-to-integer conversion itself is not modelled.
- Crawl.CourseChoice compares upper-cased texts (`Validate.Upper`). click compares case-folded texts, and for the characters that can spell HV or ST the two comparisons agree.
- app.py, run_scraper.py, start_flask.py and the end-to-end tests are not part of this model.

## Findings

| source | as written | input that shows it | evidently intended | confidence | as-written member | corrected member |
|---|---|---|---|---|---|---|
| hkjc_scraper/horse_detail.py:308 | `page.inner_text()` is called without a selector. Playwright's `Page.inner_text` requires one, so the call raises on every page, the handler at :346 returns [], and the page-text fallback never yields a record | a detail page with no race table whose text holds "843: 06": the stored 往績紀錄 is [] | read the whole page text (for example `page.inner_text("body")`) and take the positions of the last six `race: position` pairs, here one record with position 06 | not executed; high, because the required selector parameter is part of Playwright's documented signature | HorseDetail.PastRunsAsWritten, HorseDetail.FallbackDiscrepancy | HorseDetail.FallbackSpec |
