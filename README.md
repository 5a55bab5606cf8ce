# Nessus report core, in Dafny

A model of the computational core of a small set of Python scripts. The
scripts turn a decoded Nessus scan (`NessusClientData_v2`) into an HTML
dashboard, and they share one core:

- **Reclassification.** Every finding (`ReportItem`) of every host gets
  its `risk_factor` rewritten in place. "None" becomes the informational
  label: "Info" in pyness3.py and py_nessJson.py, "I" in py_nessus.py. A
  CVSS v3 base score above 8.9 then forces "Critical".
- **Per-host counting.** A `Host` object counts its findings per label
  (Critical, High, Medium, Low, Info) and keeps their total.
- **Scan structures.** A `Report` object holds the hosts in input order.
- **Aggregation.**
  - the scan totals (`getall_findingTotals`);
  - the severity-ordered finding list of a host (`sort_vlun_list`);
  - the host list of the grid (`uniq_hosts_from_report`).
- **The dashboard grid (`build_table_items`).** One `<td>` cell per host,
  classed by its most severe non-empty counter, cut into `<tr>` rows of
  `column_length` cells.
- **The pie chart (`draw_pieChart`, pyness3.py and genSVG.py).**
  - Sums the `int()` of every value of a stats dictionary.
  - Turns the five severity counts into sweeps in degrees
    (`getPercent`).
  - Overwrites those five entries with their sweeps.
  - Lays out one sector per dictionary key, in insertion order, each
    starting where the previous one ended and coloured by
    `getColorforvuln`.
- **Strings.**
  - `cleanString` escapes angle brackets and turns "`n" into `<br />`;
  - the per-host file name replaces '.' and '-' by '_';
  - `slugify` (ASCII mode) produces the report directory name.

Modules:

- `Common`: `Option`, `Result` and string joining.
- `Severity`: labels, levels and the reclassification rule.
  - `RewriteRiskFactors` and `CollectHostFindings` rewrite an `array` of
    records in place, as the scripts mutate the decoded dictionaries.
- `Text`: `str.replace`, `cleanString`, the host file name and `slugify`.
- `Hosts`:
  - the `Tally` of five counters;
  - the `Host` class, whose constructor runs the counting loop over its
    fields;
  - the `Report` class with `add_report`;
  - `sort_vlun_list`, `getall_findingTotals` and `uniq_hosts_from_report`;
  - the two drivers that build a `Report` from decoded hosts (`parse_reports` of
    pyness3.py and the module-level loop of py_nessJson.py).
- `Table`: `build_table_items`.
- `Pie`:
  - the palettes, `getPercent` and `int()`;
  - the stats dictionary as a class (`Stats`), whose `Set` keeps Python's
    insertion order;
  - `draw_pieChart` as a method proved against the specification
    functions `AfterDraw` (the dictionary afterwards) and `DrawOutcome`
    (the sectors, or the exception it raises);
  - the three call sites.

Exceptions the source raises are modelled as `Err` values of a `Result`:

- the `[0]` of an empty `host-ip`/`HOST_START`/`HOST_END` list is an
  `IndexError` (`ParseError`);
- a missing dictionary key is a `KeyError` (`KeyMissing`);
- `num / 0` is a `ZeroDivisionError` (`DivisionByZero`);
- unpacking `None` from `getColorforvuln` is a `TypeError` (`NoColour`);
- `range(0, n, 0)` is a `ValueError` (`ZeroColumnLength`).

Each of these errors is raised at the same point, in the same order, as
in the code. Errors the model has no input for (a record without
`risk_factor` or `plugin_name`) are listed under "Left out".

Behaviour of the code a reader may not expect:

- Unknown risk labels are not an error. They pass through
  reclassification unchanged and are not counted. `Hosts.TallyTotalBound`
  states exactly when the total equals the number of findings.
- `uniq_hosts_from_report` compares an address and a host name with a
  list of `Host` objects, so its test is always true and every host is
  kept. `Hosts.UniqueHosts` returns the host list unchanged.
- A negative `column_length` is not an error. The range is empty and the
  grid is the empty string. Only zero raises.
- Sectors are laid out in the dictionary's insertion order, not in a
  fixed order. Both callers insert the five keys in the order critical,
  high, medium, low, info, and the lemmas about the full pie are stated
  for that order.
- A zero total raises (`DivisionByZero`). Nothing upstream prevents it.

## Model

| member | source | states |
|---|---|---|
| Severity.LevelLabelRoundTrip | pyness3.py:186-196 | the five labels the counters compare against and the five levels correspond one to one, both ways |
| Severity.RankOf | pyness3.py:244-262 | the sort key of `sort_vlun_list`: -1 exactly for labels outside the five, else the level's rank; the band order is stated by Severity.RankOrder, and its use as the key by Hosts.SortVulnListOrdered and Hosts.SortVulnListUnique |
| Severity.RankOrder | pyness3.py:244-262 | the bands come Critical, High, Medium, Low, Info, with every unknown label ranked below Info |
| Severity.Score | pyness3.py:411-412 | the score the rule reads: the CVSS v3 base score, or 0 when the record has none; its use is stated by Severity.NoOverrideKeepsLabel |
| Severity.Reclassify | pyness3.py:414-421 | the label rule: "None" becomes the informational label, then a score above 8.9 forces "Critical"; its properties are Severity.OverrideWins, Severity.NoOverrideKeepsLabel, Severity.ReclassifyIdempotent and Severity.ReclassifyMatchesLevels |
| Severity.Reclassified | pyness3.py:409-421 | rewriting a record changes only its `risk_factor`; plugin name and score are untouched |
| Severity.OverrideWins | pyness3.py:419-421 | any score above 8.9 makes the label "Critical", whatever it was |
| Severity.NoOverrideKeepsLabel | pyness3.py:411-417 | without a score above 8.9 (a missing score counts as 0), "None" becomes the informational label and any other label is kept verbatim |
| Severity.ReclassifyIdempotent | pyness3.py:411-421 | applying the rule twice gives the same label as applying it once |
| Severity.ReclassifyMatchesLevels | pyness3.py:411-421 | on the five raw Nessus labels the string rule agrees with the level rule ("None" is Info, a score above 8.9 is Critical) and always yields a known label |
| Severity.ShortInfoIsNotDisplayLabel | py_nessus.py:36-44 | in py_nessus.py a "None" finding with a low score becomes "I", which is none of the five labels the counters recognise |
| Severity.RewriteRiskFactors | py_nessus.py:29-44 | the loop rewrites every record of the array in place with the "I" rule; no record is added, removed or reordered |
| Severity.CollectHostFindings | pyness3.py:409-424 | the loop rewrites every record in place with the "Info" rule and `listofVulns` ends as exactly the rewritten records in input order |
| Text.Replace | pyness3.py:345-347 | `str.replace`: every non-overlapping occurrence of the pattern, scanned left to right, is replaced; stated by Text.ReplaceAbsent, Text.ReplaceOneChar and Text.ReplaceChars |
| Text.CleanString | pyness3.py:344-348 | `cleanString`: '<' to "LT", then '>' to "GT", then "`n" to `<br />`; stated by Text.CleanStringEscapes and Text.CleanStringIdentity |
| Text.ReplaceAbsent | pyness3.py:344-348 | `str.replace` leaves a string without an occurrence of the pattern unchanged |
| Text.ReplaceOneChar | pyness3.py:345-346 | replacing one character by one character keeps the length and maps each position independently |
| Text.ReplaceChars | pyness3.py:344-348 | the result of a replacement only holds characters of the input or of the replacement; a one-character pattern not in the replacement is gone afterwards |
| Text.BreaksAreOnlyMarkup | pyness3.py:347 | turning "`n" into `<br />` in a bracket-free string introduces no angle bracket outside the inserted breaks |
| Text.CleanStringEscapes | pyness3.py:344-348 | after `cleanString` every `<` or `>` belongs to a `<br />` it inserted: the input can inject no other markup |
| Text.CleanStringIdentity | py_nessJson.py:195-199 | a string with no angle bracket and no "`n" is returned unchanged |
| Text.HostFileName | pyness3.py:323 | the file name is the host name with every '.' and '-' replaced by '_', followed by ".html", and contains neither character before the suffix |
| Text.Lower | pyness3.py:39 | lower-casing leaves no upper-case letter, turns each upper-case letter into its lower-case partner and leaves every other character unchanged, keeping the length |
| Text.KeepWordSpaceDash | pyness3.py:39 | dropping `[^\w\s-]` keeps a character exactly when it is a word character, whitespace or a dash: every kept character comes from the input and every such input character is kept; an input made only of such characters is returned unchanged |
| Text.SkipRun | pyness3.py:40 | the skipped prefix is made only of dashes and whitespace, and what remains does not start with either: the whole leading run is skipped |
| Text.KeepWordSpaceDashAppend | pyness3.py:39 | the filter works character by character, so filtering a concatenation is filtering each part: kept characters keep their order |
| Text.CollapseRuns | pyness3.py:40 | `re.sub(r'[-\s]+', '-', value)`: each maximal run of dashes and whitespace becomes one dash; stated by Text.CollapseRunsRun, Text.CollapseRunsWord, Text.CollapseRunsChars, Text.CollapseRunsNoDoubleDash and Text.CollapseRunsAlnum |
| Text.SkipRunPrefix | pyness3.py:40 | the `+` of `[-\s]+` is greedy: a whole run of dashes and whitespace is consumed up to the first character outside it |
| Text.CollapseRunsRun | pyness3.py:40 | one maximal run of dashes and whitespace, of any length and mix, is replaced by exactly one dash, and the rest is collapsed on its own |
| Text.CollapseRunsWord | pyness3.py:40 | characters that are neither dashes nor whitespace are copied unchanged and in order |
| Text.CollapseRunsChars | pyness3.py:40 | collapsing `[-\s]+` to '-' leaves only lower-case word characters and dashes |
| Text.CollapseRunsNoDoubleDash | pyness3.py:40 | after collapsing, no two dashes are adjacent |
| Text.StripLeft | pyness3.py:40 | `strip('-_')` on the left removes a prefix made only of '-' and '_' and leaves a suffix not starting with either |
| Text.StripRight | pyness3.py:40 | `strip('-_')` on the right removes a suffix made only of '-' and '_' and leaves a prefix not ending with either |
| Text.Strip | pyness3.py:40 | `strip('-_')`: both ends stripped; stated by Text.StripLeft, Text.StripRight, Text.StripKeepsShape and Text.StripAlnum |
| Text.Slugify | pyness3.py:25-40 | `slugify` on ASCII text: lower-case, filter, collapse runs, strip; stated by Text.SlugifyIsSlug, Text.SlugifyKeepsAlnum, Text.SlugifyJoinsWords and Text.SlugifyIdempotent |
| Text.SlugifyJoinsWords | pyness3.py:25-40 | the docstring's "convert spaces or repeated dashes to single dashes": two words of letters and digits separated by any non-empty run of spaces and dashes slugify to the two words joined by one dash |
| Text.StripKeepsShape | pyness3.py:40 | stripping a collapsed string yields a slug |
| Text.SlugifyIsSlug | pyness3.py:25-40 | every ASCII input yields a slug: lower-case letters, digits, '_' and single dashes, with no '-' or '_' at either end |
| Text.KeepSlugUnchanged | pyness3.py:39 | the character filter keeps a string made of slug characters unchanged |
| Text.CollapseSlugUnchanged | pyness3.py:40 | collapsing keeps a string of slug characters with no double dash unchanged |
| Text.LowerSlugUnchanged | pyness3.py:39 | lower-casing keeps a string of slug characters unchanged |
| Text.SlugFixedPoint | pyness3.py:25-40 | `slugify` returns a slug unchanged |
| Text.SlugifyIdempotent | pyness3.py:25-40 | `slugify(slugify(v)) == slugify(v)` for every ASCII input |
| Text.KeepWordSpaceDashAlnum | pyness3.py:39 | the character filter keeps every letter and digit, in order |
| Text.CollapseRunsAlnum | pyness3.py:40 | collapsing runs keeps every letter and digit, in order |
| Text.StripAlnum | pyness3.py:40 | stripping '-' and '_' removes no letter or digit |
| Text.SlugifyKeepsAlnum | pyness3.py:25-40 | the letters and digits of the slug are exactly those of the lower-cased input, in order: no letter or digit is dropped or added. Underscores are outside this lemma: inner ones are kept (a slug such as "a_b" is returned unchanged, Text.SlugFixedPoint) and only leading and trailing ones are stripped |
| Hosts.PlusZero | pyness3.py:480-491 | the all-zero tally the totals start from is neutral for adding a host's counters |
| Hosts.PlusAssoc | pyness3.py:486-491 | adding counters is associative |
| Hosts.PlusComm | pyness3.py:486-491 | adding counters is commutative |
| Hosts.Count | pyness3.py:184-196 | the number of findings with a label is at most the number of findings |
| Hosts.TallyOf | pyness3.py:184-198 | the five counters of a list of findings, one per label; stated by Hosts.TallyOfSnoc, Hosts.TallyTotalBound and the `Host` constructor |
| Hosts.TallyOfSnoc | pyness3.py:184-198 | one more finding adds one to the counter of its label and to nothing else |
| Hosts.UnitTotal | pyness3.py:186-198 | a finding adds one to the total exactly when its label is one of the five |
| Hosts.CountAppend | pyness3.py:184-196 | the count of a label over two lists of findings is the sum of the counts |
| Hosts.TallyTotalBound | pyness3.py:184-198 | a host's total never exceeds its number of findings, and equals it exactly when every label is one of the five |
| Hosts.Host.constructor | pyness3.py:179-198 | `Host.__init__`: each counter equals the number of findings with its label, and the total is their sum; name and findings are kept, no address or file path yet |
| Hosts.Host.CountFinding | pyness3.py:186-198 | one pass of the counting loop bumps exactly the counter whose label matches (none for other labels), then refreshes the total, and changes nothing else |
| Hosts.NewHost | pyness3.py:219-221 | `add_report`'s new host is counted from its findings and carries the given address |
| Hosts.Report.constructor | pyness3.py:213-214 | a new report holds no hosts |
| Hosts.Report.HostCount | pyness3.py:216-217 | `host_count`: the number of hosts; Hosts.Report.AddReport states that each call adds one |
| Hosts.Report.AddReport | pyness3.py:219-223 | `add_report` appends one fresh, counted host with the given name, findings and address; the earlier hosts are kept |
| Hosts.Report.Append | pyness3.py:223 | `hosts.append` adds the host at the end and keeps the others |
| Hosts.Report.AddReportWithoutAddress | py_nessJson.py:66-69 | py_nessJson.py's `add_report` appends one fresh counted host with no address |
| Hosts.TotalsAfterAppend | pyness3.py:486-491 | appending a host adds its counters to the scan totals |
| Hosts.TallySum | pyness3.py:486-491 | the counters summed over a list of hosts; stated by Hosts.TallySumAppend, Hosts.TallySumPermutation and Hosts.GetAllFindingTotals |
| Hosts.GetAllFindingTotals | pyness3.py:479-500 | each scan total is the sum, over all hosts, of that host's counter |
| Hosts.TallySumAppend | pyness3.py:486-491 | the totals of two host lists put together are the sum of their totals |
| Hosts.TallySumPermutation | pyness3.py:486-491 | the scan totals do not depend on the order of the hosts |
| Hosts.BandShape | pyness3.py:246-256 | each comprehension keeps exactly the findings with its label: as many as the counter, all with that label |
| Hosts.SortVulnList | pyness3.py:244-262 | `sort_vlun_list`: the five label comprehensions concatenated, Critical first; pinned down by Hosts.SortVulnListOrdered, Hosts.SortVulnListStable and Hosts.SortVulnListUnique |
| Hosts.SortVulnListLength | pyness3.py:244-262 | the sorted list is as long as the host's total: findings with other labels are dropped |
| Hosts.SortVulnListOrdered | pyness3.py:244-262 | the sorted list holds only known labels, most severe first |
| Hosts.SortVulnListBands | pyness3.py:256-261 | the findings of each label in the sorted list come from the five concatenated comprehensions |
| Hosts.SortVulnListStable | pyness3.py:246-261 | for every level, the findings of that level keep their relative input order: the sort is stable |
| Hosts.SortVulnListDropsUnknown | pyness3.py:246-256 | no finding with a label outside the five survives |
| Hosts.SortedLengthIsTotal | pyness3.py:204-205 | the sorted list of a host is as long as `getTotal()` |
| Hosts.BandsOfSorted | pyness3.py:244-262 | a list already in display order is returned unchanged (so sorting is idempotent) |
| Hosts.SortVulnListUnique | pyness3.py:244-262 | the sorted list is the only ordered list of known labels that keeps every level's findings in input order |
| Hosts.UniqueHosts | pyness3.py:505-512 | the loop keeps every host, in order, because its membership test is always true |
| Hosts.FirstTag | pyness3.py:396-397 | the text of the first tag with a name, or none; stated by Hosts.FirstTagFinds |
| Hosts.HostProperties | pyness3.py:396-403 | the three property lookups in order, failing at the first missing one; stated by Hosts.HostPropertiesSpec |
| Hosts.FirstTagFinds | pyness3.py:396-403 | `[x['#text'] for x in tags if x['@name'] == n][0]` is the text of the first tag so named, and fails exactly when no tag has the name |
| Hosts.HostPropertiesSpec | pyness3.py:396-403 | reading the host properties succeeds exactly when `host-ip`, `HOST_START` and `HOST_END` are all present; the result is the address; a failure names the first missing one in that order |
| Hosts.FirstBadHost | pyness3.py:393-403 | the index of the first host whose properties cannot be read is within the list |
| Hosts.FirstBadHostSpec | pyness3.py:393-403 | every host before that index has readable properties and the host at it does not |
| Hosts.ParseHost | pyness3.py:404-425 | one pass of the host loop rewrites the host's findings in place and appends a host counted from them with its address |
| Hosts.ParseNext | pyness3.py:393-425 | one pass of the loop keeps the loop invariant: hosts so far parsed and appended, their findings rewritten, later findings untouched |
| Hosts.ParseReports | pyness3.py:390-426 | `parse_reports` fails exactly at the first host with missing properties (its findings untouched, earlier ones rewritten); otherwise it returns one counted host per input host, in order, with rewritten findings and its `host-ip` |
| Hosts.LoadHost | py_nessJson.py:90-115 | one pass of py_nessJson.py's loop rewrites the findings in place and appends a host counted from them |
| Hosts.LoadNext | py_nessJson.py:82-117 | one pass keeps the loop invariant of the py_nessJson.py loop |
| Hosts.LoadReports | py_nessJson.py:81-117 | the py_nessJson.py loop rewrites every host's findings and builds one counted host per input host, in order, with no address |
| Table.CellClassDominant | pyness3.py:548-567 | a host gets the class of a level other than Info exactly when that counter is non-zero and every more severe counter is zero |
| Table.CellClassFallback | pyness3.py:563-567 | a host is "infobg" exactly when its critical, high, medium and low counters are all zero (the info counter is never consulted) |
| Table.CellClassMonotone | pyness3.py:548-567 | more findings never lower a host's cell class |
| Table.CellClass | pyness3.py:548-567 | the `if ... continue` chain choosing a cell's class; stated by Table.CellClassDominant, Table.CellClassFallback and Table.CellClassMonotone |
| Table.CellsOf | pyness3.py:537-567 | one cell per host; stated by Table.CellsOfSpec |
| Table.CellsOfSpec | pyness3.py:537-567 | the cells are one per host, in host order |
| Table.Chunks | pyness3.py:594-597 | the slices `cells[i:i+k]` for `i` in `range(0, n, k)`; stated by Table.ChunksFlatten and Table.ChunksShape |
| Table.ChunksFlatten | pyness3.py:594-597 | the slices `allTds[i:i+k]` over `range(0, n, k)` put back together give all cells, in order |
| Table.ChunksShape | pyness3.py:594-597 | there are ceil(n/k) slices, each non-empty and at most k long, all but the last exactly k long |
| Table.Rows | pyness3.py:598-600 | one `<tr>` per slice, in order |
| Table.JoinEachSpec | pyness3.py:596 | each slice is joined into one string, one per slice |
| Table.ChunkCells | pyness3.py:594-597 | the slicing loop yields the joined slices of `range(0, n, k)` |
| Table.WrapRows | pyness3.py:598-600 | the wrapping loop wraps every joined slice in `<tr>`, in order |
| Table.TableHtml | pyness3.py:594-602 | the grid for given cells: an error for column length 0, "" for a negative one, else the joined rows; Table.BuildTableItems is proved against it |
| Table.BuildTableItems | pyness3.py:526-602 | `build_table_items` returns the rows of the hosts' cells: an error for column length 0, the empty string for a negative one |
| Pie.ColourFor | pyness3.py:58-75 | exactly the five keys have a colour, each with alpha 1 and channels within 0..255; any other key gets none |
| Pie.ColoursDistinct | genSVG.py:47-63 | in each palette the five keys have pairwise different colours |
| Pie.Trunc | pyness3.py:115 | `int()` truncates toward zero |
| Pie.Percent | pyness3.py:43-44 | `getPercent` raises exactly when the total is 0; otherwise the sweep times the total is the count times 360 |
| Pie.Stats.constructor | pyness3.py:493-499 | a dictionary display holds its keys in the order written, with their values |
| Pie.Stats.Set | pyness3.py:130-134 | `stats[k] = v` maps `k` to `v`, keeps an existing key where it was and appends a new one |
| Pie.CountTotal | pyness3.py:113-115 | the sum of the truncated values of the keys; Pie.SumCounts is proved against it and Pie.CountTotalFive evaluates it |
| Pie.SweepOf | pyness3.py:118-122 | one `getPercent(int(stats[name]), total)` call: `KeyError` for a missing name, else `getPercent`'s outcome; stated through Pie.SweepsOutcome |
| Pie.Sweeps | pyness3.py:118-122 | the five sweeps, when computed, are one per name and every name was present |
| Pie.FirstMissing | pyness3.py:118-122 | the first of the five names absent from the dictionary, the one whose `KeyError` is raised |
| Pie.Proportional | pyness3.py:118-122 | one sweep per name |
| Pie.ProportionalShares | pyness3.py:118-122 | each sweep times the total is the truncated count times 360, and a zero count gives a zero sweep |
| Pie.SweepsOutcome | pyness3.py:118-122 | computing the five sweeps raises `KeyError` for a missing "critical" first, then `ZeroDivisionError` for a zero total, then `KeyError` for the next missing name; otherwise it yields the proportional sweeps |
| Pie.Overwrite | pyness3.py:130-134 | the dictionary after the five assignments; stated by Pie.OverwriteFive |
| Pie.Layout | pyness3.py:150-157 | the sector loop's outcome; stated by Pie.SectorsSpan, Pie.SectorsContiguous, Pie.LayoutOkIffFiveNames and Pie.FullPie |
| Pie.AfterDraw | pyness3.py:111-134 | the dictionary after `draw_pieChart`: untouched if computing the sweeps raised, else overwritten; Pie.DrawPieChart is proved against it |
| Pie.DrawOutcome | pyness3.py:111-157 | what `draw_pieChart` yields: the first exception, or the sectors; Pie.DrawPieChart is proved against it and Pie.DrawFiveKeys, Pie.MissingCriticalFailsFirst, Pie.ZeroTotalFails and Pie.UnknownKeyFailsAfterOverwrite describe it |
| Pie.FirstUncoloured | pyness3.py:150-157 | the first key the loop cannot colour, every earlier key having a colour |
| Pie.DrawPieChart | pyness3.py:111-163 | `draw_pieChart` keeps the dictionary's keys, leaves its entries as `AfterDraw` says (overwritten only once all five sweeps were computed) and returns the sectors or the first exception as `DrawOutcome` says |
| Pie.SumCounts | pyness3.py:113-115 | the first loop sums the truncated value of every entry |
| Pie.FiveSweeps | pyness3.py:118-122 | the five `getPercent` calls yield the sweeps, or the first exception they raise |
| Pie.LayOut | pyness3.py:150-157 | the sector loop yields one sector per key in insertion order, or fails at the first key without a colour |
| Pie.SectorsSpan | pyness3.py:150-157 | each sector carries its key and colour and spans exactly its sweep from the sum of the earlier sweeps |
| Pie.SectorsContiguous | pyness3.py:150-157 | the sectors leave no gap and no overlap: the first starts at 0, each starts where the previous ends, the last ends at the sum of the sweeps |
| Pie.PrefixSectorsAbut | pyness3.py:150-157 | sectors starting at the running sum of the sweeps abut and end at the total |
| Pie.LayoutOkIffFiveNames | pyness3.py:150-157 | the sector loop completes exactly when every key is one of the five coloured names |
| Pie.CountTotalFive | pyness3.py:113-115 | over the five keys the total is the sum of the five truncated counts |
| Pie.SharesSumTo360 | pyness3.py:118-124 | five shares `c / total * 360` of a non-zero total sum to 360 |
| Pie.FiveSweepsOk | pyness3.py:113-124 | with all five keys and a non-zero total, the five sweeps are computed and sum to 360 |
| Pie.OverwriteFive | pyness3.py:130-134 | after the five assignments each key holds its sweep |
| Pie.DrawFiveKeys | pyness3.py:111-157 | for a dictionary of the five keys with a non-zero total, the sweeps sum to 360, each entry is overwritten by its sweep and the sectors are laid out from them |
| Pie.FullPie | pyness3.py:150-157 | five sweeps summing to 360 lay out the whole circle: from 0 to 360, contiguous, each key with its colour and sweep, a zero sweep giving an empty sector |
| Pie.MissingCriticalFailsFirst | pyness3.py:118 | without "critical" the call raises `KeyError('critical')` and leaves the dictionary untouched |
| Pie.ZeroTotalFails | pyness3.py:113-118 | with a zero total the call raises `ZeroDivisionError` and leaves the dictionary untouched |
| Pie.UnknownKeyFailsAfterOverwrite | pyness3.py:130-157 | a key other than the five is only detected in the sector loop, after the five entries were already overwritten |
| Pie.DriverSweeps | genSVG.py:101-124 | on genSVG.py's sample {6, 2, 3, 6, 1} the total is 18, the sweeps are 120, 40, 60, 120 and 20 degrees and the entries are overwritten with them |
| Pie.DriverPie | genSVG.py:153-156 | genSVG.py's sample call lays out its sectors from those sweeps |
| Pie.DriverSectors | genSVG.py:140-147 | those sweeps give the sectors 0-120, 120-160, 160-220, 220-340 and 340-360 in genSVG.py's colours |
| Pie.TallyValuesKeys | pyness3.py:493-499 | the counts dictionary has exactly the five keys, each once |
| Pie.TallyValuesLookup | pyness3.py:493-499 | each key of the counts dictionary holds its counter |
| Pie.TallyPie | pyness3.py:111-134 | for a counts dictionary the total is the sum of the counters; a zero total raises; otherwise the sweeps sum to 360, each is its counter over the total times 360, and the sectors are laid out from them |
| Pie.AsWrittenHostPieTally | pyness3.py:315-316 | the counters the per-host pie is drawn from as written, with the total in the info slot; stated by Pie.AsWrittenHostPieInfoAtLeastHalf and Pie.AsWrittenHostPieSingleCritical |
| Pie.AsWrittenHostPieInfoAtLeastHalf | pyness3.py:315-316 | as written, the per-host pie's total counts every finding twice except the info ones, and the info slice always covers at least half of the circle |
| Pie.AsWrittenHostPieSingleCritical | pyness3.py:315-316 | as written, a host with one critical finding gets a pie half critical and half info |
| Pie.HostPieSingleCritical | pyness3.py:315-316 | with the info counter in the info slot, a host with one critical finding gets an all-critical pie |
| Pie.PieOfCounts | pyness3.py:315-317 | the pie of five counters drawn with pyness3.py's colours; Pie.CountsPie, Pie.HostPie and Pie.DashboardPie are proved against it and Pie.TallyPie describes it |
| Pie.CountsPie | pyness3.py:315-317 | building the five-key dictionary from counters and drawing it yields the pie of those counters |
| Pie.HostPie | pyness3.py:315-317 | the per-host pie, with the info counter in the info slot, is the pie of the host's counters |
| Pie.DashboardPie | pyness3.py:615-649 | the dashboard pie is the pie of the scan totals summed over all hosts |

## Left out

- Decoding the XML/JSON input (`xmltodict`, `json.load`) and file I/O: the
  drivers take already decoded hosts (`ReportHost`: name, properties, an
  array of findings).
- Float parsing of `cvss3_base_score`: scores are given as reals; a missing
  score is 0, as in the scripts.
- Floating-point rounding: reals are exact, so "sums to 360" holds exactly
  where the scripts would be off by rounding.
- cairo drawing (`draw_segment`, `path_ellipse`, the SVG surface and the
  temporary `test.svg`): sectors are modelled as (key, start, end, colour)
  in degrees; the radian conversion and `convertRGBColor`'s division by 255
  are left out, and colours keep their 0..255 channels.
- Page templating (`build_dashboard_page`, `create_vulnbyHost`,
  `replace_value_in_file`, `build_AccordionItem`, `get_vuln_synopsis`):
  string substitution into HTML templates read from disk. Only the pie
  call, the file name and `cleanString` of these are modelled.
- `print` calls, `print_vuln_stats` and the `total` accumulator of
  `build_table_items`: they only print.
- `get_list_of_totalFindings_object`: never called.
- `loop_hostsTester`: an identical copy of `uniq_hosts_from_report`.
- `datetime_from_utc_to_local` and `main`: clock and command-line handling.
- `HOST_START` and `HOST_END`: only checked for presence, as in the code;
  their values are unused.
- `toJSON`: serialisation.
- Unicode normalisation in `slugify`: the model takes ASCII input, which
  is what the NFKD-then-ASCII step produces.
- Dictionary aliasing: the stats dictionary is a `Stats` object passed by
  reference, but no caller shares it, so sharing is not modelled.
- Stats values are reals. genSVG.py's sample passes strings ("6"); `int()`
  of those is modelled by their numeric value, and the string-valued
  sample is given as the reals 6, 2, 3, 6 and 1.
- Pie.DrawFiveKeys: stated for dictionaries whose keys are the five names
  in the order both callers insert them; other orders are covered only by
  `DrawOutcome`.
- Pie.FullPie: stated for the five names in the callers' order.
- Findings always carry `risk_factor` and `plugin_name`: the `KeyError`
  raised for a record lacking one (pyness3.py:414, py_nessJson.py:100 and
  112, py_nessus.py:36 and 46), after the earlier records of the host were
  already rewritten, is not modelled, and neither is `Host.__init__`
  skipping a record without the key.
- The report file path of a host: `create_vulnbyHost` sets
  `_report_filepath` to `.\host_reports\<file name>` before the dashboard
  is built, so real grid links carry that path. The model's hosts keep no
  path (`None`, shown as "None"), and nothing links that field to
  `Text.HostFileName`.
- Step helpers (`ParseNext`, `LoadNext`, `ParseHost`, `LoadHost`,
  `SumCounts`, `FiveSweeps`, `LayOut`, `ChunkCells`, `WrapRows`) are parts
  of the named operations, split out so that each proof stays small.

## Findings

| source | as written | input that shows it | evidently intended | confidence | as-written member | corrected member |
|---|---|---|---|---|---|---|
| pyness3.py:315-316 | the per-host pie puts `_total_count` under "info" | a host with one Critical finding: its pie is half critical, half info | `_info_count` under "info", giving an all-critical pie | not executed | Pie.AsWrittenHostPieSingleCritical | Pie.HostPie |
