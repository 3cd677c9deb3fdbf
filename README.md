# Music job watcher: the deduplication and row-normalisation core

The watcher polls applicant-tracking systems (Greenhouse, Lever, Workday,
Workable, iCIMS and others) for postings that mention music. It writes every
posting it has not reported before to `music_jobs.csv` and remembers the
postings it has reported in `seen_music.json`. This project models the part
that does not talk to the network:

- **Rows** (`utils.py`). `mk_row` builds a row. `_normalize_url` cuts a URL
  down to scheme, host and path. `job_matches_music` is the whole-word,
  case-insensitive test for "music".
- **The two files** (`utils.py`).
  - `ensure_csv` and `append_csv` write the CSV log. It is modelled as the
    sequence of its records, header included.
  - `load_seen` and `save_seen` read and write the seen file. It is
    modelled as what `json.load` finds in it.
  - Both files are the fields of one class, `Store.Files`.
- **The run loops** (`scraper.py`, `music_scraper.py`). Each `run` visits the
  configured targets in order and calls a fetcher on each. For every row the
  fetcher returns, it builds the identity key `platform::company::job_id::url`.
  A row with an unseen key is marked seen, appended to the CSV log and
  counted. A fetcher that raises skips only its own target. The seen set is
  saved once at the end.
- **Pure fragments of the adapters** (`adapters.py`):
  - the order-keeping dedupe;
  - the Workday site discovery and site trial;
  - the Workable account retry;
  - the posted-timestamp fix-up;
  - the iCIMS job id.

Every HTTP exchange is a parameter of the model:
- A fetcher is a function from a target to `Raised` or to the rows it
  returned.
- Workday's `try_site` and Workable's `try_account` are functions from a
  token to what trying it gave.
- The discovery requests are the lists of strings they found.

The clock reading `normalized_now()` is the parameter `now` of `Rows.MkRow`.
The contents of `companies.yaml` are a parameter of each `Run`, and `None`
stands for a missing file.

Module layout:
- `Text`: `str.strip`, `find` and `replace`, and the character classes.
- `Urls`: `urlparse` and `urlunparse`, and `_normalize_url`.
- `Matcher`: the music test.
- `Rows`: the row, its key, its CSV record.
- `Store`: the two files.
- `Dedup`: the loop over one fetched batch.
- `Runs`: what both runs share.
- `Scraper`: `scraper.py`.
- `MusicScraper`: `music_scraper.py`.
- `Adapters`: the adapter fragments.

## Notes on the code

- **Order of marking and appending.** The code adds a new key to `seen`
  first and then calls `append_csv` (`scraper.py:59-60`, `scraper.py:86-87`,
  `music_scraper.py:212-213`). `Dedup.Admit` follows that order. Nothing
  observable in this model depends on it, because `seen` stays in memory
  until the final save.
- **Key collisions across targets.** Two mapping entries with the same
  `company` on the same platform can produce the same key. The model does
  not assume keys are distinct across targets: the dedup properties hold
  across targets too (`Dedup.AcceptedAppend`, `Runs.CountsAddUp`).

## Model

| member | source | states |
|---|---|---|
| Urls.NormalizeCases | utils.py:16-23 | An empty URL normalises to "". A URL that `urlparse` rejects comes back unchanged. Any other result holds no `?` and no `#`. `urlunparse` is the one of Python 3.12.4 and later. |
| Urls.NormalizeIdempotent | utils.py:16-23 | Normalising a normalised URL changes nothing, for every input string, including the ones `urlparse` rejects. |
| Urls.NormalizeDropsExtras | utils.py:19-21 | For `scheme://netloc/path[;params][?query][#fragment]`, the result is the lower-cased scheme, `://`, the netloc and the path. The `;params`, `?query` and `#fragment` are gone. |
| Urls.ParseIsCanonical | utils.py:20 | The scheme, netloc and path `urlparse` yields are canonical: valid lower-case scheme, netloc free of `/?#`, path free of `?#` and of params. |
| Urls.UnparseThenParse | utils.py:20-21 | `urlunparse` of a canonical scheme, netloc and path, parsed again by `urlparse`, gives back the same three parts with empty params, query and fragment. |
| Urls.Sanitize | utils.py:20 | `urlparse`'s clean-up leaves no tab, CR or LF and no leading control character or space. |
| Matcher.SearchFrom | utils.py:6 | `re.search` from position i finds a match iff the pattern `\bmusic\b` matches at some position at or after i. |
| Matcher.JobMatchesMusic | utils.py:54-55 | True iff `music` occurs, under the regular-expression letter folds, with a word boundary on both sides. None is searched as "". |
| Matcher.EmptyNeverMatches | utils.py:54-55 | None and "" never match. |
| Matcher.MusicDirectorMatches | utils.py:6 | "Music Director" matches. |
| Matcher.MusicallyDoesNotMatch | utils.py:6 | "musically" does not match, because the word goes on after "music". |
| Matcher.LowerDoesNotMatter | utils.py:6 | The test is case-insensitive: lower-casing the text never changes the answer. |
| Matcher.MatchInPart | adapters.py:65 | A match in the title, or in the rest, is a match in the text the fetchers search (the parts joined by line feeds). |
| Rows.CsvHeaders | utils.py:11-14 | The header holds the nine column names in `CSV_HEADERS` order. |
| Rows.ColumnsComplete | utils.py:11-14 | The header order lists every column of a row. |
| Rows.OrElse | utils.py:64-70 | `v or default`: the value when it is truthy, otherwise the default. |
| Rows.MkRow | utils.py:60-71 | Company, platform and the clock reading are kept. A falsy title, location, job id or posted time becomes "", a truthy one is kept. A falsy `matched_on` becomes `title_or_description`. The url is stored normalised, so normalising it again changes nothing. |
| Rows.AsDict | utils.py:61-71 | The dict of a row has every column, each holding the row's value. |
| Rows.Record | utils.py:52 | The record has one field per header column, in header order: `d.get(column, "")`, with the url normalised. |
| Rows.RecordOfDict | utils.py:48-52 | The record of a row's dict lists its nine fields in header order, with the url normalised. |
| Rows.RecordOfRow | utils.py:46-52 | For a row built by `mk_row`, the record holds its fields unchanged, because the url normalised twice is the url normalised once. |
| Store.LessIrreflexive | utils.py:38 | No string sorts before itself in Python's string order. |
| Store.LessTransitive | utils.py:38 | Python's string order is transitive. |
| Store.LessTotal | utils.py:38 | Of two different strings, one sorts before the other. |
| Store.LessAsymmetric | utils.py:38 | Two strings never each sort before the other. |
| Store.SortedList | utils.py:38 | `sorted(list(seen))` is strictly increasing, has exactly the set's elements and has the set's size. |
| Store.Elements | utils.py:31 | `set(data)` holds exactly the elements of the list. |
| Store.SortedUnique | utils.py:38 | Two strictly sorted lists with the same elements are equal. |
| Store.LoadSeen | utils.py:25-34 | `load_seen` gives the keys of the list. It gives the empty set when the file is missing, is not JSON or does not hold a list. |
| Store.SeenContent | utils.py:36-38 | `save_seen` writes a list, and the list is strictly sorted. |
| Store.LoadAfterSave | utils.py:25-38 | Loading what `save_seen` wrote gives back the same set. |
| Store.SaveAfterLoad | utils.py:25-38 | Saving what was loaded from a sorted list writes the same list again. |
| Store.WithHeader | utils.py:40-44 | `ensure_csv` writes the header into an empty or missing file and leaves any other file alone. |
| Store.AppendedTwice | utils.py:46-52 | Appending two batches of records one after the other is appending their concatenation. |
| Store.AppendedToEmpty | utils.py:40-52 | Appending to an empty log gives the header exactly once, at the start, followed by the records. |
| Store.Files.LoadSeenSet | utils.py:25-34 | Reads the seen set from the seen file and changes nothing. |
| Store.Files.SaveSeen | utils.py:36-38 | The seen file now holds the sorted list of keys. The CSV log is unchanged. |
| Store.Files.EnsureCsv | utils.py:40-44 | The CSV log gains the header iff it was empty. The seen file is unchanged. |
| Store.Files.AppendCsv | utils.py:46-52 | The log is the old log, with the header ensured, plus exactly one record of the dict. The seen file is unchanged. The caller's dict is a value and is not altered. |
| Dedup.Accepted | scraper.py:55-62 | The rows a batch appends are at most as many as the batch. |
| Dedup.AcceptedAreNew | scraper.py:57-60 | Every appended row comes from the batch, and its key was not seen before. |
| Dedup.AcceptedDistinct | scraper.py:56-60 | Appended rows have pairwise distinct keys: two rows with the same key in one batch give one append. |
| Dedup.AcceptedKeys | scraper.py:56-60 | The keys of the appended rows are exactly the batch's keys that were not seen before. |
| Dedup.SeenAfter | scraper.py:59 | The seen set only grows. |
| Dedup.AppendIffNew | scraper.py:56-60 | After a batch every key of the batch is seen. A row with an unseen key has its key appended. A row with a seen key is not appended. |
| Dedup.AcceptedAppend | scraper.py:40-90 | Processing two batches in a row is processing their concatenation: the second batch starts from the seen set the first left behind. |
| Dedup.RerunAppendsNothing | scraper.py:56-59 | Running a batch again against the seen set it produced appends nothing. |
| Dedup.Step | scraper.py:55-60 | One more row: its key joins the seen set, and it is appended iff its key was not yet seen. |
| Dedup.Admit | scraper.py:56-60 | A row is appended iff its key is not in `seen`. Afterwards its key is in `seen`. The log gains exactly its record, after the header, or nothing. |
| Dedup.Ingest | scraper.py:54-62 | After the dedup loop over a batch, `seen` holds every key of the batch. The count is the number of appended rows. The log holds their records in order. |
| Runs.RaisedContributesNothing | scraper.py:49-53 | A target whose fetcher raised adds no rows: the run is as if the target were not there. |
| Runs.CountsAddUp | scraper.py:54-64 | The per-target new counts a run reports add up to its total of new rows. |
| Runs.ProgressStart | scraper.py:36-37 | A run starts from the loaded seen set, a total of 0 and no counts. |
| Runs.ProgressRaised | scraper.py:49-53 | A fetcher that raised leaves `seen`, the log, the total and the counts as they were. |
| Runs.ProgressRows | scraper.py:54-64 | The dedup loop over a fetched batch moves the run's state forward by exactly that batch. |
| Runs.FinishedBySave | scraper.py:93 | Saving the seen set once at the end writes the sorted keys of every row fetched. |
| Runs.RunAgainAppendsNothing | scraper.py:36-93 | A second run on the same fetch results, from the seen file the first saved, appends nothing and saves the same keys. |
| Runs.Visit | scraper.py:49-62 | One target: a fetcher that raised changes nothing. Otherwise the total and the counts grow by the rows appended for that target. |
| Scraper.DisplayName | scraper.py:73 | The name shown for an entry is its company, else its tenant, else its host (the first truthy one), else "unknown". It is never empty. |
| Scraper.ItemTargetsMembership | scraper.py:44-48 | A target is fetched from a platform's list iff some element of the list passes the slug or entry checks and stands for it. |
| Scraper.PlatformsTargetsSource | scraper.py:40-48 | Every fetched target belongs to a platform that is configured and passes the platform filter, and comes from an element of its list that passes the checks. |
| Scraper.TargetsRespectFilters | scraper.py:40-75 | Every fetched target respects the filters. Its platform is configured and is the filtered one. A slug is not blank and is the stripped company filter, because the filter is compared before stripping. An entry is on a mapping platform, shows its display name, and the company filter is that name, its host or its tenant. |
| Scraper.TakenIsFetched | scraper.py:40-75 | Conversely, every element of a visited platform's list that passes the checks is fetched. |
| Scraper.VisitItems | scraper.py:44-64 | The loop over one platform's list moves the run forward by the fetch result of each element that passes the checks, in order. |
| Scraper.VisitPlatform | scraper.py:41-43 | A platform that is not configured, or is excluded by the platform filter, is skipped. |
| Scraper.VisitPlatforms | scraper.py:40-64 | The loop over a group of platforms moves the run forward by each platform's targets, in order. |
| Scraper.Run | scraper.py:27-95 | A missing `companies.yaml` returns 2 and leaves both files alone. Otherwise greenhouse and lever are run, then the mapping platforms in `DICT_FETCHERS` order. Only rows with new keys are appended, in order. The seen file ends up holding the sorted union of the loaded keys and every fetched key. The total and per-target counts count the appended rows. The result is 0. |
| MusicScraper.Slugify | music_scraper.py:39-45 | None gives None. A slug is never empty and never starts with `#`. |
| MusicScraper.SlugifyIsCanonical | music_scraper.py:39-45 | A slug is the stripped text. It is already stripped, and slugifying it again gives it back. |
| MusicScraper.SlugTargetsRespectFilter | music_scraper.py:194-199 | Every fetched slug is non-empty, stripped and not a comment. Under a company filter it equals the filter. |
| MusicScraper.PlatformShare | music_scraper.py:192-221 | The rows appended for one more platform are its share of the total. |
| MusicScraper.SummaryAddsUp | music_scraper.py:192-221 | The per-platform summary adds up to the run's total of new rows. |
| MusicScraper.SummaryNamesSelected | music_scraper.py:180-190 | Every summary entry names a platform that has a fetcher, passes the platform filter and has a list value. |
| MusicScraper.SummaryRespectsFilter | music_scraper.py:181-185 | Summary entries are greenhouse or lever. Under a platform filter they are the filtered platform. |
| MusicScraper.VisitSlugs | music_scraper.py:194-219 | The loop over one platform's companies moves the run forward by the fetch result of each slug that passes the filter, in order. |
| MusicScraper.VisitPair | music_scraper.py:180-221 | One configuration item: a skipped item changes nothing. A walked platform's count is the rows appended for it. |
| MusicScraper.Run | music_scraper.py:166-228 | A missing `companies.yaml` returns 2 and leaves both files alone. Otherwise only rows with new keys are appended. The seen set is saved once. The summary lists each walked platform with its count. The result is 0. |
| Adapters.Dedupe | adapters.py:116-124 | The dedupe is never longer than its input. |
| Adapters.DedupeKeepOrder | adapters.py:116-124 | The loop with its seen set computes the dedupe. |
| Adapters.DedupeMembership | adapters.py:116-124 | The output holds exactly the non-empty items of the input. |
| Adapters.DedupeDistinct | adapters.py:116-124 | The output has no duplicates and no empty item. |
| Adapters.DedupeOrder | adapters.py:116-124 | The output lists its items in the order of their first occurrences in the input. |
| Adapters.DedupeStartsWith | adapters.py:116-124 | A list that starts with a non-empty item dedupes to a list that starts with it. |
| Adapters.BrandingSites | adapters.py:164-172 | Only branding strings of length 2 to 40 without `/` become seeds. |
| Adapters.SeedsStartWithProvided | adapters.py:145 | A provided site is the first seed. |
| Adapters.DiscoverSites | adapters.py:144-185 | The seed-building steps compute the candidate list: provided site, defaults, branding sites, scraped sites, variants, deduped and capped at 20. |
| Adapters.DiscoveredSitesShape | adapters.py:144-185 | At most 20 candidates, none empty, none twice, each a seed. A provided site comes first. |
| Adapters.FetchWorkday | adapters.py:189-263 | An entry without host or tenant gives no rows and tries nothing. Otherwise the site trial holds: a non-empty hint is tried first and its rows are the result when it gives any; otherwise the discovered sites are tried in their order, each at most once, and the first that gives rows (or raises) is the result. With no rows, every discovered site was tried and gave none. |
| Adapters.TryHintThenSites | adapters.py:245-263 | The hint is tried first and returned when it gives rows. Then the discovered sites are walked in order, skipping tokens already tried, up to the first that gives rows: every site before it gave none, and the result is what it gave. With no rows, every discovered site was tried. |
| Adapters.TrySites | adapters.py:254-261 | The tokens tried are the earlier ones followed by the candidates, in order and without repeats, up to a stop point. Every candidate before the stop gave no rows. A result with rows is what the candidate at the stop gave. With no rows the walk reached the end and every candidate gave nothing. |
| Adapters.TriedAfter | adapters.py:254-258 | Walking candidates without stopping tries exactly the earlier tokens and the candidates. |
| Adapters.SiteTrialDeterministic | adapters.py:246-261 | The site trial has one outcome: two results and two lists of tried tokens that both meet it are equal, so no run can skip an earlier site that gives rows. |
| Adapters.WorkableAttempts | adapters.py:452-486 | A blank account gives no rows. Otherwise the account is tried first. It is retried without hyphens iff the first try gave nothing and the account holds `-`. The result is the last try's. |
| Adapters.FixPosted | adapters.py:239-241 | Spaces become `T`. A `Z` is appended iff the text is not empty and does not end in `Z`. |
| Adapters.FixPostedIdempotent | adapters.py:66-68 | Fixing a fixed timestamp changes nothing. |
| Adapters.FindJobs | adapters.py:530 | Finds the leftmost position where `/jobs/` and a digit begin, or none. |
| Adapters.IcimsJobId | adapters.py:530-531 | The job id is the digit run after the leftmost `/jobs/` followed by a digit. With no such place, the id is the whole URL. |
| Text.StripIsTrimmedSlice | music_scraper.py:42 | `str.strip` gives a slice of its input that has no whitespace at either end, with only whitespace cut off around it. |
| Text.StripIdempotent | music_scraper.py:42 | Stripping twice is stripping once. |

## Left out

- HTTP: the session, retries, timeouts and every request. Fetchers, `try_site`, `try_account`, the Workday config request and the page scraping are parameters. So is the row building inside them, which picks JSON fields and reads HTML.
- The Playwright headless adapter, and the Teamtailor, ADP, SuccessFactors, Jobvite and Pereless fetchers: browser automation and HTML scraping.
- The Greenhouse and Lever field picking, and Lever's `createdAt` conversion: float division and `datetime`.
- `normalized_now` is a clock. Its reading is the parameter `now` of `Rows.MkRow`.
- YAML loading, `argparse`, and every printed line, warning and summary text. The counters and the summary the text reports are modelled.
- Real files: handles, encodings, CSV quoting, and crash atomicity of the writes. Both files are in-memory values.
- Urls.NormalizeCases: `urlsplit`'s checks on bracketed IPv6 hosts and on NFKC-normalised netlocs are not modelled. The only `ValueError` modelled is a netloc with `[` and no `]`, or the reverse.
- Matcher.JobMatchesMusic: word characters for `\b` are the ASCII letters, digits and `_`. Python's `\w` also counts non-ASCII letters and digits, so "émusic" matches here and not in Python.
- Adapters.IcimsJobId: `\d` is the ASCII digits. Python's `\d` also matches other Unicode decimal digits.
- Scraper.Run: a platform value that is truthy but not a list (a string, a mapping) is iterated by Python element by element. The model treats it as an empty list.
- Scraper.Run: a `companies.yaml` whose top level is a list makes `cfg.get` raise in Python once a platform name is in the list. The model takes a mapping.
- Scraper.DisplayName: entry fields are modelled as strings. A non-string value (a number, a list) is not modelled, and neither is the `TypeError` an unhashable value raises in the company-filter test.
- MusicScraper.Run: the configuration is the sequence of the mapping's items. YAML keys are distinct, so each platform occurs once, and the summary is a sequence rather than a dict. Repeated keys are not excluded by the model.
- Store.LoadSeen: the seen file's list is modelled as a list of strings. Other JSON element types are not modelled.
- Scraper.Run and MusicScraper.Run: the fetcher is a function of the target, so two equal targets in one run get the same outcome. A real HTTP fetch can answer differently on the second call. No property proved here depends on this, because the lemmas hold for any outcomes.
- Urls.UrlUnparse: `urlunsplit` is modelled as in Python 3.12.4 and later. Earlier releases put `//` before an empty netloc for a scheme in `uses_netloc` even when the path does not start with `/`, so "http:foo" became "http:///foo".
- Adapters.FetchWorkday: the `company` fallback of the rows and `try_site`'s request and parsing are inside the oracle `trySite`.
- Adapters.DiscoverSites: the JSON traversal of the branding section is a parameter, the list of string values it found. `_wd_scrape_sites_from_html` is the list of tokens it found. Its own dedupe is modelled.
