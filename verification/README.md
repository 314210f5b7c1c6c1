# TikTok metadata collector — a verified model of its core

The collector takes a seed-user run (a JSON document listing users and
their videos). It turns the run into a de-duplicated work list and fetches
per-video metadata through the external `yt-dlp` tool, one video at a time.
It stops early after a configurable number of consecutive failures and
writes one combined document of enriched records and errors. Two converters
flatten the outputs into CSV rows:

- `video_metadata_to_csv.py` turns enriched records into one row per video.
  It summarises the best format and the cover thumbnail, and uses fallback
  chains for identity fields.
- `user_metadata_to_csv.py` turns the seed-user run itself into one row per
  video under each user.

The Dafny model is split into one module per concern:

| file | module | what it models |
|---|---|---|
| `python.dfy` | `Python` | The Python value semantics the scripts depend on: JSON documents after `json.loads` (`Json`); truthiness, `or` and `dict.get`; iteration of a value; `str()`, `str.strip()`, `",".join` and `int()`/`float()`. An exception is a `Raise` result. |
| `fetch.dfy` | `Fetch` | The `yt-dlp` command line, and the classification of what the process did into `(info, err, rc)`. |
| `extraction.dfy` | `Extraction` | The work list of a seed run: url synthesis, dropping incomplete references, de-duplication by id. |
| `driver.dfy` | `Driver` | The batch loop as a fold over attempts, with the cap, the two output lists, the consecutive-error stop, the pauses and the summary counts. |
| `video_csv.dfy` | `VideoCsv` | `pick_best_format`, `first_thumbnail`, `normalize_record`, and the batch-file / single-file dispatch. |
| `user_csv.dfy` | `UserCsv` | `safe_get` and the results→videos row loop. |

Rows are maps from a column datatype to a cell value. `Name(c)` gives each
column's CSV header. The process, the clock and file contents are inputs to
the model: a fetch outcome is a `ProcessOutcome`; the environment is a
function from the item index to that outcome and to the clock reading.

Line 177 of `src/collect_video_metadata_from_ids.py` opens an `if`, but
lines 178–195 sit at the `if`'s own indentation instead of under it, so the
file as written does not parse. The model follows the evident intent:
lines 178–195 are the body of the `if` and line 197 is its `else`. The code has a single early-stop rule, the consecutive-error
threshold. It has no resume filter over already-fetched videos, no skip
count and no total-failure threshold, so none of these are modelled.

## Model

| member | source | states |
|---|---|---|
| Fetch.Command | src/collect_video_metadata_from_ids.py:46-65 | The argument vector starts with the program name `yt-dlp` and the four fixed flags, and ends with the url. `--write-comments` follows the flags when comments are attempted. Then come the `--user-agent` and `--proxy` pairs, each present only for a non-empty value. The length is exactly the sum of these parts. |
| Fetch.CommandRoundTrip | src/collect_video_metadata_from_ids.py:46-65 | Reading the argument vector back recovers exactly the comment flag, the effective user agent and proxy (None when empty), and the url. |
| Fetch.ExitError | src/collect_video_metadata_from_ids.py:82-86 | After a non-zero exit, the error is the stripped stderr, or its last 2000 characters when it is longer. With nothing left it is "yt-dlp failed". It is never empty. |
| Fetch.Classify | src/collect_video_metadata_from_ids.py:67-91 | Timeout gives (None, "timeout", 124). A missing binary gives rc 127. Any other exception gives "exception: …" with rc 1. A non-zero exit passes its code through. Unparsable stdout gives rc 2. A parsed document gives (doc, None, 0). |
| Fetch.ClassifyIsError | src/collect_video_metadata_from_ids.py:177 | The loop treats a fetch as a failure unless the tool exited 0 with a truthy parsed document. An error text is never empty and never comes with a document. |
| Extraction.VideoCandidate | src/collect_video_metadata_from_ids.py:103-109 | A reference yields an item iff its id is truthy and it either has a truthy url or the owner is known and not "unknown". The url is then its own, or exactly `https://www.tiktok.com/@{user}/video/{id}`. The fields are the `str()` of the values and are non-empty. |
| Extraction.VideoCandidates | src/collect_video_metadata_from_ids.py:103-109 | Over one result's videos, the loop succeeds iff every reference is a dict; otherwise `v.get` raises AttributeError. The items are, in order, the candidates of the references that yield one. |
| Extraction.VideoCandidatesMembers | src/collect_video_metadata_from_ids.py:103-109 | There is at most one item per reference. Every reference that yields a candidate contributes it, and every item is the candidate of some dict reference. |
| Extraction.ResultUsername | src/collect_video_metadata_from_ids.py:102 | The owner is the profile's truthy `username`, else "unknown". |
| Extraction.ResultCandidates | src/collect_video_metadata_from_ids.py:100-109 | A non-dict result, or a `profile or {}` that is not a dict, raises AttributeError. A `videos or []` that cannot be iterated raises TypeError. Otherwise the items are the candidates of the videos under the profile's owner. Every item has a non-empty id and url, and without a truthy profile every item is owned by "unknown". |
| Extraction.AllCandidates | src/collect_video_metadata_from_ids.py:99-109 | The results are processed in order. The items are the concatenation of each result's items, and the first result that raises makes the whole loop raise its error. Every item has a non-empty id and url. |
| Extraction.Candidates | src/collect_video_metadata_from_ids.py:94-109 | A run that is not a dict raises AttributeError, and a `results` value that cannot be iterated raises TypeError. Otherwise the items are the concatenation, in result order, of every result's items. |
| Extraction.DedupLoopIsFirstOccurrences | src/collect_video_metadata_from_ids.py:110-117 | The `seen`-set loop computes the reference list of first occurrences. |
| Extraction.FirstOccurrencesIds | src/collect_video_metadata_from_ids.py:110-117 | De-duplication loses no id. |
| Extraction.FirstOccurrencesDistinct | src/collect_video_metadata_from_ids.py:110-117 | The de-duplicated ids are pairwise distinct. |
| Extraction.FirstOccurrencesSound | src/collect_video_metadata_from_ids.py:110-117 | Every kept item is the first occurrence of its id. |
| Extraction.FirstOccurrencesComplete | src/collect_video_metadata_from_ids.py:110-117 | Every first occurrence is kept. |
| Extraction.FirstOccurrencesOfDistinct | src/collect_video_metadata_from_ids.py:110-117 | A list with distinct ids is unchanged by de-duplication. |
| Extraction.Dedup | src/collect_video_metadata_from_ids.py:110-117 | The result is the first-occurrence subsequence in encounter order. Its ids are distinct and are exactly the input's ids. |
| Extraction.DedupIdempotent | src/collect_video_metadata_from_ids.py:110-117 | De-duplicating twice equals de-duplicating once. |
| Extraction.ExtractWorkItems | src/collect_video_metadata_from_ids.py:94-117 | The work list exists iff the candidates do. It is their first-occurrence subsequence, with distinct ids and non-empty ids and urls. |
| Driver.ErrorText | src/collect_video_metadata_from_ids.py:187 | The recorded error is `err` when it is a non-empty string, and exactly "unknown error" otherwise. It is never empty. |
| Driver.PartitionCount | src/collect_video_metadata_from_ids.py:177-208 | Every processed attempt lands in exactly one of the two lists. |
| Driver.StreakWindow | src/collect_video_metadata_from_ids.py:179-206 | The counter is at least m exactly when the last m processed attempts all failed. |
| Driver.WindowIsStreak | src/collect_video_metadata_from_ids.py:179-206 | A window of k failures ending at item j is the same as a counter of at least k after item j. |
| Driver.StepKeeps | src/collect_video_metadata_from_ids.py:177-214 | One iteration extends both lists and the counter to the next prefix. It stops exactly at a window of k failures, and it pauses unless it stops. |
| Driver.LoopMeetsOutcome | src/collect_video_metadata_from_ids.py:164-214 | The loop from any consistent intermediate state reaches the stated outcome. |
| Driver.Run | src/collect_video_metadata_from_ids.py:162-214 | The processed items are a prefix of the attempts. Successes and failures are its two order-preserving sub-lists, and the counter is the trailing failure streak. A stop happens right after the first window of k failures, and never with k ≤ 0; otherwise every item is processed. Pauses equal the processed count, minus one after a stop. |
| Driver.StopMeansKFailures | src/collect_video_metadata_from_ids.py:190-206 | After a stop with k > 0, the last k processed items all failed. A success as the last processed item leaves the counter at 0. |
| Driver.Cap | src/collect_video_metadata_from_ids.py:150-151 | The capped list is a prefix, of length `max_videos` when that is positive and smaller, otherwise the whole list. |
| Driver.Attempts | src/collect_video_metadata_from_ids.py:164-175 | Attempt i pairs item i with the classified outcome of running that item's command, and with clock reading i. |
| Driver.Enrich | src/collect_video_metadata_from_ids.py:148-227 | The summary exists iff the work list does. Requested is the capped length. The enriched records and the errors are exactly the two lists the batch loop produces over the capped work list. Succeeded and failed are their lengths, and their sum is at most requested (equal when the threshold is off). The comment flag and the input path are echoed. |
| VideoCsv.AboveTransitive | src/video_metadata_to_csv.py:74 | Lexicographic tuple order is transitive. |
| VideoCsv.AboveTotal | src/video_metadata_to_csv.py:74 | Lexicographic tuple order is total and asymmetric. |
| VideoCsv.ScoreOf | src/video_metadata_to_csv.py:62-67 | The score exists iff `int(height or 0)`, `float(tbr or 0.0)` and `int(filesize or filesize_approx or 0)` all convert. Each part is then the conversion of the first truthy value in its chain, or zero when every value is falsy. |
| VideoCsv.Rankings | src/video_metadata_to_csv.py:70-73 | Exactly the dict elements are ranked, each by its own score. |
| VideoCsv.BestFrom | src/video_metadata_to_csv.py:69-75 | A chosen index is in range and is a dict element. |
| VideoCsv.BetterKeeps | src/video_metadata_to_csv.py:73-75 | A strictly greater score makes the element the new best, and the loop invariant is kept. |
| VideoCsv.BestFromCorrect | src/video_metadata_to_csv.py:69-78 | The loop succeeds iff every dict element can be scored. It returns an arg-max above the sentinel that strictly beats every earlier dict, or none when no dict beats the sentinel. |
| VideoCsv.IsBestUnique | src/video_metadata_to_csv.py:73-75 | The first maximum is unique. |
| VideoCsv.FormatHeader | src/video_metadata_to_csv.py:81-88 | Every format column's header is `best_` followed by the key it reads from the chosen format. |
| VideoCsv.FormatColumnsDomain | src/video_metadata_to_csv.py:80-89 | The format summary has exactly the eight format columns. |
| VideoCsv.FormatColumnsValues | src/video_metadata_to_csv.py:80-89 | Each format column holds the chosen format's value under its key. `best_filesize` holds `filesize`, or `filesize_approx` when `filesize` is falsy. |
| VideoCsv.PickBestFormat | src/video_metadata_to_csv.py:58-89 | Only format columns are written. |
| VideoCsv.PickBestFormatChoice | src/video_metadata_to_csv.py:58-89 | A non-list or empty `formats` gives no columns. For a list, the call succeeds iff every dict element can be scored. It gives no columns exactly when no dict ranks above the sentinel. Otherwise some unique first maximal dict exists and the columns are its format columns. |
| VideoCsv.LastWithId | src/video_metadata_to_csv.py:95 | It finds the last dict with a given id, and nothing when there is none. |
| VideoCsv.PreferredCorrect | src/video_metadata_to_csv.py:95 | The id→thumbnail comprehension succeeds iff every dict's id is hashable. Looking up an id returns the last dict carrying it. |
| VideoCsv.CoverIndex | src/video_metadata_to_csv.py:95-96 | The cover lookup finds a dict element, and finds nothing iff no dict carries any of the ids `cover`, `originCover` or `dynamicCover`. An `originCover` or `dynamicCover` is found only when no dict has id `cover`, and a `dynamicCover` only when none has id `originCover`. |
| VideoCsv.ThumbColumnsValues | src/video_metadata_to_csv.py:98-100 | The thumbnail summary has exactly the two thumbnail columns, each holding the thumbnail's value under its key. |
| VideoCsv.ThumbHeader | src/video_metadata_to_csv.py:98-100 | Every thumbnail column's header is `thumb_` followed by the key it reads from the thumbnail. |
| VideoCsv.HasIdTruthy | src/video_metadata_to_csv.py:96 | A thumbnail found by id is non-empty, so truthy for the `or` chain. |
| VideoCsv.FirstThumbnail | src/video_metadata_to_csv.py:92-100 | Only thumbnail columns are written. |
| VideoCsv.FirstThumbnailChoice | src/video_metadata_to_csv.py:92-100 | Nothing is chosen for a non-list or empty input. Otherwise the choice is the last dict with id `cover`, else `originCover`, else `dynamicCover`. Failing those it is the first element when that is a dict, else nothing. |
| VideoCsv.CoverTruthy | src/video_metadata_to_csv.py:96-97 | Whatever the lookup finds by id is truthy. |
| VideoCsv.CoreColumnsValues | src/video_metadata_to_csv.py:111-137 | The core part has exactly the 21 core columns. `scraped_at` is the item's, `yt_id` is yt-dlp's `id`, and each of the 15 other document columns holds yt-dlp's value under the column's own name. |
| VideoCsv.CoreIdentity | src/video_metadata_to_csv.py:111-113 | The fallback chains are `video_id` = item id or yt id, `url` = item url or webpage url or original url, and `username` = item username or uploader. `artists` is the joined value. |
| VideoCsv.UrlColumnsValues | src/video_metadata_to_csv.py:144-147 | The link part has exactly the four link columns, each holding yt-dlp's value under the column's own name. |
| VideoCsv.Assemble | src/video_metadata_to_csv.py:109-148 | Run metadata survives under every column the record does not write. Every column comes from the metadata or the record. The core columns are written as computed. |
| VideoCsv.AssembleParts | src/video_metadata_to_csv.py:109-148 | A format, thumbnail or link column is present iff its part or the metadata has it, and holds its part's value when the part has it. A core column is present iff the core part or the metadata has it. |
| VideoCsv.NormalizeRecordOk | src/video_metadata_to_csv.py:103-148 | A record converts iff its artists join, its format choice and its thumbnail choice all succeed. |
| VideoCsv.NormalizeRecordColumns | src/video_metadata_to_csv.py:103-113 | A converted record keeps every run column it does not overwrite and adds only record columns. `video_id`, `url` and `username` are the fallback chains, and `artists` is the comma-join of a list, else None. |
| VideoCsv.NormalizeRecordParts | src/video_metadata_to_csv.py:140-147 | The format columns of a converted record are those of `pick_best_format(yt.get("formats"))` and its thumbnail columns those of `first_thumbnail(yt.get("thumbnails"))`, either one giving way to run metadata only where it writes nothing. The four link columns hold yt-dlp's values under their names. |
| VideoCsv.NormalizeRecordDocument | src/video_metadata_to_csv.py:114-136 | A converted record's `scraped_at` is the item's, its `yt_id` is yt-dlp's `id`, and each of the other document columns holds yt-dlp's value under the column's name. |
| VideoCsv.NonDictYtIsEmpty | src/video_metadata_to_csv.py:104 | Converting a record whose `yt_dlp` is not a dict gives the same result as converting it with `yt_dlp` set to `{}`. |
| VideoCsv.NormalizeRecordCarries | src/video_metadata_to_csv.py:109-110 | Every run column is kept unchanged in the record. |
| VideoCsv.BatchRunMetaValues | src/video_metadata_to_csv.py:173-181 | The batch metadata has exactly the seven run columns, each holding the file's value under the column's name. |
| VideoCsv.BatchRowsOrder | src/video_metadata_to_csv.py:183-185 | There is one row per dict element, in order. The loop fails iff some conversion fails. |
| VideoCsv.BatchFileRows | src/video_metadata_to_csv.py:168-185 | A batch file yields exactly one row per dict result, in order. It fails iff one record fails. |
| VideoCsv.BatchFileRowsCarry | src/video_metadata_to_csv.py:173-185 | Every batch row carries the file's seven run fields unchanged. |
| VideoCsv.OtherFileRows | src/video_metadata_to_csv.py:188-198 | Any other dict yields exactly one row: the record `normalize_record` builds from the whole document with run columns `{"source_file": name}`, so it is tagged with the file name. The file fails iff that record fails. A non-dict document yields none. |
| VideoCsv.FileRowsCount | src/video_metadata_to_csv.py:164-198 | A file's row count is determined by its shape alone. |
| VideoCsv.AllRows | src/video_metadata_to_csv.py:164-198 | The rows of all files number the sum of the files' shape counts. |
| VideoCsv.AllRowsFlat | src/video_metadata_to_csv.py:164-198 | The rows are each file's rows concatenated in input order. The first file whose conversion raises ends the run with its error (`FlatCollect` over the per-file results). |
| UserCsv.SafeGet | src/user_metadata_to_csv.py:31-32 | For a non-dict or a missing key it returns the default. Otherwise it returns the value stored under the key. |
| UserCsv.RunMetaValues | src/user_metadata_to_csv.py:76-84 | The run metadata has exactly the seven run columns, each holding the document's value under the column's name. |
| UserCsv.UserInfoOf | src/user_metadata_to_csv.py:92-97 | `username` is the dict profile's truthy username, else the result's own. `profile_url` comes from a dict profile, else None. |
| UserCsv.UserColumns | src/user_metadata_to_csv.py:107-110 | Only user columns are written: `username`, `profile_url`, `user_scraped_at` and `user_source`, each the user's value. |
| UserCsv.VideoColumnsValues | src/user_metadata_to_csv.py:112-125 | The video part has exactly the 14 video columns. Each column except `hashtags` holds the video's value under the column's name. |
| UserCsv.VideoRowColumns | src/user_metadata_to_csv.py:104-126 | A video row succeeds iff its hashtags join does. It keeps the run columns and adds no other run column. `username` is the user's, `video_id` the video's, and `hashtags` is the comma-join of a list and None otherwise. |
| UserCsv.VideoRowContents | src/user_metadata_to_csv.py:105-124 | A video row holds every user column with the user's value, and every video column except `hashtags` with the video's value under the column's name. |
| UserCsv.VideoRows | src/user_metadata_to_csv.py:100-126 | There is one row per video dict, in order. The loop fails iff one row fails. |
| UserCsv.ResultRowsOrder | src/user_metadata_to_csv.py:88-126 | A non-dict result yields no rows. A dict result yields one row per dict video, in order. It fails iff `videos` cannot be iterated or a row fails. |
| UserCsv.ResultRowAt | src/user_metadata_to_csv.py:100-126 | Row `j` of a result is the row of its `j`-th video dict. |
| UserCsv.ResultRowsCarry | src/user_metadata_to_csv.py:105-106 | Every row of a result carries the run columns. |
| UserCsv.AllResultsOk | src/user_metadata_to_csv.py:88-126 | The loop over results succeeds iff each result's rows do. |
| UserCsv.AllResultsCount | src/user_metadata_to_csv.py:88-126 | The rows number the total of dict videos across dict results. |
| UserCsv.AllResultsCarry | src/user_metadata_to_csv.py:88-126 | Every row carries the run columns unchanged. |
| UserCsv.AllResultsFlat | src/user_metadata_to_csv.py:88-126 | The loop over results concatenates the per-result rows in result order, raising the first error. |
| UserCsv.UserVideoRows | src/user_metadata_to_csv.py:74-126 | A non-dict document raises AttributeError, and non-iterable `results` raise TypeError. Otherwise the rows are the per-result rows concatenated in result order, and the call succeeds iff every result's rows do. The rows number the total of dict videos, all carrying the run columns. |
| UserCsv.UserVideoRowAt | src/user_metadata_to_csv.py:88-126 | The row of video dict `j` of result `k` comes right after the rows of the dict videos of all earlier results, and it is that video's row under that result's user. |
| UserCsv.AllResultsRowAt | src/user_metadata_to_csv.py:88-126 | Over the results themselves: video dict `j` of result `k` gives a row that succeeds, and it sits after the rows of the dict videos of all earlier results. |
| Python.FindFirst | src/user_metadata_to_csv.py:32 | A lookup finds nothing exactly when no pair has the key. Otherwise it finds the first pair's value. |
| Python.GetOrFirst | src/user_metadata_to_csv.py:32 | `d.get(key, default)` is the default when the key is absent, and otherwise the value of the first pair with the key. |
| Python.SetKeyGet | src/video_metadata_to_csv.py:104 | After setting a key, reading it gives the new value, and reading any other key gives what it gave before. |
| Python.TruthyFalsy | src/video_metadata_to_csv.py:111-113 | A value is falsy exactly when it is None, False, 0, 0.0, "", [] or {}. |
| Python.OrChoice | src/video_metadata_to_csv.py:111-113 | `a or b` is `a` when `a` is truthy and `b` otherwise, and it is truthy iff either operand is. |
| Python.AsDict | src/user_metadata_to_csv.py:77 | Calling `.get` on anything but a dict raises AttributeError. |
| Python.Iterate | src/user_metadata_to_csv.py:100 | None, booleans and numbers are not iterable (TypeError). A list iterates its items; a dict or a string yields strings. |
| Python.Join | src/user_metadata_to_csv.py:125 | `",".join` succeeds iff every element is a string. |
| Python.CommaJoined | src/video_metadata_to_csv.py:106-107 | A list is joined (failing iff an element is not a string); anything else gives None. |
| Python.Strip | src/collect_video_metadata_from_ids.py:83 | The result is a slice with only whitespace cut from each end, and no whitespace at either end. |
| Python.StripIdempotent | src/collect_video_metadata_from_ids.py:83 | Stripping twice equals stripping once. |
| Python.IntStrInjective | src/collect_video_metadata_from_ids.py:109-114 | Distinct int ids have distinct `str()` forms, so de-duplicating by `str(vid)` merges only equal ids. |
| Python.TruncTowardZero | src/video_metadata_to_csv.py:64 | `int()` of a float keeps the sign and drops less than one. |
| Python.ToInt | src/video_metadata_to_csv.py:64-66 | An int stays itself, a bool becomes 0 or 1, and a float is truncated toward zero. A string converts iff it parses as a signed decimal. None, lists and dicts raise TypeError. |
| Python.ToFloat | src/video_metadata_to_csv.py:65 | A float stays itself and an int converts exactly. None, lists and dicts raise TypeError. |
| Python.Str | src/collect_video_metadata_from_ids.py:109 | `str()` is empty only for the empty string. |
| Python.StrReprQuotes | src/collect_video_metadata_from_ids.py:109 | Inside a container, a string with no quote characters and nothing to escape is shown between single quotes unchanged. |
| Python.StrReprApostrophe | src/collect_video_metadata_from_ids.py:109 | A string containing `'` but no `"` is shown between double quotes, without escaping the apostrophe. |
| Python.ApostropheInList | src/collect_video_metadata_from_ids.py:109 | `str(["it's"])` is `["it's"]`. |
| Python.TruthyStrNonEmpty | src/collect_video_metadata_from_ids.py:108-109 | The `str()` of a truthy value is non-empty. |
| Python.DictElements | src/video_metadata_to_csv.py:183-184 | The `isinstance(x, dict)` filter keeps exactly the dict elements. |
| Python.DictElementsFilter | src/video_metadata_to_csv.py:183-184 | The filter keeps the dict elements in order, with their multiplicity: it equals keeping the present values of the per-element dict test. |
| Python.DictElementsSingle | src/video_metadata_to_csv.py:184 | A single element is kept iff it is a dict. |
| Python.DictElementsAppend | src/video_metadata_to_csv.py:183-184 | Filtering a concatenation is concatenating the filtered parts. |
| Python.SomesMembers | src/collect_video_metadata_from_ids.py:108-109 | Keeping only the present values gives at most one value per input, and exactly the present values. |
| Python.Collect | src/video_metadata_to_csv.py:183-185 | A loop of conversions succeeds iff every one does, with their results in order. Otherwise it raises the first failure's error. |
| Python.FlattenIndex | src/user_metadata_to_csv.py:88-126 | In a concatenation of lists, element `j` of list `k` sits after all elements of the earlier lists. |
| Python.FlatCollectIndex | src/user_metadata_to_csv.py:88-126 | When a loop of list-producing steps finishes, every step succeeded, and element `j` of step `k` sits after all the elements of the earlier steps. |

## Left out

- Running `yt-dlp` and the subprocess machinery. A fetch outcome is an input (`ProcessOutcome`).
- Parsing JSON is not modelled. A parsed document is a `Json` value, and unparsable stdout is `parsed == None`.
- Per-video and summary file writing, directory creation, `iter_inputs`/`rglob`, pandas `DataFrame`/`to_csv`, `argparse` and `print`: these are I/O.
- The column order of the CSV and the key order of the rows. Rows are maps, and pandas orders columns by first appearance.
- `time.sleep` and the random jitter. Only the number of pauses is modelled.
- Clocks, `now_iso` and timestamped file names. Clock readings are an input function of the item index.
- `parse_iso_dt`, `filename_timestamp` and the `min(candidate_times)` choice of a file-name timestamp: they only name the output file.
- The "input file not found" early return with code 2, which is a filesystem check.
- `main` of the collector reads `item.get("username")`. The model uses the work item's own username, because extraction always sets it.
- Python.Find: keys are looked up by the first matching pair. A dict from `json.loads` has unique keys, so first and last coincide for every value the scripts see.
- Python.ToInt: `int()` of a string accepts only surrounding whitespace, an optional sign and ASCII digits. Underscores and non-ASCII digits are not accepted.
- Python.ToFloat: `float()` of a string accepts only the integer forms `int()` accepts. Decimal points, exponents, `inf` and `nan` are not accepted.
- Python.Str: a float is rendered as a plain decimal with at most 17 fractional digits, not with Python's shortest-repr and exponent rules. Strings inside lists and dicts follow Python's quote choice, with the escaping limits given for Python.StrRepr.
- Python.StrRepr: only backslash, newline, carriage return, tab and the quote are escaped. Python's `\x..` and `\u....` escapes of other non-printable characters are not modelled.
- Floats are reals, so NaN and infinities do not arise. `tbr` only affects the ordering of scores.
- Python.DictElements: its own contract states membership and length. Order and multiplicity are stated by Python.DictElementsFilter, with Python.DictElementsAppend and Python.DictElementsSingle for the loop's steps.
- Hash equality across types (`1 == True == 1.0` as dict keys) is not modelled. Only a string id can match `"cover"` and the other preferred ids, as in Python.
- Driver.Enrich: `run_started_at` and every record's `scraped_at` are readings of the clock input, and the contract does not constrain `run_started_at`. The per-video files and the summary file are not written.
- VideoCsv.FormatColumns: its own contract states only that the columns are format columns, with `best_filesize` among them. The full contents are stated by VideoCsv.FormatColumnsDomain and VideoCsv.FormatColumnsValues, to keep each proof small.
- VideoCsv.ThumbColumns: its own contract names only its column family. The exact domain and values are stated by VideoCsv.ThumbColumnsValues.
- VideoCsv.CoreColumns: its own contract names only its column family. The exact domain and values are stated by VideoCsv.CoreColumnsValues and VideoCsv.CoreIdentity.
- VideoCsv.UrlColumns: its own contract names only its column family. The exact domain and values are stated by VideoCsv.UrlColumnsValues.
- VideoCsv.BatchRunMeta: its own contract names only its column family. The exact domain and values are stated by VideoCsv.BatchRunMetaValues.
- UserCsv.RunMeta: its own contract names only its column family. The exact domain and values are stated by UserCsv.RunMetaValues.
- UserCsv.VideoColumns: its own contract names only its column family and the `video_id` and `hashtags` values. The exact domain and values are stated by UserCsv.VideoColumnsValues.
- VideoCsv.Assemble: its own contract covers the run metadata and the core columns. VideoCsv.AssembleParts states the format, thumbnail and link columns.
