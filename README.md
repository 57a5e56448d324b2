# Gmail collector, modelled in Dafny

This project models the core of a batch Gmail collector. It has three pieces.

- **The postman** (`GmailPostman`):
  - the paginated search `search_messages`;
  - the recursive part walk `parse_parts`, which builds the `{texts, htmls, attachments}` bundle of a message and saves its HTML and attachment files;
  - `read_message`, which scans a message's headers, creates its folder, adds a flat body's text and writes `message.json` and `metadata.json`;
  - the pure helper `clean`.
- **The collector** (`GmailCollector`):
  - the query strings of the search queries, with their `after:` and `before:` tokens;
  - the truncation of each result list to `max_results`;
  - the manifest and the result counts of the collection plan.
- **The collection run** (`start_mail_collection`): each listed message gets a bounded retry loop. Successes and failures go to two append-only logs, and every failure re-authenticates.

The Gmail API and the filesystem are replaced by stand-ins:

- The account is a map from message id to the stored message and its attachments' data.
- A search is answered by a finite sequence of pages.
- The library decoders (`urlsafe_b64decode`, `bytes.decode()`) are a `Codec` parameter.
- The folders that exist are a set. The files written are an ordered log of `FileWrite`s.
- The session is a value with a generation number. Each authentication yields the next generation.
- In the retry loop, the outcome of each `read_message` attempt comes from an oracle indexed by the run's attempt number.

Modules, one per file:

- `wrappers.dfy`: `Option`, `Result` and `Repeat`.
- `digits.dfy`: decimal rendering and parsing, for the `%Y/%m/%d` dates and the `search_query_<i>` keys.
- `gmail_api.dfy`: the shapes the API returns, and the exceptions.
- `records.dfy`: the content bundle, the metadata record, file writes and `os.path.join`.
- `extractor.dfy`: `parse_parts` as a specification, compared with an independent post-order reading of the part tree.
- `postman.dfy`: the header scan and `read_message` as specifications, and the class `GmailPostman` with its imperative methods.
- `retry.dfy`: the retry state machine as a specification.
- `collector.dfy`: dates, query strings, the plan, and the class `GmailCollector`.

Each imperative method of the source is a `method` with loops and invariants, proved against a specification function. The properties the source promises are proved as lemmas about those functions.

Points where the code does less, or other, than its comments and configuration suggest; the model follows the code:

- **Folder creation.** The docstring of `read_message` (`gmail_collector/gmail_postman.py:171`) says a folder is created for each email. The code creates it, keyed by the message id, only when a `subject` header is read (lines 197-216). The fallback folder for a message without a subject is commented out (lines 224-229), so `folder_name` stays unbound for such a message. See "## Findings".
- **Re-authentication.** After every failed attempt, the last one included, the run logs the error, sleeps and re-authenticates (`mail_collector/gmail_collector.py:105-110`).
- **`max_results`.** Each query's result list is cut with Python's slice `[:max_results]` (`mail_collector/gmail_collector.py:70`). The model does the same for any integer, negative values included.

## Model

| member | source | states |
|---|---|---|
| Postman.Clean | gmail_collector/gmail_postman.py:93-95 | the result has the text's length; an alphanumeric character stays in place and every other character becomes `_` |
| Postman.CleanIdempotent | gmail_collector/gmail_postman.py:93-95 | cleaning a cleaned text changes nothing, since `_` is not alphanumeric |
| Postman.GmailPostman.constructor | gmail_collector/gmail_postman.py:31-35 | the postman keeps its attributes, and the first authentication yields a session |
| Postman.GmailPostman.Authenticate | gmail_collector/gmail_postman.py:38-56 | each authentication yields a session newer than the current one |
| Postman.LastPage | gmail_collector/gmail_postman.py:70-72 | the search reads up to the first response without `nextPageToken`; every response before it has one |
| Postman.CollectedAppend | gmail_collector/gmail_postman.py:67-74 | the references of two runs of pages are those of each, in page order; a page without `messages` adds nothing |
| Postman.GmailPostman.SearchMessages | gmail_collector/gmail_postman.py:59-75 | returns the references of every page up to the first without a token, in page order; in a ghost record of its requests, the first has no token, and each later one passes the previous page's `nextPageToken` |
| Postman.ScanHeadersOutcome | gmail_collector/gmail_postman.py:184-222 | the header loop raises exactly when a second `subject` header arrives, or when the first one finds the folder already there; otherwise `from`, `to`, `subject` and `date` are each the last header of that name, ignoring case, and the folder exists once a subject was seen |
| Postman.ScanFailureSticks | gmail_collector/gmail_postman.py:186-216 | once `os.mkdir` has raised in the header loop, later headers change nothing |
| Postman.ScanHeaders | gmail_collector/gmail_postman.py:184-222 | the header loop creates at most the message's folder, and it records a subject only by creating that folder, which did not exist before |
| Postman.LowerAscii | gmail_collector/gmail_postman.py:189-219 | `name.lower()` keeps the length and lowers each character on its own |
| Postman.GmailPostman.MakeDir | gmail_collector/gmail_postman.py:216 | `os.mkdir` fails when the folder exists, and the folder exists afterwards (a missing parent folder is not modelled; see "## Left out") |
| Postman.ReadMessageHeaderFailures | gmail_collector/gmail_postman.py:197-232 | with no subject header `read_message` raises on the unbound `folder_name`; with two, or when the folder exists, it raises at `os.mkdir` |
| Postman.ReadMessageMaterializes | gmail_collector/gmail_postman.py:223-252 | a successful read got past the header loop with a subject, and its effect is that of materialising the message with the scanned entries |
| Postman.ReadMessageAfterScan | gmail_collector/gmail_postman.py:184-232 | after the header loop, the read raises the loop's error, or raises on the unbound folder name, or materialises the message |
| Postman.Materialize | gmail_collector/gmail_postman.py:232-250 | what follows the header loop removes no folder and adds none when it raises; on success it records the message's id, labels and subject |
| Postman.ReadMessageSpec | gmail_collector/gmail_postman.py:166-252 | `read_message` as written: it never removes a folder, and a successful read created the message's folder, which did not exist before |
| Postman.ReadMessageIntended | gmail_collector/gmail_postman.py:166-252 | the corrected reading: a failed read leaves the folders as they were, and a successful one created the message's folder, which did not exist before |
| Postman.MaterializeOk | gmail_collector/gmail_postman.py:232-250 | a materialisation that succeeds records the id, labels and header entries, creates the metadata folder, and ends by writing `message.json` and then `metadata.json` |
| Postman.ReadMessageSuccess | gmail_collector/gmail_postman.py:175-252 | a successful read saw exactly one subject header and a folder that did not exist; its metadata holds the id, the labels and each header's last value; both folders exist afterwards, and `message.json` and `metadata.json` are the last two files written |
| Postman.FlatBodyContents | gmail_collector/gmail_postman.py:232-243 | a message without parts that is read successfully has its decoded body as its only text, and no HTML or attachment; the branch at 242-243 is never taken |
| Postman.GmailPostman.ReadMessage | gmail_collector/gmail_postman.py:166-252 | the method's result, the folders and the files written are exactly those of the specification of `read_message` as written |
| Postman.GmailPostman.SaveMessage | gmail_collector/gmail_postman.py:232-250 | walks the parts, adds a flat body's text and writes the two JSON files, exactly as the materialisation specification says |
| Postman.GmailPostman.ParseParts | gmail_collector/gmail_postman.py:98-163 | returns the bundle or the error of the part walk and appends exactly its file writes; with no parts it returns three empty lists and writes nothing |
| Postman.GmailPostman.ParsePart | gmail_collector/gmail_postman.py:108-162 | one iteration of the part loop: nested parts first, then the part's own entry, as the walk says |
| Postman.GmailPostman.ParseOwn | gmail_collector/gmail_postman.py:122-162 | a part's own text, HTML file or attachments, as the walk says |
| Postman.GmailPostman.ScanAttachments | gmail_collector/gmail_postman.py:141-162 | the header loop of a part of another type collects exactly the paths and writes of the attachment scan |
| Postman.GmailPostman.SaveAttachment | gmail_collector/gmail_postman.py:144-160 | one header adds no path or one, writes at most that file, and raises what the fetch or the decoding raises |
| Postman.WalkPartsFailureSticks | gmail_collector/gmail_postman.py:108-162 | once a part has raised, later siblings are not walked |
| Postman.AttachmentScanFailureSticks | gmail_collector/gmail_postman.py:144-160 | once the attachment loop has raised, later headers change nothing |
| Postman.IntendedAgreesWhereCodeSucceeds | gmail_collector/gmail_postman.py:197-231 | the corrected reading agrees with the code wherever the code succeeds, and when it materialises a message without a subject header, the subject is `""` |
| Postman.IntendedCollectsSubjectless | gmail_collector/gmail_postman.py:197-250 | the corrected reading collects a message without a subject header exactly when its parts walk succeeds and, for a message without parts, its body decodes; the subject is then `""` and the message's folder exists |
| Postman.NoSubjectCounterexample | gmail_collector/gmail_postman.py:202-232 | a message with a `From` header and no subject: the code raises on the unbound folder name, and the corrected reading materialises it with subject `""` |
| Postman.MaterializeKeepsFolders | gmail_collector/gmail_postman.py:230-250 | what follows the header loop never removes a folder |
| Postman.ReadMessageLeavesFolder | gmail_collector/gmail_postman.py:197-250 | once a `subject` header was read, the message's folder exists after `read_message`, whether it returned or raised |
| Postman.ReadMessageRetryBlocked | gmail_collector/gmail_postman.py:197-216 | a second `read_message` of a message with a subject header raises at `os.mkdir`, whatever the first attempt returned and whatever the API answers the second time |
| Postman.IntendedFailureKeepsFolders | gmail_collector/gmail_postman.py:197-250 | the corrected reading leaves the folders as they were whenever it fails |
| Postman.IntendedRetryStartsAfresh | gmail_collector/gmail_postman.py:197-250 | with the corrected reading, a retry after a failure is the same as a first read of the message |
| Postman.RetryCounterexample | gmail_collector/gmail_postman.py:216-235 | a flat message with a subject and no body data fails; when the retry sees its data, the code raises at `os.mkdir` and the corrected reading succeeds |
| Records.PathJoin | gmail_collector/gmail_postman.py:135 | `os.path.join`: an absolute second path replaces the first; otherwise the result starts with the first path and ends with the second |
| Extractor.ContainsOccurs | gmail_collector/gmail_postman.py:148 | `"attachment" in value` holds exactly when the word occurs in the value at some index |
| Extractor.AttachmentStep | gmail_collector/gmail_postman.py:145-158 | one header of the attachment loop adds no text and no HTML path; when it raises nothing it wrote one file per attachment path it adds |
| Extractor.AttachmentScan | gmail_collector/gmail_postman.py:142-162 | the attachment loop, when it raises nothing, wrote one file per attachment path it adds |
| Extractor.Own | gmail_collector/gmail_postman.py:122-162 | a part's own entry, when it raises nothing, wrote one file per HTML or attachment path it lists |
| Extractor.WalkPart | gmail_collector/gmail_postman.py:108-162 | a part with its nested parts, when it raises nothing, wrote one file per HTML or attachment path it lists |
| Extractor.WalkParts | gmail_collector/gmail_postman.py:98-162 | `parse_parts`, when it raises nothing, wrote exactly one file per HTML path and attachment path in its bundle |
| Extractor.WalkPartIsFlat | gmail_collector/gmail_postman.py:115-129 | a part's walk is its subtree in post-order, each part contributing only its own entry |
| Extractor.WalkPartsIsFlat | gmail_collector/gmail_postman.py:108-129 | the walk of sibling parts, writes and errors included, is the walk of their post-order listing |
| Extractor.SiblingsInOrder | gmail_collector/gmail_postman.py:108-121 | the parts of `a` contribute before those of `b`, and `b` is not walked if `a` raised |
| Extractor.NestedBeforeOwn | gmail_collector/gmail_postman.py:115-129 | a part's nested parts contribute before its own entry |
| Extractor.FlatWalkSucceeds | gmail_collector/gmail_postman.py:108-162 | a walk of a list of parts succeeds exactly when every part's own step does |
| Extractor.AttachmentScanContents | gmail_collector/gmail_postman.py:141-162 | an attachment loop that raises nothing saves one path per header named exactly `Content-Disposition` whose value contains `attachment`, and only when downloads are on and the fetched data is not empty |
| Extractor.AttachmentScanSkips | gmail_collector/gmail_postman.py:141-162 | with downloads off, with no matching header, or with an attachment fetched whose `data` is empty, a part of another type adds nothing, writes nothing and raises nothing |
| Extractor.OwnContents | gmail_collector/gmail_postman.py:122-162 | a `text/plain` part adds its decoded text (`""` without data); a `text/html` part adds `folder/filename`, or `folder/index.html` without a file name; any other part adds its attachment paths |
| Extractor.FlatWalkContents | gmail_collector/gmail_postman.py:108-162 | a walk that raises nothing holds the texts, the HTML paths and the attachment paths of its parts, in order |
| Extractor.ExtractionSummary | gmail_collector/gmail_postman.py:98-163 | `parse_parts` raises nothing exactly when no part of the tree raises on its own; its bundle then lists, in the tree's post-order, one text per `text/plain` part, one path per `text/html` part and one path per matching attachment header |
| Digits.ParseNatToString | mail_collector/gmail_collector.py:88 | a number's decimal rendering reads back as the number |
| Digits.NatToStringInjective | mail_collector/gmail_collector.py:88 | distinct numbers render as distinct strings |
| Digits.ZeroPadRoundTrip | mail_collector/gmail_collector.py:64 | zero padding a number that fits the width gives exactly that many digits, which read back as the number |
| Collector.FormatDate | mail_collector/gmail_collector.py:64 | `strftime("%Y/%m/%d")` gives ten characters with `/` at positions 4 and 7 |
| Collector.FormatDateRoundTrip | mail_collector/gmail_collector.py:63-68 | a formatted date reads back as the same date |
| Collector.AfterTokenLayout | mail_collector/gmail_collector.py:63-65 | the start-date token is ` after:` followed by the date, in a form that reads back |
| Collector.BeforeTokenLayout | mail_collector/gmail_collector.py:66-68 | the end-date token is ` before:` followed by the date, in a form that reads back |
| Collector.QueryString | mail_collector/gmail_collector.py:59-68 | the query string is the free text, plus a 17-character ` after:` token exactly when there is a start date and an 18-character ` before:` token exactly when there is an end date |
| Collector.QueryStringLayout | mail_collector/gmail_collector.py:59-68 | the query string is the free text (`""` without one), then an `after:` token exactly when there is a start date, then a `before:` token exactly when there is an end date, each carrying its date |
| Collector.BuildQuery | mail_collector/gmail_collector.py:59-68 | the `+=` assembly of the loop body yields exactly that query string |
| Collector.SlicePrefix | mail_collector/gmail_collector.py:70 | `lst[:n]` is the first `min(n, len)` elements in order, with Python's meaning for negative `n` |
| Collector.SearchRequestsFor | mail_collector/gmail_collector.py:69 | a query's search makes one request per page read; the first has no token, and all carry the query's string |
| Collector.SearchMessagesRequests | mail_collector/gmail_collector.py:69 | the requests `search_messages` makes for a query's string are that query's search requests |
| Collector.GmailCollector.SearchOne | mail_collector/gmail_collector.py:58-70 | one query's iteration: its result list is the search's references cut to `max_results`, and its requests are that query's search requests |
| Collector.GmailCollector.SearchQueries | mail_collector/gmail_collector.py:56-72 | one result list per query, in query order, each the search's references cut to `max_results`; every request of query `i` carries query `i`'s string |
| Collector.GmailCollector.constructor | mail_collector/gmail_collector.py:40-49 | the collector runs the searches and records the manifest and the counts of their results; the logs start empty; every query must carry both dates, since the plan's date formatting raises on a missing one |
| Collector.Ids | mail_collector/gmail_collector.py:88 | the ids of a result list, in order |
| Collector.ManifestKeyInjective | mail_collector/gmail_collector.py:88 | distinct result lists get distinct `search_query_<i>` keys |
| Collector.Manifest | mail_collector/gmail_collector.py:87-89 | key `search_query_<i>` maps to the ids of result list `i` in order, and there are no other keys |
| Collector.ResultCounts | mail_collector/gmail_collector.py:82 | `number_of_search_results[i]` is the length of result list `i` |
| Collector.AllIdsLength | mail_collector/gmail_collector.py:82 | the run visits as many messages as the counts of the plan add up to |
| Collector.AllIdsFromManifest | mail_collector/gmail_collector.py:95-97 | from list `i` on, the run's messages are the manifest's list `i` followed by the later lists |
| Collector.ListStep | mail_collector/gmail_collector.py:95-97 | the run over the first `i + 1` lists is the run over the first `i`, then list `i` from the next attempt |
| Collector.GmailCollector.Attempt | mail_collector/gmail_collector.py:100-110 | a success appends `id + "\n"` to the completed log; a failure appends `id + "\|" + error + "\n"` to the error log and replaces the session with a newer one |
| Collector.GmailCollector.CollectMessage | mail_collector/gmail_collector.py:98-110 | the logs grow by exactly the message's retry tally, and the session is renewed once per failure |
| Collector.GmailCollector.CollectList | mail_collector/gmail_collector.py:97-112 | the logs grow by exactly the tally of the list's messages in order |
| Collector.GmailCollector.StartMailCollection | mail_collector/gmail_collector.py:94-112 | each log is its old content followed by the run's lines, so nothing is rewritten; the session is renewed once per error line |
| Retry.MessageTallyShape | mail_collector/gmail_collector.py:98-110 | one message's attempts form a block of its id, at most `max_retries` long; each failed attempt logs its own error; a single completed line appears exactly when an attempt within the budget succeeds, and it ends the loop |
| Retry.MessageTally | mail_collector/gmail_collector.py:98-110 | one message's loop writes at most one completed line, its id's, and every attempt is either completed or logged as an error |
| Retry.MessageTallyBlock | mail_collector/gmail_collector.py:98-108 | with a positive `max_retries`, a message gets between one and `max_retries` attempts |
| Retry.ProgressSuccess | mail_collector/gmail_collector.py:101-104 | a success within the budget completes the message's tally |
| Retry.ProgressFailure | mail_collector/gmail_collector.py:105-108 | a failure within the budget logs one error line and moves on with one more retry counted |
| Retry.ProgressExhausted | mail_collector/gmail_collector.py:99 | an exhausted budget adds nothing more |
| Retry.AlwaysFailing | mail_collector/gmail_collector.py:98-110 | a materialiser that always fails, with `max_retries = k`, gives exactly `k` error lines for the id and no completed line |
| Retry.FailThenSucceed | mail_collector/gmail_collector.py:99-108 | failing `j < k` times and then succeeding gives `j` error lines, then one completed line, and no further attempt |
| Retry.NoBudgetNoAttempt | mail_collector/gmail_collector.py:99 | with `max_retries <= 0` nothing is attempted and nothing is logged |
| Retry.RunVisitsInOrder | mail_collector/gmail_collector.py:95-99 | the messages are attempted strictly in order, each in one block of attempts; with a positive `max_retries` every message is attempted |
| Retry.RunLogSizes | mail_collector/gmail_collector.py:98-108 | a run holds no more completed lines than it has messages, and every attempt is either completed or logged as an error (the per-message bound is `Retry.MessageTallyShape`) |
| Retry.RunTally | mail_collector/gmail_collector.py:94-112 | the whole run holds no more completed lines than messages, and every attempt is either completed or logged as an error |
| Retry.RunFromCons | mail_collector/gmail_collector.py:97-99 | a run is the first message's retry loop, then the rest from the attempt after its last |
| Retry.RunWithAppend | mail_collector/gmail_collector.py:95-97 | for any per-message step, a run over `a + b` is the run over `a` followed by the run over `b` from the attempt after `a`'s last |
| Retry.RunFromAppend | mail_collector/gmail_collector.py:95-97 | a run over two lists is the run over the first, then the run over the second |
| Retry.RunFromSnoc | mail_collector/gmail_collector.py:97-99 | the run over the first `j + 1` messages is the run over the first `j`, then message `j`'s retry loop |
| Retry.TwoMessageRun | mail_collector/gmail_collector.py:94-112 | with three retries, when `m1` succeeds at once and `m2` fails once and then succeeds: completed lines for `m1` and `m2`, one error line for `m2`, attempts `m1, m2, m2` |

## Left out

- OAuth and credential handling (`_gmail_authenticate`: pickle files, the browser flow, token refresh) is left out. Authentication is a method that yields a newer session.
- The Google API client calls are parameters:
  - the account's messages and attachments are a map;
  - a search is answered by a sequence of pages;
  - in the retry loop, each attempt's outcome comes from an oracle.
- Retry loop: `read_message` is replaced by that oracle, so the run is not tied to what reading a message does. The oracle is not derived from the `read_message` specification; the two are proved separately.
- Retry loop: the oracle may report a success after a failure for the same message. The code as written cannot do that once the failed attempt got past `os.mkdir`; `Postman.ReadMessageRetryBlocked` states when.
- `urlsafe_b64decode` and `bytes.decode()` are left out. They are a `Codec` parameter, where `None` stands for the library raising.
- JSON serialisation is left out. `json.dump` of the message and of the metadata is recorded as a `MessageJson` or `MetadataJson` file write, not as text.
- The timestamped run folder, `os.makedirs` of the log folder and `collection_plan.json` (the config's `__dict__`, rewritten in place) are left out. Only the manifest and the result counts of the plan are modelled.
- `get_size_format` is left out: floating-point formatting that is never called.
- `time.sleep`, `tqdm`, `print` and `datetime.now()` are left out. Dates are explicit year/month/day values, so the defaults of `SearchQuery` (the current time as end date) are not modelled.
- `setup.py` (packaging) and `collect_mails.py` (the script that builds a configuration) are left out.
- mail_collector/gmail_postman.py, which `mail_collector/gmail_collector.py` imports, is not part of this model. The collector is modelled against `gmail_collector/gmail_postman.py`.
- Postman.LowerAscii: lowercases ASCII letters only. Compared with `from`, `to`, `subject` and `date`, this agrees with Python's `str.lower()`. Other characters that `lower()` would change are kept.
- Postman.Clean: takes `isalnum` as a parameter, since Python's Unicode character classes are not modelled.
- Postman.GmailPostman.SearchMessages: requires that some response eventually has no continuation token. Without one, the source loops forever.
- Collector.FormatDate: always pads the year to four digits. On platforms whose `strftime` does not pad `%Y`, years below 1000 render with fewer digits.
- Postman.GmailPostman.MakeDir: does not raise `FileNotFoundError` when the parent folder (`mail_dump_folder`) is missing. The folders are a flat set with no parent tracking, so every parent is taken to exist.
- Postman.GmailPostman.SaveAttachment: a write always succeeds. `open(filepath, "wb")` raises `IsADirectoryError` for an attachment with an empty file name (the path is the folder itself), and `FileNotFoundError` or `IsADirectoryError` for a file name holding `/`; the model records the write instead.
- Postman.GmailPostman.ParseOwn: the HTML write (line 137) always succeeds, where `open` raises for a file name holding `/`.
- Collector.GmailCollector.constructor: requires every search query to have a start date and an end date. For a query with `start_date` or `end_date` set to `None`, `_save_collection_plan` raises `AttributeError` at line 80 of `mail_collector/gmail_collector.py` (`strftime` on `None`), after the searches and before the counts and the manifest are written, so no collector exists. The model does not represent that failed construction; `_search_queries` itself handles missing dates, and `Collector.QueryString` keeps that.
- Attachment fetches that raise (an attachment id the account does not hold, or no attachment id) are modelled as a `NotFound` error. The API's own error kinds are not distinguished.

## Findings

| source | as written | input that shows it | evidently intended | confidence | as-written member | corrected member |
|---|---|---|---|---|---|---|
| gmail_collector/gmail_postman.py:202-232 | `folder_name` is bound only inside the `subject` branch of the header loop, but `parse_parts` reads it at line 232 | a message whose headers have no `Subject` (for example only `From: a@b`) raises `UnboundLocalError` on every attempt, so it is never collected | the message's folder, keyed by its id, is created whatever its headers, and the subject defaults to `""` (as line 231 sets it) | not executed | Postman.NoSubjectCounterexample | Postman.IntendedCollectsSubjectless |
| gmail_collector/gmail_postman.py:216-250 and mail_collector/gmail_collector.py:99-110 | `read_message` creates the message's folder at line 216 and never removes it when a later step raises | a message with a `Subject` header and no parts whose body has no `data` raises `KeyError`; every retry, even when the API now returns the data, raises `FileExistsError` at `os.mkdir`, so re-authenticating and retrying cannot recover | a failed read leaves nothing behind, so a retry starts afresh and can succeed | not executed | Postman.RetryCounterexample | Postman.IntendedRetryStartsAfresh |
