# hardrock-picks backend core, modelled in Dafny

This project models three parts of the hardrock-picks backend and proves properties about them:

- **The balldontlie client** (`backend/app/bdl.py`). `bdl_get` sends an authenticated GET. It retries with exponential backoff on 429 (rate limit) and on 5xx responses, and honours a numeric `Retry-After` header on a 429. The model gets the upstream as a script of responses, one per request. It returns the outcome, the list of waits requested from `asyncio.sleep` and the number of requests sent.
- **The Postgres synchroniser** (`backend/app/storage.py`).
  - `upsert_teams` and `upsert_games` normalise a balldontlie payload into rows and write them with one `INSERT … ON CONFLICT (id) DO UPDATE`.
  - `_parse_game_day` extracts a calendar day from the `date` field.
  - `read_teams` and `read_games_between` read the tables back.
  - The database is a class `Store` whose field `engine` is `None` when no database is configured. Otherwise it holds two maps from primary key to the mutable columns.
- **The URL clean-up** `_normalize_db_url` (`backend/app/db.py`), which rewrites a leading `postgres://` to `postgresql://`.

Modules, one per file:

- `Wrappers`: Option and Result.
- `JsonValue`: JSON values with Python truthiness, `dict.get` and `x or default`.
- `Text`: `strip`, one-character `replace`, `replace(…, 1)`, slicing, `isdigit` and `int`.
- `Calendar`: `datetime.date`, its ISO text form and its order.
- `Table`: a keyed table and the upsert statement.
- `Storage`: the synchroniser and the `Store` class.
- `Bdl`: the client.
- `Db`: the URL clean-up.

The retry loop is the imperative method `Bdl.Get`. It is proved equal to the recursive specification `Bdl.Fetch`, and the lemmas state what `Fetch` guarantees.

The two upsert methods of `Store` each run the per-record loop `Storage.DraftRecords`. That loop is proved equal to the recursive `Storage.DraftAll`. Each method's new state and result are proved equal to the function `TeamsUpsert` or `GamesUpsert` applied to the old state. The upsert lemmas are stated about those functions.

`_parse_game_day` is not total. A `date` that is truthy but not a string (a number, say) reaches `.strip()` outside the `try`. It raises `AttributeError`, and the whole `upsert_games` call fails. `Storage.ParseGameDay` returns `Failure(AttributeError)` in that case.

## Model

| member | source | states |
|---|---|---|
| Bdl.NextBackoff | backend/app/bdl.py:46-59 | The next backoff is `min(2·b, 30)`: at most both, and equal to one of them. |
| Bdl.Stop | backend/app/bdl.py:39-70 | The final response raises exactly when its status is 400 or more, with that same status. Below 400 it returns the decoded body, or fails when the body is not JSON. |
| Bdl.ErrorDetail | backend/app/bdl.py:52-67 | The error detail is the decoded body, or an object with the single key `error` holding the raw text. |
| Bdl.RetryAfterHonoured | backend/app/bdl.py:32-37 | A 429 with `Retry-After: str(n)` is honoured (`Honoured`), and `RateLimitWait` is then `n` seconds. |
| Bdl.RetryAfterFallsBack | backend/app/bdl.py:32-37 | A missing, empty or not all-digit `Retry-After` is not honoured, and `RateLimitWait` is then the backoff. |
| Bdl.Attempts | backend/app/bdl.py:27-72 | From attempt `a` on, the loop sends at most one request more than the responses left in the script. A transport failure happens exactly on the request after the last scripted response. |
| Bdl.Fetch | backend/app/bdl.py:23-72 | `bdl_get` sends at most one request more than there are scripted responses, and a transport failure comes only after all of them are used. |
| Bdl.Get | backend/app/bdl.py:18-72 | The retry loop returns the outcome, waits and request count that `Fetch` specifies for the same key, `max_retries` and upstream. |
| Bdl.BackoffAt | backend/app/bdl.py:25-59 | After k retries the backoff is 2·2^k for k < 4 and 30 from then on; it always lies in 2..30. |
| Bdl.EarlyBackoffs | backend/app/bdl.py:46-59 | The backoff runs through 2, 4, 8 and 16, then reaches 30. |
| Bdl.MissingKeyFailsFast | backend/app/bdl.py:9-23 | An empty API key raises 500 with the missing-variable message, before any request or wait. |
| Bdl.FetchBounds | backend/app/bdl.py:27-72 | At most `max_retries + 1` requests and one wait fewer than requests. A negative `max_retries` sends nothing and raises 500 "Unexpected error in bdl_get". |
| Bdl.AttemptsCount | backend/app/bdl.py:27-60 | From any attempt on, the remaining loop sends between 1 and the remaining allowance of requests, with one wait between each two. |
| Bdl.AttemptsSleeps | backend/app/bdl.py:31-59 | The i-th wait of the remaining loop answers a 429 or 5xx at that attempt and equals that response's wait at the backoff reached so far. |
| Bdl.AttemptsLast | backend/app/bdl.py:27-72 | The last request decides the outcome. Either it was not retryable or it was the last allowed attempt, or the script ran out exactly there. |
| Bdl.FetchSleepSchedule | backend/app/bdl.py:31-59 | Each wait follows a 429 or 5xx at that attempt, and there are never more waits than `max_retries`. The wait is `int(Retry-After)` for an all-digit header on a 429, otherwise the backoff after that many retries. |
| Bdl.FetchOutcome | backend/app/bdl.py:39-70 | The final response is a non-retryable response or came on the last attempt. A final 429 raises 429 with `retry_after_seconds`. Another status of 400 or more raises with the JSON body or `{"error": text}`. Below 400 the call returns the body, or fails if it is not JSON. |
| Bdl.ClientErrorIsNotRetried | backend/app/bdl.py:62-68 | A 4xx other than 429 raises at once: one request, no wait. |
| Bdl.DefaultAllServerErrors | backend/app/bdl.py:50-59 | With the default of 4 retries, five 5xx responses wait 2, 4, 8 and 16 seconds, then raise the fifth response's error. |
| Bdl.DefaultAllRateLimited | backend/app/bdl.py:31-47 | Five header-less 429s wait 2, 4, 8 and 16 seconds, then raise 429 reporting 30 seconds. |
| Bdl.ThreeRateLimitsThenSuccess | backend/app/bdl.py:31-70 | Three header-less 429s then a 200 wait 2, 4 and 8 seconds and return the body. |
| Bdl.RetryAfterStillAdvancesBackoff | backend/app/bdl.py:34-59 | A honoured `Retry-After: 7` replaces that wait, but the backoff still doubles, so a following 5xx waits 4. |
| Storage.Records | backend/app/storage.py:20-25 | A missing, null or empty `data` gives no records. A `data` list gives exactly its items, and a non-empty result is always such a list. A truthy `data` that is not a list fails. A payload that is not an object fails. |
| Storage.ParseGameDay | backend/app/storage.py:56-70 | A parsed day is a valid date. The call fails exactly when `date` is truthy and not a string. A falsy or blank `date` gives no day. |
| Storage.GameDayOfTimestamp | backend/app/storage.py:61-68 | Text that starts with an ISO date parses to that date, whatever follows it. |
| Storage.LeadingIso | backend/app/storage.py:61-68 | Strip, the `Z` rewrite and the ten-character cut leave exactly the leading ISO date. |
| Storage.IsoHasNoZ | backend/app/storage.py:65 | A date's ISO text holds no `Z`, so the rewrite cannot touch it. |
| Storage.GameDayExample | backend/app/storage.py:58-68 | `"2024-03-01T19:00:00Z"` parses to 1 March 2024. |
| Storage.GameDayIsLeadingDate | backend/app/storage.py:61-68 | A parsed day came from a string whose first ten characters, after strip and the `Z` rewrite, are that day's ISO text. |
| Storage.TeamRefId | backend/app/storage.py:85-95 | An object `home_team`/`visitor_team` gives its `id`. A falsy one gives a null team id. A truthy value that is not an object fails. |
| Storage.DraftTeam | backend/app/storage.py:25-35 | An object record gives its `id` and the six columns, each read as `t.get(...)`: the stored value, or null when the key is absent. `raw` equals the record. Anything else fails. |
| Storage.DraftGame | backend/app/storage.py:84-99 | An object record whose date and team references parse gives its `id`, the parsed `game_day`, the two team ids read by `TeamRefId` (null for a missing team) and `raw` equal to the record. `season`, `status`, `postseason` and both scores are read as `g.get(...)`, null when absent. |
| Storage.DraftAll | backend/app/storage.py:24-35 | The batch normalises exactly when every record does, and then gives one draft per record, in order. |
| Storage.DraftRecords | backend/app/storage.py:83-99 | The per-record loop computes `DraftAll`. |
| Storage.ApplyBatch | backend/app/storage.py:17-54 | An absent, null or empty `data` returns 0 and leaves the table as it was. A payload whose records cannot be read fails with that error. A failed upsert also leaves the table unchanged. |
| Storage.ApplyBatchSucceeds | backend/app/storage.py:24-54 | A non-empty batch is written exactly when every record normalises, every `id` is an integer and no `id` repeats. It then returns `len(rows)`. |
| Storage.ApplyBatchStores | backend/app/storage.py:37-54 | A successful upsert returns the number of records and stores each record's columns under its id. |
| Storage.ApplyBatchKeepsOthers | backend/app/storage.py:37-52 | Ids the batch does not mention keep their rows, and no id is removed. |
| Storage.ApplyBatchAddsOnlyBatchIds | backend/app/storage.py:37-52 | An id that is in neither the old table nor the batch is still absent afterwards. |
| Storage.ApplyBatchIdempotent | backend/app/storage.py:37-52 | Applying the same payload twice equals applying it once, in state and result. |
| Storage.TeamsUpsert | backend/app/storage.py:13-54 | With no engine the result is 0 and nothing changes. `upsert_teams` never touches the games table. |
| Storage.GamesUpsert | backend/app/storage.py:72-120 | With no engine the result is 0 and nothing changes. `upsert_games` never touches the teams table. |
| Storage.TeamsUpsertIdempotent | backend/app/storage.py:13-54 | Re-running `upsert_teams` on the same payload changes nothing further. |
| Storage.GamesUpsertIdempotent | backend/app/storage.py:72-120 | Re-running `upsert_games` on the same payload changes nothing further. |
| Storage.GamesUpsertKeepsDaysValid | backend/app/storage.py:88-90 | Every stored `game_day` stays a real calendar date across `upsert_games`. |
| Storage.GameBeforeTransitive | backend/app/storage.py:139 | `(game_day, id)` order is transitive. |
| Storage.GameBeforeTotal | backend/app/storage.py:139 | Two distinct games that both have a day are ordered one way or the other. |
| Storage.EarliestExists | backend/app/storage.py:139 | A non-empty set of dated games has a first game in `(game_day, id)` order. |
| Storage.ByDayThenId | backend/app/storage.py:139 | Lists exactly the given ids, in strictly ascending `(game_day, id)` order. |
| Storage.GamesBetween | backend/app/storage.py:129-143 | Returns exactly the stored games whose day lies in `[start, end]`, both ends included, ordered by day then id. |
| Storage.AllTeams | backend/app/storage.py:122-127 | Returns every stored team exactly once, each row as stored. |
| Storage.Store.UpsertTeams | backend/app/storage.py:13-54 | The new engine state and result are those of `TeamsUpsert` on the old state, and stored game days stay valid. |
| Storage.Store.UpsertGames | backend/app/storage.py:72-120 | The new engine state and result are those of `GamesUpsert` on the old state, and stored game days stay valid. |
| Storage.Store.ReadTeams | backend/app/storage.py:122-127 | `[]` with no engine; otherwise every stored team exactly once, each as stored. |
| Storage.Store.ReadGamesBetween | backend/app/storage.py:129-143 | `[]` with no engine; otherwise exactly the games dated in `[start, end]`, in `(game_day, id)` order. In a valid store every returned day is a real calendar date. |
| Table.Upsert | backend/app/storage.py:37-49 | The keys afterwards are the old keys plus the batch's ids. Rows whose ids are absent from the batch are unchanged. |
| Table.UpsertStoresBatch | backend/app/storage.py:37-49 | With distinct ids, every row of the batch is stored exactly as given. |
| Table.UpsertValueIndependent | backend/app/storage.py:37-49 | What the statement leaves at a batch id does not depend on the previous table. |
| Table.UpsertIdempotent | backend/app/storage.py:37-49 | Issuing the statement twice gives the same table as issuing it once. |
| Table.Keyed | backend/app/storage.py:37-52 | The database accepts a batch exactly when every id is an integer and no id repeats. It then keeps one row per record, in order. |
| Table.Ids | backend/app/storage.py:39 | The set of ids is exactly the ids the batch mentions. |
| Table.MinimumExists | backend/app/storage.py:126 | A non-empty set of ids has a least one. |
| Table.Ascending | backend/app/storage.py:126 | The ids are strictly ascending, and each key appears in the list. |
| Calendar.DaysInMonth | backend/app/storage.py:68 | 28 to 31 days; 29 exactly for February of a leap year. |
| Calendar.ParseIso | backend/app/storage.py:68 | `date.fromisoformat` on `YYYY-MM-DD` text yields only valid dates. |
| Calendar.FormatIso | backend/app/storage.py:68 | A date's ISO text has the `DDDD-DD-DD` shape. |
| Calendar.ParseFormatIso | backend/app/storage.py:68 | Parsing a date's ISO text gives the date back. |
| Calendar.FormatParseIso | backend/app/storage.py:68 | Text that parses is the ISO text of the date it parses to. |
| Calendar.Pad2Inverse | backend/app/storage.py:68 | Two digits read as a number and written back give the same two digits. |
| Calendar.BeforeIsStrictTotalOrder | backend/app/storage.py:137-139 | Day order is irreflexive, asymmetric, transitive and total. |
| Text.TrimLeft | backend/app/storage.py:61 | Drops the longest all-space prefix and nothing else. |
| Text.TrimRight | backend/app/storage.py:61 | Drops the longest all-space suffix and nothing else. |
| Text.Strip | backend/app/storage.py:61 | The stripped text is empty, or it starts and ends with a non-space. |
| Text.StripMiddle | backend/app/storage.py:61 | `strip()` removes only whitespace: the text is an all-space prefix, the stripped text and an all-space suffix. |
| Text.TrimRightAfterWord | backend/app/storage.py:61 | Right-stripping never reaches into a word that ends in a non-space. |
| Text.StripAroundWord | backend/app/storage.py:61 | Stripping text that starts with such a word only trims the tail. |
| Text.ReplaceChar | backend/app/storage.py:65 | Text without `Z` is unchanged. If the replacement has no `Z`, the result has none. |
| Text.ReplaceCharAppend | backend/app/storage.py:65 | Replacing over a concatenation is concatenating the replacements. |
| Text.Prefix | backend/app/storage.py:68 | `s[:10]` has length `min(len(s), 10)` and is a prefix of `s`. |
| Text.DigitValue | backend/app/bdl.py:35 | A digit's value is at most 9. |
| Text.DigitChar | backend/app/bdl.py:35 | The digit written for a value reads back as that value. |
| Text.Decimal | backend/app/bdl.py:35 | `int()` of an all-digit string is 0 exactly when every digit is `0`. |
| Text.DecimalText | backend/app/bdl.py:35 | `str(n)` is a non-empty digit string with no leading zero. |
| Text.DecimalOfText | backend/app/bdl.py:35 | `int(str(n)) == n`. |
| Text.FindFrom | backend/app/db.py:7 | Finds the first occurrence at or after a position, or reports that there is none. |
| Text.ReplaceFirst | backend/app/db.py:6-7 | With the pattern at the start, only that occurrence is replaced. With no occurrence, the text is unchanged. |
| Db.NormalizeDbUrl | backend/app/db.py:5-8 | A leading `postgres://` becomes `postgresql://` and the rest is kept. Other URLs are unchanged. The result never starts with `postgres://`. |
| Db.NormalizeIdempotent | backend/app/db.py:5-8 | Normalising twice is normalising once. |
| Db.NormalizeKeepsOtherSchemes | backend/app/db.py:5-8 | A `postgresql://` URL or any other scheme is left alone. |
| Db.NormalizeRewritesOnlyTheScheme | backend/app/db.py:5-8 | Only the leading scheme is rewritten; a later `postgres://` in the URL stays. |

## Left out

- Networking: the HTTP client, the base URL, query parameters, the async runtime and the 25-second timeout. The upstream is a given list of responses, and the `asyncio.sleep` calls are recorded as a list of waits instead of being performed.
- Environment variables: reading `BALLDONTLIE_API_KEY`/`BDL_API_KEY` and `DATABASE_URL` and stripping them. The API key, and whether an engine exists, are parameters.
- Creating the SQLAlchemy engine and session factory, `ensure_schema`, and the table definitions in `backend/app/models.py`. The model keeps only each table's primary key and its updated columns.
- Column types and `String` lengths: the database would coerce or reject oversized or mistyped values, but here every column holds JSON as given.
- `Table.Keyed`: as a simplification, the model rejects every id that is not a JSON integer and accepts every JSON integer. PostgreSQL would instead coerce a digit string such as `"12"` into the integer column, and would refuse an integer outside the column's 32-bit range.
- A batch that repeats an id is modelled as rejected by the database: PostgreSQL refuses an `ON CONFLICT DO UPDATE` that would affect the same row twice.
- Transactions, concurrency and connection failures: one upsert is atomic and always reaches the database.
- JSON decoding of response bodies: each scripted response states what `r.json()` yields. JSON numbers are integers; floats are not modelled.
- `Calendar.ParseIso`: only the `YYYY-MM-DD` form of `date.fromisoformat` is modelled. Python 3.11 also accepts the basic `YYYYMMDD` form and ISO week dates, which the model reads as no date.
- `Bdl.Honoured`: only ASCII digits count for `str.isdigit`. In Python, `isdigit` also holds for other Unicode digits. For some of them, such as the superscript `²`, `int()` then raises `ValueError` and the call fails. The model neither honours those headers nor models that failure.
- `Storage.AllTeams`: `read_teams` issues no `ORDER BY`, so the database's row order is unspecified. The model returns ascending ids, and the contracts of `Store.ReadTeams` promise only that each stored team appears exactly once, as stored.
- The web application in `backend/app/main.py`, and the dict conversion of result rows.
