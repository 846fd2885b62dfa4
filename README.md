# Google Tasks MCP server — a Dafny model of its logic

`gtasks_mcp_server/server.py` exposes five Google Tasks tools (`get_lists`,
`create_task`, `list_tasks`, `complete_task`, `add_link`) on top of a cached,
OAuth-authenticated API client. Around the remote calls it holds a small
amount of deterministic logic, and this project models all of it:

- the two input validators: the `YYYY-MM-DD` date check with real-calendar
  checking, and the `http(s)://` URL check;
- the error classifier: `handle_api_error`, `handle_unexpected_error`, and the
  `except GTasksError: raise` chain at the end of every tool;
- the response sanitizers;
- the credential acquisition of `get_authenticated_service`, with its
  process-wide `_service_cache` slot;
- the five tools themselves. Each one runs as the code does: validate,
  acquire the service, call the backend, then sanitize or classify.

The remote API, the OAuth library and the file system are parameters. The
model takes an `Environment` of outcomes for acquisition (token file present,
load ok, token valid/expired/refreshable, refresh ok, client secrets present,
consent ok, save ok). It takes a `Reply` for each `.execute()` (an answer, an
`HttpError` with its status, or any other exception). The clock reaches
`complete_task` as the already formatted timestamp string `now`.

Files, one module each:

- `wrappers.dfy`: `Option`, `Result` and `Outcome`, which stand for values and
  raised exceptions.
- `errors.dfy`: the `GTasksError` family (`Base`, `Authentication`,
  `Validation`, `Api(reason)`), `HandleApiError` and `Classify`.
- `text.dfy`: Python's whitespace set (`str.isspace`, also `\s` in a `re`
  pattern over `str`), `str.strip`, and `sub in s`.
- `validators.dfy`: `validate_date_format` and `validate_url_format`. Each is
  computed the way the code computes it (regular expression under `re.match`,
  then `strptime`). Each is proved equal to a direct description: "the
  `YYYY-MM-DD` spelling of a real date", and "`http://` or `https://`
  followed by non-whitespace".
- `sanitize.dfy`: JSON values, records as maps, and the two sanitizers.
- `auth.dfy`: `Acquire`, a declarative specification of a first acquisition,
  and the class `ServiceCache`. Its `cache` field is `_service_cache`, and its
  `GetAuthenticatedService` follows the code branch by branch and is proved
  equal to `Acquire`. The cache is set only on success, and once set it is
  returned with no effects.
- `tools.dfy`: the five tools as methods that modify the `ServiceCache` and
  report the side effects their request for the service started. The
  step-by-step parts are methods of their own: the `max_results` clamp, the
  key-by-key insert body, and the in-place completion rewrite. The link
  appending is a function.

Two details follow the code rather than an idealised flow:

- Python's `$` also matches just before a final newline, so `URL_RE` accepts
  `"http://x\n"`. `DATE_RE` does too, but `strptime` then rejects the leftover
  newline, so the date check does not.
- A credential that was loaded but is invalid, and is either not expired or
  has no refresh token, is neither refreshed nor replaced by consent. It is
  saved and used as it is. A credential that was valid when loaded is never
  saved.

## Model

| member | source | states |
|---|---|---|
| Errors.HandleApiError | gtasks_mcp_server/server.py:90-115 | always raises; 401/403 give AuthenticationError, 404 not-found, 429 rate-limit, >= 500 unavailable, every other status generic APIError, each as an if-and-only-if |
| Errors.Classify | gtasks_mcp_server/server.py:233-238 | a GTasksError passes through unchanged; an HttpError becomes exactly the error `handle_api_error` raises for its status, so AuthenticationError or APIError and never ValidationError or the base class; exactly the non-HTTP exceptions become base GTasksError (`handle_unexpected_error`, lines 118-127) |
| Errors.ClassifyExamples | gtasks_mcp_server/server.py:97-115 | 401, 403, 404, 429, 500, 503, 418 and 400 land in the documented kinds |
| Text.StripEmptyIffBlank | gtasks_mcp_server/server.py:265 | `title.strip()` is empty exactly when every character of the title is whitespace |
| Text.TrimStart | gtasks_mcp_server/server.py:272 | the leading half of `strip`: the result is a suffix of the input, everything cut off is whitespace, and it does not start with whitespace |
| Text.TrimEnd | gtasks_mcp_server/server.py:272 | the trailing half of `strip`: the result is a prefix of the input, everything cut off is whitespace, and it does not end with whitespace |
| Text.Strip | gtasks_mcp_server/server.py:265 | `str.strip()`: the trailing trim of the leading trim, no longer than its input; what it keeps is stated by `StripEmptyIffBlank`, `StripKeepsMiddle` and `StripTrimsBothEnds` |
| Text.StripKeepsMiddle | gtasks_mcp_server/server.py:272 | `strip` keeps a contiguous piece of the title: everything before it and everything after it is whitespace |
| Text.StripTrimsBothEnds | gtasks_mcp_server/server.py:272 | a non-empty stripped title neither starts nor ends with whitespace |
| Validators.Strptime | gtasks_mcp_server/server.py:72-75 | whatever `strptime` accepts is a real date: year 1-9999, month 1-12, day within the Gregorian month |
| Validators.MatchesDatePattern | gtasks_mcp_server/server.py:38 | `DATE_RE` under `re.match` (its definition): four digits, `-`, two digits, `-`, two digits, and nothing after them except one final newline, which Python's `$` lets through |
| Validators.DatePatternTrailingNewline | gtasks_mcp_server/server.py:38 | the pattern accepts a string plus `\n` exactly when it accepts the string alone, which then has ten characters; nothing longer than eleven characters matches |
| Validators.ValidateDateFormat | gtasks_mcp_server/server.py:65-75 | every failure is a ValidationError |
| Validators.DateRoundTrip | gtasks_mcp_server/server.py:65-75 | every real date written as `YYYY-MM-DD` matches the pattern, is read back by `strptime` as itself, and is accepted |
| Validators.DateAcceptedIsFormatted | gtasks_mcp_server/server.py:65-75 | every accepted string is exactly the `YYYY-MM-DD` spelling of the date it was read as |
| Validators.ValidateDateIff | gtasks_mcp_server/server.py:65-75 | the date check accepts a string if and only if it spells a real calendar date as `YYYY-MM-DD` |
| Validators.LeapDayExamples | gtasks_mcp_server/server.py:65-75 | `2024-02-29` and `2000-02-29` are accepted |
| Validators.ImpossibleDayExamples | gtasks_mcp_server/server.py:72-75 | `2024-02-30`, `2023-02-29` and `1900-02-29` pass the pattern and are rejected by `strptime` |
| Validators.MalformedDateExamples | gtasks_mcp_server/server.py:38 | a one-digit month or day fails the pattern and is rejected |
| Validators.UnparsableDateExamples | gtasks_mcp_server/server.py:72-75 | month 13, year 0000 and `2024-01-01\n` pass the pattern but `strptime` rejects them |
| Validators.SchemeLength | gtasks_mcp_server/server.py:39 | `^https?://` consumes 8, 7 or 0 characters |
| Validators.NonSpaceRunEnd | gtasks_mcp_server/server.py:39 | the greedy `\S` run from a position covers only non-whitespace and stops at the end or at whitespace |
| Validators.ValidateUrlFormat | gtasks_mcp_server/server.py:78-83 | every failure is a ValidationError |
| Validators.ValidateUrlIff | gtasks_mcp_server/server.py:78-83 | the URL check accepts a string if and only if it is `http://` or `https://` followed by one or more non-whitespace characters, optionally with one final newline |
| Validators.AcceptedUrlExamples | gtasks_mcp_server/server.py:39 | `http://x`, `https://x` and `http://x\n` are accepted |
| Validators.RejectedUrlExamples | gtasks_mcp_server/server.py:39 | a bare scheme, embedded whitespace, two final newlines and `ftp://` are rejected |
| Sanitize.SanitizeTask | gtasks_mcp_server/server.py:134-141 | the keys are the input's keys among the eight task fields plus `is_subtask`; kept values are unchanged and nothing is defaulted; `is_subtask` is whether `parent` was present |
| Sanitize.SanitizeTaskIdempotent | gtasks_mcp_server/server.py:137-141 | sanitizing a sanitized task gives the same record |
| Sanitize.SanitizeTaskDependsOnlyOnTaskFields | gtasks_mcp_server/server.py:139-140 | records that agree on the eight task fields sanitize to the same record |
| Sanitize.SanitizeTasklist | gtasks_mcp_server/server.py:144-146 | the result holds exactly `id` and `title`, with the input's values; both keys are required |
| Sanitize.SanitizeTasklistIdempotent | gtasks_mcp_server/server.py:144-146 | sanitizing a task list twice equals sanitizing once |
| Sanitize.SanitizeTasklists | gtasks_mcp_server/server.py:231-232 | the list comprehension succeeds if and only if every list has `id` and `title`, and then sanitizes each list in order |
| Sanitize.SanitizeTasks | gtasks_mcp_server/server.py:332-333 | every task in order, sanitized, with the same length |
| Auth.Acquire | gtasks_mcp_server/server.py:169-210 | only AuthenticationError is raised, exactly when no credential is left and the client secrets are missing or consent fails; a valid loaded credential is used with no refresh, consent or save; an invalid loaded credential that is not refreshable is used as-is and saved; a refresh is tried exactly for an invalid, expired credential with a refresh token, and a successful refresh gives the refreshed stored credential, which is saved, with no consent; consent runs exactly when no credential is left and the client secrets exist, and its credential is the one used; a save only on success and never for a credential valid when loaded |
| Auth.SaveFailureIsOnlyLogged | gtasks_mcp_server/server.py:200-206 | the outcome does not depend on whether saving the token succeeds |
| Auth.FailedRefreshFallsBackToConsent | gtasks_mcp_server/server.py:177-198 | a failed refresh discards the credential and the consent flow decides the outcome |
| Auth.ServiceCache.constructor | gtasks_mcp_server/server.py:153 | the cache slot starts empty |
| Auth.ServiceCache.GetAuthenticatedService | gtasks_mcp_server/server.py:156-210 | a filled cache is returned with no effects; otherwise the result and effects are those of `Acquire` (`EffectsFor`); the cache is set exactly when a service is returned |
| Tools.GetLists | gtasks_mcp_server/server.py:222-238 | the acquisition effects are those of the service request; an authentication failure passes through; a backend failure is classified; a list missing `id` or `title` gives base GTasksError; otherwise the sanitized lists in order |
| Tools.ItemsOf | gtasks_mcp_server/server.py:231 | `results.get("items", [])`, also at line 332: a missing `items` gives the empty list, a present one is used as it is |
| Tools.Failed | gtasks_mcp_server/server.py:287-290 | the `except` chain on a failed `.execute()`: an HttpError becomes `handle_api_error`'s error for its status, anything else base GTasksError, never ValidationError |
| Tools.Settle | gtasks_mcp_server/server.py:283-290 | the tail of every tool: a reply succeeds exactly when the backend answered, and then it is the sanitized task, carrying `is_subtask`; a failure is `Failed` of the reply |
| Tools.BuildInsertRequest | gtasks_mcp_server/server.py:264-282 | ValidationError exactly for a blank title, a title longer than 1024 characters before stripping, or a due date that is not a real `YYYY-MM-DD` date; otherwise a body of the stripped title, `notes` only when given, `due` as the date plus `T00:00:00.000Z` only when given, and `parent` only when given |
| Tools.CreateTask | gtasks_mcp_server/server.py:244-290 | invalid input raises ValidationError with no acquisition effect (no load, refresh, consent or save), the cache untouched and nothing sent; otherwise the request above is sent once the service is obtained, and the answer is sanitized or the failure classified |
| Tools.ClampMaxResults | gtasks_mcp_server/server.py:315-318 | the result lies in [1, 100], equals an in-range input, and is 1 below the range and 100 above it |
| Tools.ClampExamples | gtasks_mcp_server/server.py:315-318 | 0 clamps to 1, 500 to 100, and 50 stays 50 |
| Tools.ListTasks | gtasks_mcp_server/server.py:296-339 | the acquisition effects are those of the service request; the request carries the list id, both flags and the clamped limit; the sanitized tasks in order, or the classified failure |
| Tools.MarkCompletion | gtasks_mcp_server/server.py:367-374 | completing sets `status` to `completed` and `completed` to the timestamp; reopening sets `needsAction` and removes `completed`; every other field is unchanged |
| Tools.CompletionRewriteUnique | gtasks_mcp_server/server.py:367-374 | the rewrite determines the record completely |
| Tools.CompleteThenReopen | gtasks_mcp_server/server.py:367-374 | completing an open task and then reopening it gives back the original record |
| Tools.CompleteTask | gtasks_mcp_server/server.py:345-387 | the acquisition effects are those of the service request; a failed fetch sends nothing; otherwise the rewritten record is sent and the update's answer is sanitized or its failure classified |
| Tools.LinkLabel | gtasks_mcp_server/server.py:417 | a given non-empty label is used as it is; the label is the URL exactly when it is absent, empty or the URL itself |
| Tools.LinkEntry | gtasks_mcp_server/server.py:418 | the bullet is `- [`, the label, `](`, the URL and `)`, with exactly six characters besides the label and the URL |
| Tools.AppendLink | gtasks_mcp_server/server.py:425-431 | with a `Links:` heading present, the entry goes on a new last line; otherwise a blank line (only after non-empty notes), the heading and the entry; the old notes are always a prefix, the entry always ends the result on its own line, and the result always holds the heading |
| Tools.NotesOf | gtasks_mcp_server/server.py:425-427 | missing notes read as `""`; a string is read as it is; any other value is the case where `"Links:" in notes` raises, and only that case gives no notes |
| Tools.AppendLinkTwice | gtasks_mcp_server/server.py:427-428 | the heading is created once: a second link is appended on the next line |
| Tools.AppendLinkToEmpty | gtasks_mcp_server/server.py:430-431 | empty notes get the heading and the entry with no leading blank line |
| Tools.LinkEntryExamples | gtasks_mcp_server/server.py:417-418 | `- [http://x](http://x)` without a label or with an empty one, and `- [Y](http://y)` with label `Y` |
| Tools.FirstLinkExample | gtasks_mcp_server/server.py:430-431 | empty notes become `Links:\n- [http://x](http://x)` |
| Tools.SecondLinkExample | gtasks_mcp_server/server.py:427-428 | the second link is appended below the first |
| Tools.AddLink | gtasks_mcp_server/server.py:393-446 | an invalid URL raises ValidationError with no acquisition effect (no load, refresh, consent or save), the cache untouched and nothing sent; otherwise the fetched record is sent with its notes replaced by the appended notes (missing notes count as empty, non-string notes give base GTasksError), and the answer is sanitized or the failure classified |

## Left out

- Google API client calls (`build`, `tasks().get/insert/update/list`, `tasklists().list`, `.execute()`): their answers are `Reply` parameters, and `build` is assumed not to raise.
- OAuth internals (`Credentials.from_authorized_user_file`, `creds.refresh`, `InstalledAppFlow`): only their success or failure and the `valid`/`expired`/`refresh_token` flags of the loaded token are inputs.
- File I/O: `os.path.exists`, writing `token.json`, `os.chmod(0o600)` and the JSON form of tokens. Only branch outcomes are modelled, so the save/load round trip of the credential file is not modelled. A non-`OSError` exception while saving is not modelled.
- `datetime.now(timezone.utc).strftime(...)`: the formatted timestamp is the parameter `now`.
- Logging, FastMCP registration, `mcp.run()`, and the `--auth` command-line smoke test.
- Concurrency: the code has no lock around `_service_cache`, so none is modelled; duplicate acquisitions by concurrent callers are not modelled.
- Error message texts: only the error kind is modelled.
- Validators.ValidateDateFormat: `\d` and `strptime`'s fields are ASCII digits here; Python also accepts other Unicode decimal digits.
- Tools.AddLink: notes that are a JSON list or object are treated as a failure; Python would test membership in them and format them into the string.
- Tools.GetLists: the response's `items` is taken to be absent or a list of objects; other shapes are not modelled.
- Tools.ListTasks: the response's `items` is taken to be absent or a list of objects; other shapes are not modelled.
