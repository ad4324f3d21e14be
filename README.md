# stickNAUTA in Dafny

A verified model of the two client classes of stickNAUTA. Both talk to the
services of the Cuban provider ETECSA:

- `NautaSession` logs a subscriber in and out of the Nauta captive portal.
- `PortalNauta` drives the subscriber's account on the user portal.

The model covers the following.

- **Captive-portal client** (`nauta_session.dfy`, module `NautaSessionModel`):
  - the constructor: credential checks, the two page tokens (`wlanuserip`, `CSRFHW`), and the optional scrape of the account information, including the fixed-offset trimming of table cells and the session-history builder;
  - the `login`/`logout` state machine and the session identifier it keeps;
  - the account-information accessor;
  - the remaining-time query and its `H:M:S` to seconds conversion;
  - export and import of session data.
- **User-portal client** (`portal_nauta.dfy`, module `PortalNautaModel`):
  - the constructor and its CSRF token;
  - the CAPTCHA login;
  - the account-data gate;
  - recharge, the two password changes and balance transfer, with their input checks;
  - the error-toast reader and its description builder;
  - the cached account information;
  - export and import of session data.
- **The three history reports of the portal** (`portal_details.dfy`, module `PortalDetails`): the walk over year-months, the summary cards, the page count, and cutting each page's flat cells into records of 6, 4 or 3 cells.
- **Shared pieces** (`accounts.dfy`, module `Accounts`): the username domain check, the HTTP error message, and the session-data record with its required-key check.
- **The Python built-ins the code relies on** (`py.dfy`, `py_text.dfy`): exceptions, `str.split`/`join`, slicing with negative bounds, `int()`, `isdigit()`, and `int(a / b)` truncation.

How the model is built:

- The network, the HTML parser and the regular-expression engine are one value, `Web.Net`.
- Every operation that talks to the server returns the list of requests it sent. This makes "fails before any request" a checked property.
- Each client is a Dafny class whose fields are the attributes the methods change.
- Each constructor is a pure function (`Bootstrap`, `PortalBootstrap`) plus a static `Create`.
- The nested report loops are methods. Each is proved equal to a recursive specification function (`DetailsSpec`, `PeriodSpec`, `PagesFrom`, `Chunk`), and the lemmas about the reports are stated on those functions.

Three behaviours of the code worth noting:

- **Exception kinds.** The code raises Python's `RuntimeError`, `ValueError`, `TypeError`, `AttributeError` and `IndexError`, not a dedicated taxonomy.
- **No login guard on two accessors.** `get_user_info` and `get_remaining_time` of the captive-portal client do not check the login state. The remaining-time query only needs the session-identifier attribute to exist, and after a logout that attribute is the empty string.
- **The portal gate never opens.** On success, `submit_captcha` and `set_session_data` store an empty dictionary, which is falsy. Only `get_account_data`, which is itself behind the gate, stores a non-empty one. So every gated operation fails from every reachable state. The contracts of `FromInit`, `SubmitCaptcha`, `SetSessionData`, `LoadSessionData` and `GetAccountData` each keep the gate closed. `Apply` and `ApplyAll` combine them: no sequence of calls opens the gate. `CaptchaThenRecharge` and `ImportThenExport` are two such sequences written out.

## Model

| member | source | states |
|---|---|---|
| Py.First | src/stickNAUTA/NautaSession.py:49-50 | `xs[0]` is the first element exactly when the list is non-empty; otherwise IndexError |
| Py.OutcomeOf | src/stickNAUTA/NautaSession.py:109-117 | an operation that returns nothing passes exactly when its result is not an exception, and fails with that exception otherwise |
| PyText.IndexOf | src/stickNAUTA/NautaSession.py:112 | the search behind `'online.do' in response.url` finds the first position where the substring occurs, and None only when it occurs nowhere |
| PyText.ContainsIff | src/stickNAUTA/NautaSession.py:112 | `sub in s` holds exactly when `sub` occurs at some position of `s` |
| PyText.ParseIntOfDigits | src/stickNAUTA/NautaSession.py:161 | `int()` of a digit string is its decimal value |
| PyText.NatToString | src/stickNAUTA/PortalNauta.py:265-266 | the f-string text of a natural number is a non-empty digit string |
| PyText.ParseIntOfIntToString | src/stickNAUTA/PortalNauta.py:265-266 | parsing the text an f-string writes for an integer gives the integer back |
| PyText.DigitsValueOfNatToString | src/stickNAUTA/PortalNauta.py:265-266 | the digits written for `n` have the value `n` |
| PyText.TruncDiv | src/stickNAUTA/PortalNauta.py:264 | `int(a / b)` truncates toward zero: the quotient brackets `a` from below for non-negative `a` and from above for negative `a` |
| PyText.SliceBound | src/stickNAUTA/NautaSession.py:71-74 | a normalised slice bound lies between 0 and the length |
| PyText.Slice | src/stickNAUTA/NautaSession.py:71-74 | `s[start:stop]` has length `max(0, hi - lo)` after normalising negative bounds, and holds the characters of `s` from `lo` on |
| PyText.ParseInt | src/stickNAUTA/NautaSession.py:161 | `int()` of an optional sign followed by digits is the signed decimal value, and None (the ValueError) for anything else; its partners are `ParseIntOfDigits` and `ParseIntOfIntToString` |
| PyText.IsDigitString | src/stickNAUTA/PortalNauta.py:88 | `recharge_code.isdigit()`: a non-empty string of digits; `ParseIntOfDigits` gives the value of such a string and `RechargeCodeCheck` uses it for the digit check |
| PyText.Split | src/stickNAUTA/NautaSession.py:161 | `str.split` gives at least one piece |
| PyText.Join | src/stickNAUTA/PortalNauta.py:73-75 | `sep.join(parts)`: the pieces with one separator between neighbours; `JoinSplit` and `SplitJoin` tie it to `Split` |
| PyText.JoinSplit | src/stickNAUTA/NautaSession.py:161 | joining the pieces of a split with the separator gives the original text |
| PyText.SplitPiecesAvoidSeparator | src/stickNAUTA/PortalNauta.py:71-72 | no piece of a split contains the separator |
| PyText.SplitJoin | src/stickNAUTA/PortalNauta.py:71-72 | splitting a joined list gives the list back when no piece contains the separator's first character |
| PyText.JoinSnoc | src/stickNAUTA/PortalNauta.py:73-75 | joining one more piece appends the separator and that piece |
| Accounts.ValidUsername | src/stickNAUTA/NautaSession.py:33 | `username.endswith(('@nauta.com.cu', '@nauta.co.cu'))`, the domain check both constructors and `transfer_balance` use; `ValidUsernameSuffix` and `ValidUsernameExamples` state what it accepts |
| Accounts.ValidUsernameSuffix | src/stickNAUTA/NautaSession.py:33 | a username is accepted exactly when it is some text followed by `@nauta.com.cu` or `@nauta.co.cu` |
| Accounts.ValidUsernameExamples | src/stickNAUTA/NautaSession.py:33-34 | the suffix check accepts the bare suffix and rejects look-alike domains |
| Accounts.HttpError | src/stickNAUTA/NautaSession.py:44-46 | the RuntimeError both clients raise for a response that is not ok: `Failed to <what> with HTTP code: <status>, reason: "<reason>".` |
| Accounts.CheckCredentials | src/stickNAUTA/PortalNauta.py:22-28 | both type checks come before the domain check, each with its exception; the check passes exactly for two strings with a Nauta username |
| Accounts.FirstMissing | src/stickNAUTA/NautaSession.py:183-186 | the first required key that is absent, every key before it present; None exactly when all are present |
| Accounts.FindMissingKey | src/stickNAUTA/NautaSession.py:184-186 | the key loop stops at the first missing key, as `FirstMissing` says |
| NautaSessionModel.TrimField | src/stickNAUTA/NautaSession.py:71-74 | `s[13:-t]` has length `max(0, len(s) - 13 - t)` and starts at index 13 |
| NautaSessionModel.TrimFieldOfPadded | src/stickNAUTA/NautaSession.py:71-74 | trimming removes exactly 13 leading and `t` trailing characters of padding |
| NautaSessionModel.SessionEntries | src/stickNAUTA/NautaSession.py:82-87 | `len(cells) // 3` entries; entry `i` is cells `i`, `i+1`, `i+2`, all in bounds |
| NautaSessionModel.SessionEntriesOverlap | src/stickNAUTA/NautaSession.py:82-87 | consecutive entries overlap: each entry's end is the next one's start |
| NautaSessionModel.SessionEntriesReadPrefix | src/stickNAUTA/NautaSession.py:75-87 | only the first `len(cells) // 3 + 2` cells are ever read |
| NautaSessionModel.UserInfoOf | src/stickNAUTA/NautaSession.py:70-88 | the scrape succeeds exactly when the four info cells exist, otherwise IndexError; each field is its trimmed cell, and the history is `SessionEntries` of the history cells |
| NautaSessionModel.ParseAll | src/stickNAUTA/NautaSession.py:161 | the list comprehension of `int()` succeeds exactly when every part parses, giving their values in order; otherwise ValueError |
| NautaSessionModel.SecondsOf | src/stickNAUTA/NautaSession.py:161-162 | succeeds exactly for three integer parts, giving `H * 3600 + M * 60 + S`; otherwise ValueError |
| NautaSessionModel.SecondsOfClock | src/stickNAUTA/NautaSession.py:161-162 | any text splitting into three integers `H`, `M`, `S` is `H * 3600 + M * 60 + S` seconds |
| NautaSessionModel.SplitClock | src/stickNAUTA/NautaSession.py:161 | `H:M:S` with digit parts splits at the colons into exactly those parts |
| NautaSessionModel.SecondsOfExample | src/stickNAUTA/NautaSession.py:159-164 | `"01:02:03"` is 3723 seconds |
| NautaSessionModel.RemainingTimeOf | src/stickNAUTA/NautaSession.py:159-164 | without `in_seconds` the text is returned unchanged; with it, the seconds or the conversion's ValueError |
| NautaSessionModel.Bootstrap | src/stickNAUTA/NautaSession.py:27-88 | the credential checks come before any request; construction succeeds exactly when the credentials pass, the landing page is ok with both tokens, and (when info is asked for) the query answer is ok, carries no alert and has the four info cells; a failed landing page is the `init session` HTTP error, missing tokens an IndexError, a failed query the `get user data (credit)` HTTP error, an alert the RuntimeError quoting it; a client keeps the given username and password, the tokens, and info exactly when asked |
| NautaSessionModel.LoginResult | src/stickNAUTA/NautaSession.py:109-116 | login succeeds exactly when the response is ok, its URL contains `online.do` and the identifier is found. A 4xx or 5xx status raises `Login failure with HTTP code: …`. A URL without `online.do` raises `Login failure reason: "<alert>".`, or the AttributeError of `.group` when there is no alert. A URL with `online.do` but no identifier raises that AttributeError too |
| NautaSessionModel.LogoutResult | src/stickNAUTA/NautaSession.py:129-134 | logout succeeds exactly when the response is ok and the body contains `SUCCESS`; a missing marker fails with the raw body |
| NautaSessionModel.CompleteIffNoneMissing | src/stickNAUTA/NautaSession.py:183-186 | no key is missing exactly when all five keys are present |
| NautaSessionModel.ImportCheck | src/stickNAUTA/NautaSession.py:183-189 | passes exactly for complete data of this account; otherwise ValueError naming the first missing key, or a foreign username |
| NautaSessionModel.NautaSession.Valid | src/stickNAUTA/NautaSession.py:115-116 | a logged-in client holds a session identifier; `FromInit`, `Create`, `Login`, `Logout`, `SetSessionData` and `LoadSessionData` keep it |
| NautaSessionModel.NautaSession.FromInit | src/stickNAUTA/NautaSession.py:27-88 | a new client is logged out, holds no identifier and an empty cookie jar, and keeps the constructor's tokens and info |
| NautaSessionModel.NautaSession.Create | src/stickNAUTA/NautaSession.py:27-88 | a fresh logged-out client exactly when the bootstrap succeeds, otherwise its exception; the requests are the bootstrap's |
| NautaSessionModel.NautaSession.Login | src/stickNAUTA/NautaSession.py:97-117 | already logged in: fails before any request and changes nothing; otherwise one POST, logged in with the captured identifier exactly on success, nothing changed on failure |
| NautaSessionModel.NautaSession.Logout | src/stickNAUTA/NautaSession.py:119-137 | not logged in: fails before any request; otherwise one GET carrying the four tokens; on success logged out with the identifier emptied, on failure nothing changed |
| NautaSessionModel.NautaSession.GetUserInfo | src/stickNAUTA/NautaSession.py:139-143 | returns the scraped info exactly when the constructor acquired it, otherwise AttributeError |
| NautaSessionModel.NautaSession.GetRemainingTime | src/stickNAUTA/NautaSession.py:145-164 | no login guard; one POST with the current identifier; HTTP error, or the remaining time read from the body |
| NautaSessionModel.NautaSession.GetSessionData | src/stickNAUTA/NautaSession.py:166-177 | logged out: RuntimeError; logged in: the username, cookies and three tokens |
| NautaSessionModel.NautaSession.SetSessionData | src/stickNAUTA/NautaSession.py:179-195 | logged in: RuntimeError; otherwise the key and account checks; only when all pass are cookies and tokens adopted and the client logged in; on failure nothing changes |
| NautaSessionModel.NautaSession.LoadSessionData | src/stickNAUTA/NautaSession.py:201-207 | a document that is not a dict is refused with ValueError and nothing changes; a dict is imported as `set_session_data` does |
| NautaSessionModel.ExportThenImport | src/stickNAUTA/NautaSession.py:166-195 | exporting from a logged-in client and importing into a logged-out one of the same account logs it in with the same cookies and tokens |
| NautaSessionModel.ImportThenExport | src/stickNAUTA/NautaSession.py:166-195 | importing complete data for this account and exporting it again gives the same data back |
| NautaSessionModel.LoginTwice | src/stickNAUTA/NautaSession.py:97-117 | after a successful login, a second login fails before sending anything, whatever the server answers |
| PortalDetails.Width | src/stickNAUTA/PortalNauta.py:273 | a record takes as many cells as it has fields, at least three |
| PortalDetails.RecordOfFields | src/stickNAUTA/PortalNauta.py:274-281 | a record's keys are exactly the kind's fields, and field `f` holds cell `f` |
| PortalDetails.SummaryOf | src/stickNAUTA/PortalNauta.py:255-262 | the summary's keys are exactly the kind's card names, and card `i` holds cell `i` |
| PortalDetails.CellsOf | src/stickNAUTA/PortalNauta.py:274-281 | a well-formed record read back in field order gives its `w` cells |
| PortalDetails.Chunk | src/stickNAUTA/PortalNauta.py:273-281 | the page's cells cut into consecutive groups of `w`, each made a record; a short last group is the IndexError of `rows[j + f]`; its partners are `ChunkShape`, `ChunkCells`, `ChunkRecordAt` and `ChunkFlatten` |
| PortalDetails.ChunkShape | src/stickNAUTA/PortalNauta.py:273-281 | a page yields records exactly when its cell count is a multiple of the width, and then `len / w` of them; otherwise IndexError |
| PortalDetails.ChunkCells | src/stickNAUTA/PortalNauta.py:273-281 | every record built is well formed, and their cells in order are the page's cells |
| PortalDetails.ChunkRecordAt | src/stickNAUTA/PortalNauta.py:273-281 | record `i` is built from cells `i * w` to `(i + 1) * w`, so its field `f` is cell `i * w + f` |
| PortalDetails.CellsOfRecordOf | src/stickNAUTA/PortalNauta.py:274-281 | reading back a record built from a group of cells gives the group |
| PortalDetails.RecordOfCellsOf | src/stickNAUTA/PortalNauta.py:274-281 | rebuilding a well-formed record from its cells gives the record |
| PortalDetails.ChunkFlatten | src/stickNAUTA/PortalNauta.py:273-281 | the cells of any list of well-formed records are cut back into exactly those records |
| PortalDetails.PageCount | src/stickNAUTA/PortalNauta.py:264 | pages `1 .. int(n / 15) + 1`: for `n >= 0` at least one page and `(p - 1) * 15 <= n < p * 15`, so 0 gives 1 page, 15 gives 2 and 30 gives 3; no pages exactly when `n <= -15` |
| PortalDetails.PageSpec | src/stickNAUTA/PortalNauta.py:265-281 | one GET of the page URL; the page succeeds exactly when the response is ok and its cell count is a multiple of the width. A 4xx or 5xx status gives the list's HTTP error; an ok page gives `Chunk` of its cells, so the records are cut at stride `w` |
| PortalDetails.PagesFrom | src/stickNAUTA/PortalNauta.py:264-281 | the page loop over pages `i .. last`: each page's records are appended in turn, and the first failing page stops the loop with its exception; `PagesFromOk`, `PagesFromRecords` and `PagesFromErr` state its outcome |
| PortalDetails.PagesFromOk | src/stickNAUTA/PortalNauta.py:264-281 | the page loop succeeds exactly when every page in range succeeds; it then sent one request per page, in page order |
| PortalDetails.PagesFromRecords | src/stickNAUTA/PortalNauta.py:264-281 | a page loop that succeeds yields the records collected before it followed by every page's records, in page order |
| PortalDetails.PagesFromErr | src/stickNAUTA/PortalNauta.py:264-281 | a failing loop stops at the first failing page, with exactly the requests of the pages before it and of that page |
| PortalDetails.PagesSentOfReader | src/stickNAUTA/PortalNauta.py:264-266 | the requests of `n` successful pages are the GETs of consecutive page URLs |
| PortalDetails.PagesFromRequests | src/stickNAUTA/PortalNauta.py:264-266 | a successful month fetched pages `1 .. last` in order, one GET each |
| PortalDetails.PeriodSpec | src/stickNAUTA/PortalNauta.py:245-281 | the summary POST is the first request; a month that is read had all its cards and a numeric count, and its summary holds the cards by name |
| PortalDetails.PeriodSucceeds | src/stickNAUTA/PortalNauta.py:245-281 | a month is read exactly when the summary answers ok with all its cards and an integer count, and every page `1 .. int(n / 15) + 1` succeeds |
| PortalDetails.PeriodErrors | src/stickNAUTA/PortalNauta.py:245-281 | a month fails in source order, each after the summary request alone: the summary's HTTP error, IndexError for a missing card, then the ValueError of `int()` on the count. Past those checks it fails with the first failing list page's error, after the earlier pages' requests |
| PortalDetails.PeriodRecords | src/stickNAUTA/PortalNauta.py:264-281 | the records of a month that is read are every page's records, pages `1 .. int(n / 15) + 1` in order |
| PortalDetails.PeriodRequests | src/stickNAUTA/PortalNauta.py:245-266 | the summary POST comes first; on success it is followed by one GET per page `1 .. int(n / 15) + 1` |
| PortalDetails.PeriodsFrom | src/stickNAUTA/PortalNauta.py:241-262 | the year-month loop: each offered year-month is read in turn and stored under its name; the first failure stops the loop with its exception; `PeriodsFromOk`, `PeriodsFromErr` and `PeriodsFromKeys` state its result |
| PortalDetails.PeriodsFromKeys | src/stickNAUTA/PortalNauta.py:241-262 | a successful walk has one entry per offered year-month, each the month's own result |
| PortalDetails.PeriodsFromOk | src/stickNAUTA/PortalNauta.py:241-262 | the walk completes exactly when every offered year-month is read, and then it has sent each month's requests in the offered order |
| PortalDetails.PeriodsFromErr | src/stickNAUTA/PortalNauta.py:241-262 | a failing walk stops at the first month that cannot be read: every earlier month was read, it raises that month's error, and it has sent the earlier months' requests followed by that month's |
| PortalDetails.DetailsSpec | src/stickNAUTA/PortalNauta.py:235-283 | a report: the timestamp GET (its HTTP error if not ok), then the year-month loop over the offered options; `DetailsSucceeds` and `DetailsKeys` state its result |
| PortalDetails.DetailsKeys | src/stickNAUTA/PortalNauta.py:235-283 | a successful report starts with the timestamp GET and has exactly the offered year-months, each the month fetched on its own |
| PortalDetails.DetailsSucceeds | src/stickNAUTA/PortalNauta.py:235-283 | a report completes exactly when the timestamp GET is ok and every year-month it offers is read |
| PortalDetails.DetailsErrors | src/stickNAUTA/PortalNauta.py:235-283 | a report fails with the timestamp page's HTTP error after that one request; otherwise it fails at the first offered month that cannot be read, with that month's error and the requests up to it |
| PortalNautaModel.Description | src/stickNAUTA/PortalNauta.py:73-75 | the description text: every sub-message in double quotes, separated by `, `; `DescriptionOfSubMessages` is its round trip |
| PortalNautaModel.ErrorDescription | src/stickNAUTA/PortalNauta.py:71-75 | the description loop builds `"e1", "e2", ...` from the split sub-messages |
| PortalNautaModel.DescriptionOfSubMessages | src/stickNAUTA/PortalNauta.py:71-75 | for sub-messages without `<`, splitting the markup and describing quotes exactly those messages, in order |
| PortalNautaModel.ToastrOutcome | src/stickNAUTA/PortalNauta.py:102-111 | passes exactly when no error toast is on the page; a toast without sub-messages is the AttributeError of `.group`; otherwise RuntimeError with the main message and description |
| PortalNautaModel.CheckToastr | src/stickNAUTA/PortalNauta.py:102-111 | the toast check as written computes `ToastrOutcome` |
| PortalNautaModel.ActionOutcome | src/stickNAUTA/PortalNauta.py:98-111 | an account action fails on an HTTP error, and otherwise on an error toast |
| PortalNautaModel.RechargeCodeCheck | src/stickNAUTA/PortalNauta.py:86-91 | passes exactly for a string of 12 to 16 digits; the type check comes first, then the digit check, then the length check |
| PortalNautaModel.RechargeCodeExamples | src/stickNAUTA/PortalNauta.py:86-91 | letters and the empty code are refused as non-digits; 11 digits are too short; 12 and 16 pass; 17 are too long |
| PortalNautaModel.FieldsOf | src/stickNAUTA/PortalNauta.py:218-227 | the account dictionary is built exactly when every path finds a cell (otherwise IndexError), with one key per field |
| PortalNautaModel.FieldsOfValues | src/stickNAUTA/PortalNauta.py:218-227 | with distinct keys, each key holds the first cell of its own path |
| PortalNautaModel.AccountDataOf | src/stickNAUTA/PortalNauta.py:217-227 | the account information has exactly the eight keys, each the first cell of its path, or IndexError |
| PortalNautaModel.AccountKeys | src/stickNAUTA/PortalNauta.py:218-227 | the keys read are the eight account keys |
| PortalNautaModel.AccountKeysDistinct | src/stickNAUTA/PortalNauta.py:218-227 | the eight keys are pairwise distinct |
| PortalNautaModel.PortalBootstrap | src/stickNAUTA/PortalNauta.py:21-44 | the credential checks come before any request; then one GET of the login page in the chosen language; construction succeeds exactly when the credentials pass, the page is ok and has a `csrf` element; a failed page is the `init session` HTTP error, a missing token an IndexError; a client keeps the given username and password and the first `csrf` element |
| PortalNautaModel.PortalImportCheck | src/stickNAUTA/PortalNauta.py:394-400 | passes exactly when `username` (checked first) and `cookies` are present and the username is this account's |
| PortalNautaModel.PortalKeysPresent | src/stickNAUTA/PortalNauta.py:394-397 | the first missing key is `username` if absent, else `cookies` if absent |
| PortalNautaModel.AppendRecords | src/stickNAUTA/PortalNauta.py:273-281 | the stride loop appends exactly the records `Chunk` cuts, or raises its IndexError |
| PortalNautaModel.AppendStep | src/stickNAUTA/PortalNauta.py:273-281 | one turn of the stride loop consumes the next `w` cells as one record |
| PortalNautaModel.AppendShort | src/stickNAUTA/PortalNauta.py:273-281 | fewer than `w` cells left raises IndexError |
| PortalNautaModel.PortalNauta.Open | src/stickNAUTA/PortalNauta.py:83 | the truthiness test `not self.__account_data`. The substance is in the gated methods' contracts (`RechargeAccount`, `ChangeAccountPassword`, `ChangeEmailPassword`, `TransferBalance`, `GetAccountData`, the three `Get…Details`, `GetSessionData`): with the gate closed each fails with its gate error and sends nothing. `Apply` and `ApplyAll` show that the gate never opens |
| PortalNautaModel.PortalNauta.FromInit | src/stickNAUTA/PortalNauta.py:21-44 | a new client has no account data (gate closed), an empty cookie jar, and the constructor's credentials and token |
| PortalNautaModel.PortalNauta.Create | src/stickNAUTA/PortalNauta.py:21-44 | a fresh client with the gate closed exactly when the bootstrap succeeds, otherwise its exception |
| PortalNautaModel.PortalNauta.SubmitCaptcha | src/stickNAUTA/PortalNauta.py:53-80 | non-string CAPTCHA: TypeError before any request; otherwise one POST; the toast is checked only when the answer is on the login URL; on success the data is `{}` and the gate stays closed; on failure nothing changes |
| PortalNautaModel.PortalNauta.RechargeAccount | src/stickNAUTA/PortalNauta.py:82-111 | gate closed: AttributeError before anything else; bad code: its check's exception and no request; otherwise one POST and its outcome |
| PortalNautaModel.PortalNauta.Act | src/stickNAUTA/PortalNauta.py:98-111 | an action's answer is read as `ActionOutcome` says |
| PortalNautaModel.PortalNauta.ChangeAccountPassword | src/stickNAUTA/PortalNauta.py:113-140 | gate, then type check, each before any request; then one POST with the stored password as the old one |
| PortalNautaModel.PortalNauta.ChangeEmailPassword | src/stickNAUTA/PortalNauta.py:142-171 | gate, then both type checks in order, each before any request; then one POST to the mail URL (doubled slash) |
| PortalNautaModel.PortalNauta.TransferBalance | src/stickNAUTA/PortalNauta.py:173-205 | gate, target type, amount type, target domain, in that order, each before any request; then one POST |
| PortalNautaModel.PortalNauta.GetAccountData | src/stickNAUTA/PortalNauta.py:207-229 | gate closed: AttributeError and nothing changes; without refresh, the cached data and no request; with refresh, one GET whose scrape replaces the cache only on success; the gate stays open |
| PortalNautaModel.PortalNauta.FetchPeriod | src/stickNAUTA/PortalNauta.py:245-281 | the loop body for one month computes exactly `PeriodSpec` |
| PortalNautaModel.PortalNauta.FetchPages | src/stickNAUTA/PortalNauta.py:264-281 | the page loop computes exactly `PagesFrom` over pages `1 .. last` |
| PortalNautaModel.PortalNauta.FetchDetails | src/stickNAUTA/PortalNauta.py:235-283 | the year-month loop computes exactly `DetailsSpec`; it changes no field, so a failure midway leaves the client unchanged |
| PortalNautaModel.PortalNauta.GetConnectionDetails | src/stickNAUTA/PortalNauta.py:231-283 | gate closed: AttributeError before any request; otherwise the connections report |
| PortalNautaModel.PortalNauta.GetRechargeDetails | src/stickNAUTA/PortalNauta.py:285-331 | gate closed: AttributeError before any request; otherwise the recharges report |
| PortalNautaModel.PortalNauta.GetTransferDetails | src/stickNAUTA/PortalNauta.py:333-378 | gate closed: AttributeError before any request; otherwise the transfers report |
| PortalNautaModel.PortalNauta.GetSessionData | src/stickNAUTA/PortalNauta.py:380-388 | gate closed: RuntimeError; otherwise the username and cookie jar only |
| PortalNautaModel.PortalNauta.SetSessionData | src/stickNAUTA/PortalNauta.py:390-403 | gate open: RuntimeError; otherwise the key and account checks; only when all pass are the cookies replaced and the data set to `{}`, which keeps the gate closed; on failure nothing changes |
| PortalNautaModel.PortalNauta.LoadSessionData | src/stickNAUTA/PortalNauta.py:409-415 | a document that is not a dict is refused with ValueError and nothing changes; a dict is imported as `set_session_data` does |
| PortalNautaModel.CaptchaThenRecharge | src/stickNAUTA/PortalNauta.py:80-84 | after an accepted CAPTCHA, a recharge still fails at the gate without sending anything |
| PortalNautaModel.ImportThenExport | src/stickNAUTA/PortalNauta.py:380-403 | a successful import into a fresh client is followed by a failing export: the import leaves the gate closed |
| PortalNautaModel.Apply | src/stickNAUTA/PortalNauta.py:80-84 | any one call a user can make on the client leaves a closed gate closed, whatever the server answers |
| PortalNautaModel.ApplyAll | src/stickNAUTA/PortalNauta.py:80-84 | from a closed gate, no sequence of calls opens it; since every client starts closed, every gated operation fails in every reachable state |

## Left out

- HTTP transport: `requests.Session`, redirects, headers (the `User-Agent` of the portal client), TLS and timeouts. A response is an input value; the requests sent are reported, not performed.
- Cookies the server sets in its responses. The jar changes only through the session-data import.
- HTML parsing. An XPath query is an input function from a path and a page to strings. A selected element's `.value` and an option's `attrib['value']` are taken as what the query returns. The year-month options are read with `attrib['value']` (src/stickNAUTA/PortalNauta.py:242, 296, 344), which raises KeyError when the attribute is missing; that KeyError is not modelled. The tokens are read with lxml's `.value` (src/stickNAUTA/NautaSession.py:49-50, src/stickNAUTA/PortalNauta.py:44), which gives None for an input without the attribute rather than raising; that None is not modelled either.
- The regular-expression engine. A search is an input function that returns the first group or nothing.
- `get_captcha_image`: one GET returning image bytes, with no logic beyond the HTTP check.
- The context-manager protocol (`__enter__`/`__exit__`), which only calls `login` and `logout`.
- `save_session_data_to_file` and the file side of `load_session_data_from_file`. JSON decoding is an input: a dict with the known keys, or any other value. Keys beyond the five read, and values of the wrong JSON type, are not modelled.
- PyText.ParseInt: accepts an optional sign and ASCII digits. Python's `int()` also accepts surrounding whitespace, underscores between digits and non-ASCII digits; those are not modelled.
- PyText.IsDigitString: `str.isdigit()` over ASCII digits only; other Unicode digits are not modelled.
- PyText.ParseIntError: the message quotes the text with plain quotes where Python uses its `repr`.
- PyText.TruncDiv: `int(n / 15)` goes through a float in Python. Counts beyond 2^53 could round differently; the model divides exactly.
- Dictionary ordering. Maps in the model are unordered, so the key order of the returned dictionaries is not modelled.
- The server is a function of the request: within one run the same request always gets the same answer. A server whose answers change over time (for a year-month offered twice, say) is not modelled.
- Aliasing: `get_account_data` and `get_user_info` return the stored dictionary itself, so a caller could mutate it. The model returns a value.
