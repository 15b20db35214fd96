# Homework-status bot: a Dafny model of its decision logic

The bot (`homework.py`) polls the homework-review API of a course platform
every ten minutes. It reads the status of the newest submission and forwards
a message to a Telegram chat. This project models the bot's decision logic
and proves properties of it:

- the credential check that gates start-up (`check_tokens`);
- the classification of what the HTTP layer returns (`get_api_answer`);
- the shape check of the decoded answer (`check_response`);
- the verdict table and the status message (`HOMEWORK_VERDICTS`, `parse_status`);
- one iteration of the polling loop of `main`. It owns the `timestamp`
  cursor, reports homework changes and reports its own failures to the same chat.

Files:

- `python_values.dfy` (module `PyValues`): the Python values the bot handles.
  These are decoded JSON documents, the exception object `get_api_answer` can
  return, subscripting by a string key (`KeyError` versus the interpreter's
  `TypeError`), `dict.get`, and `str()` of a value as an f-string inserts it.
- `homework.dfy` (module `Homework`): `check_tokens`, `get_api_answer`,
  `check_response`, the verdict table and `parse_status`. It also holds a
  reader that recovers the homework name and the status from a status message.
- `polling.dfy` (module `Polling`): one cycle as a function (`Cycle`) and the
  class `Bot`, whose `timestamp` field is the cursor. `Bot.Step` is the body
  of the `while True` loop. `RunBot` is `main` run for a bounded number of
  cycles, specified by the function `Run`.

The HTTP transport and message delivery are parameters of the model. One
cycle takes an `HttpOutcome`: either the request raised a `RequestException`,
or a reply came back with a status code and a body that does or does not
decode. It also takes a `Delivery`: the message was delivered, or
`bot.send_message` raised `ApiException`.

Some behaviours of the code are easy to misread; the model follows the code:

- The cursor moves only when the homework list is non-empty and the first
  record formats, because line 122 sits inside `if homework:`. An empty list
  leaves the cursor where it was, even when the answer has a `current_date`.
- The cursor holds whatever `current_date` the server sent
  (`response.get('current_date', timestamp)`), not only an integer. The model
  therefore keeps the cursor as a `Json` value. `RunCursorStaysInt` shows it
  stays an integer as long as every supplied `current_date` is one.
- Only a 204 reply and an undecodable body raise out of `get_api_answer`.
  A transport failure and a 4xx/5xx status are caught, and the exception
  object is returned. `check_response` then fails on `error['homeworks']` with
  the interpreter's "object is not subscriptable" `TypeError`. The chat sees
  that text, not the transport error. Other status codes (201, 3xx, ...) are
  treated as success.
- A missing name, a missing status and an unknown status all end in one bare
  `raise KeyError`. Its `str()` is empty, so the failure report is the prefix
  `Сбой в работе программы: ` alone.
- A record that is not a dict, and a status that is a list or a dict, raise
  a `TypeError` that `except KeyError` does not catch. The cycle still fails
  and reports the error text.

## Model

| member | source | states |
|---|---|---|
| `Homework.AllMeansEveryTruthy` | homework.py:51 | `all` over the token list is true exactly when every element is set and non-empty |
| `Homework.CheckTokens` | homework.py:49-51 | start-up is allowed iff all three of the API token, the Telegram token and the chat id are set and non-empty |
| `Homework.GetApiAnswer` | homework.py:64-78 | a transport failure gives back the caught exception object of its own class, and a 4xx/5xx status an `HTTPError` object; a 204 reply raises with an empty message and an undecodable body raises with the decoder's text; any other reply gives back its decoded body unchanged |
| `Homework.FailureText` | homework.py:85-103 | `str(error)` of each failure: the two texts `check_response` raises, nothing for the bare KeyError, the escaped exception's own text, and the quoted type name in the interpreter's subscript and hashing TypeErrors |
| `Homework.CodeFailureTextsDiffer` | homework.py:87-90 | the ValueError and the TypeError of `check_response` carry different, non-empty texts, while the KeyError of `parse_status` carries none |
| `Homework.CheckResponse` | homework.py:81-91 | succeeds iff the answer is a dict whose `homeworks` value is a list, and then returns that list unchanged; a missing key is the ValueError, a non-list value the TypeError of the function, and an answer that is not a dict (including a returned exception object) the interpreter's subscript TypeError |
| `Homework.VerdictLookup` | homework.py:23-27 | the table lookup succeeds exactly for the strings approved, reviewing and rejected, with their verdict; a list or dict status is unhashable (TypeError), any other unknown status a KeyError |
| `Homework.ParseStatus` | homework.py:94-103 | succeeds iff the record is a dict with a name and a status that is a known status string, and the message is then the prefix, the quoted name, ". " and that status's verdict; a missing name, a missing status or an unknown status is the bare KeyError; a non-dict record and an unhashable status are TypeErrors |
| `Homework.StatusMessage` | homework.py:100 | the message starts with the prefix and an opening quote, ends with the closing quote, ". " and the status's verdict, and holds exactly the name text in between |
| `Homework.TailsDistinct` | homework.py:23-27 | no two verdicts are suffixes of one message, so the verdict of a status message is unambiguous |
| `Homework.ReadStatusMessageInverts` | homework.py:100 | reading back any status message recovers the name text and the status code, so distinct name/status pairs never give the same message |
| `PyValues.Get` | homework.py:84 | a dict lookup finds a value iff the key is present, and the value is that of the last member with that key |
| `PyValues.SubscriptObject` | homework.py:84 | subscripting an exception object returned by `get_api_answer` is the TypeError naming its class; a document is subscripted as a JSON value |
| `PyValues.Subscript` | homework.py:97-98 | `v[key]` is a TypeError iff `v` is not a dict, a KeyError iff the dict lacks the key, and otherwise the dict's value for the key |
| `PyValues.GetOr` | homework.py:122 | `dict.get(key, default)` is the dict's value when the key is present and the default otherwise |
| `PyValues.Display` | homework.py:100 | the f-string inserts a string name as it is and any other name as its repr; an integer as its decimal text, `None` as "None" |
| `PyValues.IntText` | homework.py:100 | `str(n)`: the digits denote `n` for a non-negative `n`, and a minus sign precedes the digits of `-n` otherwise |
| `PyValues.NatDigits` | homework.py:100 | the decimal text of a natural number is non-empty, all digits, without a leading zero, and denotes the number |
| `PyValues.Repr` | homework.py:100 | the repr of a non-string name: a string quoted, a list between brackets and a dict between braces, empty brackets or braces exactly when nothing is inside |
| `PyValues.ReprItems` | homework.py:100 | the elements of a list name, separated by ", ": empty for no elements, never empty for two or more, starting with the first element's repr |
| `PyValues.ReprEntries` | homework.py:100 | the members of a dict name, separated by ", ": empty exactly for no members, starting with the first key quoted and followed by ": " |
| `Polling.Cycle` | homework.py:115-128 | with a well-shaped empty list nothing is sent and the cursor stays; with a first record that formats, exactly that record's message is sent and the cursor becomes `current_date` if supplied, else stays; every other cycle keeps the cursor and sends one message starting with the failure prefix; no message is sent iff the list is empty; the cursor changes only to a supplied `current_date` |
| `Polling.Failed` | homework.py:125-128 | a caught exception keeps the cursor and reports the failure prefix followed by the exception's text |
| `Polling.Received` | homework.py:57-61 | a delivered message reaches the chat; an `ApiException` is swallowed and the chat receives nothing |
| `Polling.Bot.constructor` | homework.py:111-112 | the cursor starts at the current time, with no request made and nothing in the chat |
| `Polling.Bot.SendMessage` | homework.py:54-61 | the chat gains the message if it was delivered and is unchanged otherwise |
| `Polling.Bot.Step` | homework.py:114-129 | one loop iteration requests the window at the old cursor, leaves the cursor where `Cycle` puts it whatever the delivery outcome, and appends to the chat what `Cycle` sends and was delivered |
| `Polling.Run` | homework.py:114-129 | a run makes one request per cycle |
| `Polling.RunBot` | homework.py:106-129 | without all three credentials no request is made and nothing is sent; otherwise the cursor starts at `now` and the cursor, requests and chat are those of `Run` |
| `Polling.TransportFailureReported` | homework.py:72-74 | for every cursor and every exception class, a transport failure keeps the cursor and reports the subscript TypeError about that class, not the transport error |
| `Polling.ErrorStatusReported` | homework.py:71-74 | for every 4xx/5xx status and every body, the cursor stays and the report is the subscript TypeError about the returned `HTTPError` object |
| `Polling.CycleMessageIgnoresCursor` | homework.py:118-120 | what a cycle sends does not depend on the cursor, so nothing is deduplicated against earlier cycles |
| `Polling.RepeatedReplyReportsTwice` | homework.py:118-120 | the same reportable reply polled twice puts the same message in the chat twice |
| `Polling.RunCursorOrigin` | homework.py:112-122 | after any run the cursor is the start time or a `current_date` one of the replies supplied |
| `Polling.RunCursorStaysInt` | homework.py:122 | the cursor stays an integer when every supplied `current_date` is an integer |
| `Polling.RunCursorIgnoresDelivery` | homework.py:57-61 | delivery failures never change the cursor or the requested windows of a run |
| `Polling.RunFailingKeepsWindow` | homework.py:115-128 | while no reply is well-shaped, the cursor never moves and every request reuses the start window |
| `Polling.RunChatCount` | homework.py:118-128 | the chat never receives more messages than there were cycles, and receives one per cycle when every delivery succeeds and no reply is a well-shaped empty list |
| `Polling.ApprovedScenario` | homework.py:115-122 | an approved `proj1` with `current_date` 1000 and cursor 500 sends the approved message for `proj1` and moves the cursor to 1000 |
| `Polling.UnknownStatusScenario` | homework.py:99-103 | a `pending` status sends the bare failure prefix and keeps the cursor |
| `Polling.NoContentScenario` | homework.py:75-77 | a 204 reply is a failed cycle, not "no updates" |
| `Polling.ConnectionFailureScenario` | homework.py:72-74 | a connection failure is reported as the subscript TypeError on the returned exception object, and the cursor stays |
| `Polling.EmptyListScenario` | homework.py:118-124 | an empty list with a `current_date` sends nothing and keeps the cursor |

## Left out

- Logging (`logging.basicConfig`, the rotating file handler, every `logging.*` call): side effects with no bearing on results.
- Loading the environment with `dotenv` and `os.getenv`: the three tokens are parameters of `CheckTokens` and `RunBot`.
- `sys.exit` on missing tokens is modelled as `RunBot` making no request. The process exit itself is not modelled.
- `time.time()` is the parameter `now`. `time.sleep(RETRY_PERIOD)` and the ten-minute period are not modelled, because they have no effect on state.
- The endless `while True` loop: `RunBot` runs one cycle per given reply, a bounded prefix of the loop.
- The HTTP transport: the request, its headers, `ENDPOINT` and `HEADERS` are not modelled. A reply is given as a status code and a body. `raise_for_status` is taken to raise exactly for the codes 400 to 599.
- The TeleBot client: delivery is given as `Delivered` or `ApiException`. Any other exception raised by `bot.send_message` is not modelled. Such an exception would escape `send_message` and, when raised from the `except` branch, would end the process.
- The wording of exceptions raised by the interpreter or by libraries: subscript and unhashable `TypeError` texts follow CPython 3.11. The text of a JSON decoding error is a parameter.
- `PyValues.Repr`: the repr of a non-string homework name quotes nested strings with single quotes, without Python's escaping or its choice of quote character. A decoded object with duplicate keys is shown with all its members. A float is shown by the repr text it carries, so its contract says nothing about floats.
- JSON floats are carried as their repr text; floating-point arithmetic is never needed.
- `exceptions.py`: its two exception classes are never used by `homework.py`.
