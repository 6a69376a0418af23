# homework_bot — a Dafny model of the poll / diff / notify loop

The bot polls the Practicum homework-status API, compares the `homeworks`
value of each answer with the one it saw last, turns the first record of a
changed list into a Telegram message, and reports failures to the same chat.
This project models that logic from `homework.py` and the exception texts of
`exceptions.py`, and proves what one cycle and a finite run of the loop do.

- `exceptions.dfy` — module `Exceptions`: the five custom exception classes as
  the datatype `BotError`; `Txt()` is the fixed text each class stores.
- `json.dfy` — module `JsonValue`: decoded JSON (`JNull`, `JStr`, `JList`,
  `JObject` as a map, `JOther` for numbers and booleans by their `str()` text),
  Python's `str()` for f-strings and `dict.get`.
- `homework.py` logic — module `Homework` in `homework.dfy`: the status
  catalogue `Statuses`, `ParseStatus`, `CheckResponse`, `CheckTokens` over the
  environment, the `from_date` fallback `FromDate`, the loop state `State`
  (`cached_response`, `current_timestamp`), one pass of the loop body `Step`
  and the fold `RunFrom` over a finite sequence of polls. `ParseStatus` and
  `CheckResponse` end in `Result`: a value, a custom exception (`Raise`), or
  another exception (`Escape`: KeyError, TypeError). A connection error and a
  body that is not JSON are cases of the reply (`NoConnection`, a body of
  `None`), and the AttributeError of `.get` on a decoded body that is not a
  dict is a `Halted` result of `Step`.
- `loop.dfy` — module `Loop`: class `PollLoop` with the two local variables
  the loop updates in place, the messages handed to `send_message` (`outbox`)
  and a `halted` flag; `Cycle` and `Run` are imperative and proved against
  `Step` and `RunFrom`.
- `startup.dfy` — module `Startup`: the credentials guard of `main`, as
  written and as intended (see Findings).
- `properties.dfy` — module `Properties`: lemmas about the formatter, a single
  cycle, finite runs, and concrete scenarios.

Behaviour of the code that the model keeps, including where it is
surprising:

- Only the five custom exceptions carry `txt`. The loop's handler reads
  `error.txt`, so any other exception (a missing `homeworks` key after a
  list was cached, a non-dict record, a body that is not JSON, a connection
  error) makes the handler itself raise and ends `main`. The model calls
  this `Halted`.
- The timestamp moves to the clock only when nothing was raised; the
  handler leaves it where it was.
- The change test compares `response.get('homeworks')` with the cache, and
  the cache is overwritten before validation and formatting, so a failing
  cycle still consumes the change.
- `check_tokens` accepts empty strings, and `main` never calls it (see
  Findings).
- `send_message` catches only `SendMessageError`, which nothing raises.
- The `ListKeyError` test in `check_response` comes after the list test and
  never fires; `CheckResponse` keeps it and proves it unreachable.

## Model

| member | source | states |
|---|---|---|
| Exceptions.BotError.Txt | exceptions.py:1-38 | every custom exception carries a non-empty fixed text |
| Exceptions.TxtIdentifiesError | exceptions.py:1-38 | no two exception classes share a text, so a failure message identifies its exception |
| Homework.ParseStatus | homework.py:72-81 | succeeds exactly for a dict with both keys whose status is one of `approved`, `reviewing`, `rejected`, giving `Изменился статус проверки работы "<name>". <verdict>`; an other hashable status raises ParseMissStatusError; a missing key, a non-dict record or an unhashable status raises an exception without `txt` |
| Properties.CatalogueHasThreeDistinctVerdicts | homework.py:24-28 | the catalogue holds exactly `approved`, `reviewing` and `rejected`, with three different verdicts |
| Homework.Alert | homework.py:121 | the failure message never reads back as a status notice |
| Properties.NoticeAnnouncesStatus | homework.py:24-28 | the verdict a notice ends with names the status it was built from (status → message → status round trip) |
| Properties.NoticesTellStatusesApart | homework.py:77-80 | two different recognised statuses of one homework never give the same message |
| Homework.CheckResponse | homework.py:61-69 | returns the `homeworks` list unchanged exactly when it is a list; raises NotaListError exactly when the key holds a non-list (None included); KeyError/TypeError otherwise; never ListKeyError |
| Homework.CheckTokens | homework.py:84-90 | true iff all three settings PRACTICUM_TOKEN, TOKEN and CHAT_ID are present, whatever their values (empty strings pass) |
| Homework.FromDate | homework.py:49-52 | the request's `from_date` is the loop's timestamp, or the clock when the timestamp is 0; it is 0 only when the clock reads 0 |
| Homework.Step | homework.py:103-123 | a non-200 reply sends exactly `Сбой в работе программы: Статус код ответа != 200` and keeps the state; a cycle sends at most one message; a halted cycle sends none; the timestamp is either kept or set to the clock; a connection failure ends `main` with nothing sent; after a 200 reply the cache holds `response.get('homeworks')` |
| Properties.UnchangedCycleIsQuiet | homework.py:104-116 | when `homeworks` equals the cache, nothing is sent, the cache stays and the timestamp becomes the clock |
| Properties.OnlyFirstRecordMatters | homework.py:106-111 | for a changed non-empty list only element 0 decides what is sent and whether the loop ends |
| Properties.ChangedToEmptyIsQuiet | homework.py:106-116 | a changed empty list is cached and nothing is sent |
| Properties.ChangedListNotifiesFirst | homework.py:106-116 | a changed non-empty list whose first record formats is cached, exactly that record's notice is sent, and the timestamp becomes the clock |
| Properties.ChangedListWithUnknownStatusAlerts | homework.py:106-122 | a changed non-empty list whose first record has an unknown hashable status is cached, the ParseMissStatusError message is sent, and the timestamp stays |
| Properties.ChangedListWithMalformedRecordHalts | homework.py:106-120 | a changed non-empty list whose first record lacks a field, is not a dict or has an unhashable status ends `main` |
| Properties.ChangedNonListAlerts | homework.py:106-122 | a changed `homeworks` value that is present but not a list is cached, the NotaListError message is sent, and the timestamp stays |
| Properties.SecondIdenticalCycleIsQuiet | homework.py:104-116 | the same 200 reply on the next cycle sends nothing, even when the first cycle failed in validation or formatting |
| Properties.SentMessageKinds | homework.py:108-122 | a message sent is either a notice naming a recognised status, with the timestamp moved to the clock, or the failure text of a custom exception, with the timestamp kept |
| Properties.RunAppend | homework.py:103-123 | running polls `p` then `q` is running `p + q`, stopping at the first cycle that ends `main` |
| Homework.RunFrom | homework.py:103-123 | finitely many passes of the loop, stopping at the first that ends `main`; a run of `n` cycles sends at most `n` messages |
| Properties.OutageKeepsState | homework.py:49-123 | while every reply is non-200, each cycle sends the NoResponseError failure message and the cache and timestamp never change |
| Properties.CachedRunIsQuiet | homework.py:103-117 | cycles of 200 replies whose `homeworks` equals the cache send nothing, whatever else the responses hold; the timestamp ends at the last clock reading |
| Properties.RepeatedReplySendsOnce | homework.py:103-123 | repeating one 200 reply over a run sends only what its first cycle sent |
| Properties.ReviewingScenario | homework.py:103-117 | `{"homeworks": [{"homework_name": "hw1", "status": "reviewing"}]}` twice from the state `main` enters the loop with: one message `Изменился статус проверки работы "hw1". Работа взята на проверку ревьюером.`, then none |
| Properties.EmptyPayloadScenario | homework.py:105-116 | `{"homeworks": []}` on the first cycle from the state `main` enters the loop with: nothing sent, the cache becomes the empty list |
| Properties.UnknownStatusScenario | homework.py:72-81 | from the state `main` enters the loop with, an unknown status is reported once as `Сбой в работе программы: Недокументированный статус работы`; the same payload again sends nothing |
| Properties.VanishedKeyHalts | homework.py:104-120 | any dict response without `homeworks`, after a value other than None was cached, raises KeyError and ends `main` with nothing sent |
| Properties.NullHomeworksAlerts | homework.py:64-65 | after a list was cached, an explicit null under `homeworks` sends the NotaListError failure message, caches None and keeps the timestamp |
| Loop.PollLoop.constructor | homework.py:99-101 | the loop starts with nothing cached, the clock as timestamp and no message sent |
| Loop.PollLoop.Cycle | homework.py:103-123 | one in-place pass of the loop body: returns the `from_date` requested, and leaves the cache, timestamp, halted flag and outbox as `Step` says |
| Loop.PollLoop.Run | homework.py:103-125 | finitely many passes of `while True`, stopping when one ends `main`; the final state and the messages sent are those of `RunFrom` |
| Startup.GuardFiresAsWritten | homework.py:95 | the guard as written applies `not` to the function object, which is always truthy, so it is False for every environment |
| Startup.StartAsWritten | homework.py:93-101 | startup as written always enters the loop with nothing cached and the clock as timestamp, and agrees with the intended startup whenever all settings are present |
| Startup.MissingTokensDoNotStopStartup | homework.py:84-101 | for every environment that sets TOKEN but misses PRACTICUM_TOKEN or CHAT_ID, the token check fails and startup as written still enters the loop, while the intended startup stops |
| Startup.Guard | homework.py:95-97 | the intended guard applies `not` to the result of calling `check_tokens` and fires iff one of the three settings is missing |
| Startup.Start | homework.py:93-101 | with the intended guard, startup stops exactly when the token check fails and otherwise enters the loop with nothing cached and the clock as timestamp |

## Findings

| source | as written | input that shows it | evidently intended | confidence | as-written member | corrected member |
|---|---|---|---|---|---|---|
| homework.py:95 | `if not check_tokens:` negates the function object, which is always truthy, so the guard never fires | an environment with TOKEN set but PRACTICUM_TOKEN or CHAT_ID missing: `main` goes on to build the bot and enter the loop | `if not check_tokens():`, stopping startup when a setting is missing | high; not executed | Startup.MissingTokensDoNotStopStartup | Startup.Start |

## Left out

- The HTTP request (`requests.get`, `ENDPOINT`, `HEADERS`) and JSON decoding: a reply is an input, `Reply(status, body)` with the decoded body or `None` when the body is not JSON, or `NoConnection`.
- The Telegram bot and the actual send: a send is an append to `outbox`. A failure inside `bot.send_message` is not modelled; every send is taken to succeed.
- `SendMessageError` is in `BotError` but nothing in the model raises it, as nothing in the code does.
- The clock: each cycle takes one reading `now`, used both for the `from_date` fallback and for the new timestamp; the code reads the clock separately at those two places.
- `time.sleep(RETRY_TIME)`: blocking only, no effect on the state.
- `load_dotenv` and `os.getenv`: the environment is a map parameter.
- Logging at every level: output only.
- The infinite loop: the model runs finitely many cycles.
- `JsonValue.Str`: a homework name that is a list or a dict is rendered as `[...]` or `{...}`, not with Python's full `repr()`.
- `JsonValue.Json`: numbers and booleans are compared by their `str()` text in the cache comparison, so Python's numeric equality is not modelled: the cross-type equalities `True == 1` and `1 == 1.0` and the float cases `-0.0 == 0.0` (equal in Python, different texts) and `nan != nan` (unequal in Python, same text).
- Exceptions.BotError.Txt: its contract states only that each text is non-empty; the texts are its body, and `TxtIdentifiesError` states that they differ.
- Startup.StartAsWritten: the construction of `telegram.Bot` (homework.py:100) is taken to succeed; the messaging library is not part of this model, and it may reject a missing TOKEN, which is why the finding's input keeps TOKEN set.
