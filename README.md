# Homework-status bot: a Dafny model of its decision logic

The bot polls a homework-review API on a fixed schedule. It turns the status of
the first homework in each answer into a Russian notification sentence. It
sends that sentence to a Telegram chat only when the sentence differs from the
last one it stored. A sentence is stored just before its send is attempted, so
a send that fails still counts as the last one. This project models the bot's decision logic in
`homework.py` and proves what that logic guarantees. The logic covers the
start-up token check, the response validator, the status formatter with its
fixed verdict table, and the change-detection body of the main loop.

Modules:

- `Results` (`results.dfy`): `Option` and a failure-compatible `Result`. An
  `Err` stands for a Python exception propagating to the caller.
- `Json` (`json.dfy`): a decoded JSON value, the exception kinds a cycle can
  end with, and the Python operations the bot applies to decoded values:
  `v[key]`, `dict.get`, `len` and `str`.
- `Homework` (`homework.dfy`): `HOMEWORK_VERDICTS`, `check_tokens`,
  `check_response` and `parse_status`, as pure functions. It also has
  `ReadNotification`, which recovers the name and the status from a sentence.
  That function is the inverse the formatter is proved against.
- `Polling` (`polling.dfy`): one cycle of `main` as a function (`Examine`,
  `Cycle`), a finite run of cycles (`Run`), and the class `StatusBot`. The
  class holds the constant poll timestamp and the mutable `oldStatus`. Its
  `Step` and `RunCycles` methods are proved against `Cycle` and `Run`.

The network and the chat transport are inputs. Each cycle receives an `Env`
with two parts. `api` maps the `from_date` of the request to the decoded body,
or to the exception the request raised. `delivered` says whether the chat
transport accepts a message.

Behaviour of the code worth knowing, which the model keeps:

- `reviewing` has a verdict in the table, but `parse_status` raises a
  `KeyError` for it. Only `approved` and `rejected` produce a sentence.
- The poll timestamp is the constant 1656890433 and is never advanced, even
  though the answer carries `current_date`.
- An empty `homeworks` list sends nothing and leaves the stored sentence
  alone. No report is made for a period without activity.
- A missing `homeworks` key in `check_response`, or a missing `homework_name`
  key in `parse_status`, is only logged. The code then fails on an unbound
  local variable, and the model returns `UnboundLocalError` there.
- `main` reads `all_homework['homeworks']` and takes its `len` before it calls
  `check_response`. So inside a cycle, a missing key fails with `KeyError`.
  A `homeworks` value of length zero that is not a list (`""` or `{}`) passes
  without any error.
- A failed send is not swallowed by the sender. `send_message` re-raises, and
  the loop's exception handler catches the error. The stored sentence has
  already been updated by then, so the sentence is not sent again.

## Model

| member | source | states |
|---|---|---|
| `Homework.VerdictTable` | homework.py:24-28 | the verdict table has exactly the statuses `approved`, `reviewing` and `rejected`, and no two of them share a sentence |
| `Homework.All` | homework.py:36 | Python's `all` over the three configuration values is true exactly when every one of them is truthy (present and non-empty) |
| `Homework.CheckTokens` | homework.py:34-36 | true exactly when the bot token, the API token and the chat id are all present and non-empty |
| `Homework.CheckResponse` | homework.py:76-85 | succeeds exactly when the response is an object whose `homeworks` value is a list, and then returns that list unchanged; a missing key gives `UnboundLocalError` (no value is ever returned), a non-object response or a non-list value gives `TypeError` |
| `Homework.ParseStatus` | homework.py:88-106 | succeeds exactly for an object with a `homework_name` key and a status of `approved` or `rejected`; then the result is `Изменился статус проверки работы "<name>". <verdict>` with the table's verdict, and `ReadNotification` recovers name and status from it; a non-object gives `TypeError`, any other status (missing, null, `''`, `reviewing`, non-string) gives `KeyError`, a missing name with a good status gives `UnboundLocalError` |
| `Homework.ReadNotificationInverts` | homework.py:102-106 | for any name and either accepted status, reading the notification sentence back yields exactly that name and status |
| `Homework.DistinctStatusesDistinctMessages` | homework.py:24-28 | for the same name, `approved` and `rejected` give different sentences |
| `Homework.ReviewingIsRefused` | homework.py:94-101 | `reviewing` is in the verdict table, yet a record with that status is refused with `KeyError` |
| `Json.Subscript` | homework.py:79 | `v[key]` succeeds exactly when `v` is an object holding `key`, and yields that key's value; otherwise `KeyError` for an object, `TypeError` for anything else |
| `Json.Get` | homework.py:94 | `dict.get` yields the key's value when present and `None` otherwise |
| `Json.Len` | homework.py:121 | `len` succeeds exactly for lists, strings and objects, giving the number of items, characters or keys; anything else gives `TypeError` |
| `Json.Digits` | homework.py:106 | the decimal form of a natural number is non-empty and made of digit characters only |
| `Json.DigitsValue` | homework.py:106 | the digits read back as a decimal number give the number they were made from |
| `Json.DecimalMeaning` | homework.py:106 | `str` of an integer is its digits when it is non-negative, and `-` followed by the digits of its magnitude when it is negative; the digits always denote the magnitude |
| `Json.Render` | homework.py:106 | the f-string renders a string name as itself, null as `None`, booleans as `True`/`False`, and integers as `str` does (`DecimalMeaning` gives the digits' value) |
| `Polling.Examine` | homework.py:120-123 | the outcome is fixed for every answer: a failed request propagates its exception; a non-object answer gives `TypeError`; a missing `homeworks` key gives `KeyError`; a `homeworks` value without a length (null, boolean, number) gives `TypeError`; length zero gives no sentence and no error; a non-empty string or object gives `TypeError`; a non-empty list gives what `parse_status` gives for its first element |
| `Polling.Run` | homework.py:118-129 | a run of cycles sends at most one sentence per cycle, and every sentence it sends is one that some cycle of the run formatted |
| `Polling.Cycle` | homework.py:121-129 | a sentence is sent exactly when the cycle formats one and it differs from the stored sentence; afterwards the stored sentence is the one sent, otherwise unchanged; the cycle fails exactly when examining fails or the send fails, and a failing examination changes nothing |
| `Polling.RepeatSuppressed` | homework.py:124-126 | feeding the same answer twice, the second cycle never sends and keeps the stored sentence, whether or not the first send was delivered |
| `Polling.FreshBotNotifiesFirstRecord` | homework.py:117-126 | starting from the initial empty stored status, the first record that formats is always sent |
| `Polling.EmptyListIsQuiet` | homework.py:121 | an empty `homeworks` list sends nothing, raises nothing and keeps the stored sentence |
| `Polling.OnlyFirstRecordMatters` | homework.py:121-123 | for a non-empty list, the cycle's outcome is that of `parse_status` on element 0 alone; the rest of the list is never examined |
| `Polling.MissingHomeworksFailsCycle` | homework.py:121 | an answer without `homeworks` fails the cycle with `KeyError`, sends nothing and keeps the stored sentence |
| `Polling.EmptyNonListIsQuiet` | homework.py:121 | a `homeworks` value of `""` or `{}` passes without error and sends nothing, because only its length is looked at |
| `Polling.RunSuppressesRepeats` | homework.py:118-129 | over any run of cycles, no sentence is sent twice in a row, the first one sent differs from the initial stored sentence, and the final stored sentence is the last one sent |
| `Polling.SettledRunIsQuiet` | homework.py:124-129 | a run sends nothing exactly when each of its cycles, taken on its own against the initial stored sentence, would send nothing; the stored sentence then stays as it was |
| `Polling.SteadyAnswerNotifiesAtMostOnce` | homework.py:118-129 | polling the same answer any number of times sends at most one sentence, namely what the first cycle sends |
| `Polling.StatusBot.constructor` | homework.py:116-117 | a new bot polls from timestamp 1656890433 with an empty stored status |
| `Polling.StatusBot.Step` | homework.py:119-135 | one iteration requests the answer for the bot's constant timestamp, updates `oldStatus` and reports the sent sentence and the exception exactly as `Cycle` says |
| `Polling.StatusBot.RunCycles` | homework.py:118-135 | a finite sequence of iterations leaves `oldStatus` and the list of sent sentences exactly as `Run` says, always with the same timestamp |
| `Polling.Launch` | homework.py:109-117 | the bot starts exactly when `check_tokens` holds, with the constant timestamp and an empty stored status; otherwise start-up fails with a configuration error |

## Left out

- `get_api_answer` (homework.py:50-73): the HTTP request, the wall clock and JSON decoding are foreign I/O. The answer for a timestamp is the input `Env.api`, which returns either a decoded value or an exception. Its own defects (a one-argument `send_message` call and the `status_cod` typo) only change which exception is raised, and the model folds them into `RequestError`.
- `send_message` (homework.py:39-47) and the `Bot` object: the Telegram transport is the input `Env.delivered`. A failed send is the `SendError` exception.
- The exception handler's own `send_message` call (homework.py:134): it is a second I/O attempt and can itself raise out of the loop. The model stops the cycle at the caught exception.
- `time.sleep`, the endless `while True` and all logging: timing and log output carry no decisions. The model runs finitely many cycles.
- `load_dotenv`/`os.getenv` (homework.py:12-17) and the logging setup (homework.py:138-144): process bootstrap. The three values are inputs to `CheckTokens` and `Launch`.
- `Bot(token=...)` is built before the token check in `main`. Its own failure on a missing token belongs to the Telegram library and is not modelled.
- `Json.Render`: a `homework_name` that is a JSON array or object is rendered as `[...]` or `{...}`, not as Python's `repr`. The map that models an object keeps no key order, so that `repr` cannot be reproduced.
- JSON numbers are modelled as integers only. Floating-point values are not represented.
- exceptions.py declares three exception classes that homework.py never uses. There is nothing to model there.
