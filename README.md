# homework_bot: a verified model of the polling loop

`homework.py` is a Telegram bot that polls the Yandex Practicum homework-status
endpoint. On each pass it asks for the statuses changed since a timestamp and
checks the reply. It renders the first homework as a notification, sends that,
and moves the timestamp to the server's `current_date`. When any step raises,
it sends a failure report instead, unless the report repeats the last one.

This project models that logic in Dafny and proves what it does:

- `wrappers.dfy` (module `Wrappers`): `Option` and `Result`.
- `json.dfy` (module `Json`): the values Python's JSON decoder produces. It also
  has the Python operations the bot applies to them: `key in d`, `d[key]`,
  `d.get(key)` and `str(x)`. Dicts are ordered, as Python's are. `Json.Put`
  only builds dicts for stating `Homework.CheckResponseReturnsHomeworks`.
- `homework.dfy` (module `Homework`): `get_api_answer` (the classification of
  the reply), `check_response`, `parse_status` with `HOMEWORK_VERDICTS`,
  `check_tokens` and the outcome of `send_message`, both as written and as its
  error handler intends. It also has a reader that turns a notification back
  into the homework name and status it reports.
- `bot.dfy` (module `Bot`): one pass of the `while True` loop in `main`.
  `Poll` is the `try` block. `Step` is the whole pass, as a function of the two
  loop variables. It also records an exception that escapes the loop and ends
  the process. `Run` chains several passes until one ends the loop; each pass
  brings its own `Fates`: the endpoint's answers for that pass and what
  Telegram does with the two messages. Both take a
  `SendBehaviour`: `AsWritten` is `send_message` as it stands, `Intended` is
  the behaviour its handler evidently aims at. Class `Poller` holds
  `current_timestamp` and `last_message` as fields. Its `Tick` method runs one
  pass in place with `send_message` as written, and its contract ties it to
  `Step`.

The HTTP client is a parameter `transport: Json -> Reply`. It maps the query
parameters `{'from_date': timestamp}` to what the request yields: a failed
request, or a status code with a body that may or may not decode. What
Telegram does with each of the two sends of a pass is a `SendOutcome`
parameter. The text of an exception (`str(error)`) is a parameter `describe: Error -> string`. Each `Error` value
carries everything the Python text depends on, so equal errors give equal
reports.

Behaviours of the code that are easy to misread, all of which the model
follows:

- When Telegram refuses a message, `send_message` does not return `''`. Its
  handler formats the log line with `ERROR_SENDING_TEXT_MESSAGE`, whose field
  `{TELEGRAM_CHAT_ID}` none of the keyword arguments supplies. So `KeyError`
  escapes, and line 104 is never reached (see "## Findings").
  - For the notification (line 203), this means the `try` fails. The
    timestamp stays, and a failure report about that `KeyError` follows.
  - For a failure report (line 212), the `KeyError` is raised inside the
    `except` handler. It leaves `main`, and the process ends.
- The timestamp is whatever `response['current_date']` holds. It is not
  checked to be an integer or to increase. If the key is missing, the pass fails
  with `KeyError`; it does not fall back to "now".
- Because of that, one pass can hand two messages to Telegram. The notification
  goes out first, then `response['current_date']` raises, and the failure
  report follows.
- Only failure reports are deduplicated. A homework notification is sent on
  every pass that renders one, and it never changes `last_message`. As
  written, `last_message` never returns to `''` once a report got through.
- A successful pass does not clear `last_message`. So after a recovery, a
  failure with the same text as the last report is not reported again
  (`Bot.DedupOutlivesRecovery`).
- A missing `homework_name` or `status` raises `KeyError`. An empty name is
  accepted.
- A missing `homeworks` key raises `KeyError`. A non-dict reply or a non-list
  `homeworks` raises `TypeError`.
- In `get_api_answer`, `'error' in result` is Python's `in` applied to whatever
  the body decodes to. The model follows each case:
  - On a list, it tests membership.
  - On a string, it tests for a substring. For a string or list that mentions
    `error` or `code`, `result.get` then raises `AttributeError`, not
    `ServerError`.
  - On `None`, a bool or a number, `in` raises `TypeError`. The first test
    raises it, so the `'code' in result` that follows `or` can never raise.
- The guard `message != last_message or last_message == ''` is equivalent to
  `message != last_message`, because a failure report is never empty
  (`Bot.FailureReportNeverEmpty`).

`homework.py:15` imports `StatusCodeError` and `ServerError` from
`exceptions.py`, which defines neither. The model uses its own error variants,
named after the exceptions `homework.py` raises.

## Model

| member | source | states |
|---|---|---|
| `Json.Get` | homework.py:158 | `d[key]` gives a value exactly when the key is in the dict, and that value is stored under the key |
| `Json.GetOrNull` | homework.py:145-146 | `result.get(key)` is the stored value when the key is present and `None` otherwise |
| `Homework.Params` | homework.py:110 | the request's query parameters are a dict whose `from_date` is the given timestamp |
| `Homework.GetApiAnswer` | homework.py:108-150 | a failed request is a `RequestException`; a status other than 200 is a `StatusCodeError` whatever the body holds; an undecodable body is an error; a dict body with an `error` or `code` key is a `ServerError` carrying both fields; a list or string body that mentions either is an `AttributeError`; a `None`, bool or int body is a `TypeError`; a body is returned only when the reply to exactly `{'from_date': timestamp}` is a 200 whose decoded body mentions neither key, and then unchanged |
| `Homework.CheckResponse` | homework.py:153-163 | a non-dict reply is a `TypeError`; a missing `homeworks` is a `KeyError`; a non-list `homeworks` is a `TypeError`; otherwise the result is exactly the `homeworks` list, and an empty list is accepted |
| `Homework.CheckResponseReturnsHomeworks` | homework.py:158-163 | any dict whose `homeworks` entry is set to a list passes, and returns exactly that list |
| `Homework.ParseStatus` | homework.py:166-182 | a non-dict homework, a missing `homework_name` (checked first) or a missing `status` each raise their error; a list or dict status is unhashable; a status outside the verdict table is a `ValueError`; a documented status gives the fixed template filled with `str(name)` and that status's verdict, and succeeds exactly then |
| `Homework.ReadNotification` | homework.py:180-182 | whatever it reads out of a text is a documented status and a name that render back to exactly that text |
| `Homework.EndingsExclusive` | homework.py:29-33 | no text ends with the verdict sentences of two different statuses |
| `Homework.NotificationRoundTrip` | homework.py:180-182 | reading a rendered notification gives back exactly the name and status it was rendered from |
| `Homework.NotificationInjective` | homework.py:180-182 | two notifications are equal only if they report the same name and the same status |
| `Homework.ParseStatusReadsBack` | homework.py:166-182 | the text `parse_status` returns names the homework's `str(homework_name)` and its status code, and depends on nothing else |
| `Homework.CheckTokens` | homework.py:185-187 | true exactly when all three tokens are set and non-empty, with Python's `and` returning the first falsy operand |
| `Homework.SendMessage` | homework.py:91-105 | as written: the message itself when Telegram accepts it; `KeyError('TELEGRAM_CHAT_ID')` when the client raises, because the log line's template at lines 76-80 names a field no argument supplies |
| `Homework.RefusedSendRaises` | homework.py:96-104 | a refused send raises and never yields the `''` of line 104 |
| `Homework.SendMessageIntended` | homework.py:93-105 | as the handler intends: the message on success, `''` when the client raises |
| `Bot.Send` | homework.py:203 | the chosen `send_message` returns the message on success; on a refusal it raises `KeyError` as written, and yields `''` as intended |
| `Bot.CurrentDate` | homework.py:205 | the next timestamp is the reply's `current_date`; a reply without it raises `KeyError` |
| `Bot.Poller.constructor` | homework.py:192-194 | the loop starts at the current time with an empty `last_message` |
| `Bot.Poller.Tick` | homework.py:196-214 | one pass with `send_message` as written leaves both fields, the list of messages handed to Telegram, and the exception that ends the loop, if any, exactly as `Bot.Step` gives them; `Bot.Step` (homework.py:196-214) is the pass as a function and `Bot.Poll` (homework.py:197-205) its `try` block |
| `Bot.EmptyListTick` | homework.py:198-205 | an empty homework list sends nothing, whatever Telegram would do; it moves the timestamp to `current_date` and leaves `last_message` alone |
| `Bot.FirstHomeworkTick` | homework.py:198-205 | a non-empty list hands exactly the first homework's notification to Telegram, whatever the later items are; once Telegram accepts it, the timestamp moves on and `last_message` stays |
| `Bot.RefusedNoticeFailsTick` | homework.py:203-212 | as written, a refused notification fails the `try`; the timestamp stays, and the report of the `KeyError` follows unless it repeats `last_message` |
| `Bot.TimestampOnlyOnSuccess` | homework.py:197-212 | about `Bot.Step`, with `Bot.Poll` (homework.py:197-205) the `try` block: the timestamp changes only when the whole `try` block succeeds, including the notification send, and then takes the reported value; a success leaves `last_message` unchanged; as written, a refused notification keeps the timestamp |
| `Bot.FailureReportDedup` | homework.py:207-212 | on a failure the timestamp stays; the report goes out exactly when it differs from `last_message`; once accepted, it becomes `last_message`; as written, a refused report ends the loop with `last_message` unchanged; as intended, it sets `last_message` to `''` |
| `Bot.FailureReportNeverEmpty` | homework.py:53 | a failure report is never empty, so the `last_message == ''` half of the guard decides nothing |
| `Bot.NoticeIsNotFailureReport` | homework.py:53 | a homework notification never equals a failure report |
| `Bot.StepKeepsLastMessageShape` | homework.py:194 | every pass keeps `last_message` either empty or a failure report; as written, once a report got through it never becomes `''` again |
| `Bot.RepeatedFailureReportsOnce` | homework.py:207-212 | two failing passes in a row, the first report accepted, report once when the report is new and never when it repeats `last_message` |
| `Bot.RefusedReportEndsLoop` | homework.py:211-212 | as written, a refused failure report ends the run at that pass; state unchanged, the `KeyError` escaping |
| `Bot.FailedSendReArms` | homework.py:104 | with `send_message` as intended, a refused report leaves `last_message` empty, so the same failure is reported again on the next pass |
| `Bot.DedupOutlivesRecovery` | homework.py:203-205 | a successful pass does not reset `last_message`, so a failure that returns with the same text is not reported |
| `Bot.OutageReportedOnce` | homework.py:196-214 | over any number of passes of `Bot.Run` (homework.py:196-214, one element of `fates` per pass), each against an endpoint that may answer differently but fails with the same exception, with every message accepted, the loop goes on, the timestamp never moves, and the report is sent once if new, else never |
| `Bot.OutageThenRecovery` | homework.py:196-214 | such an outage followed by one pass that succeeds: the loop goes on, the timestamp takes the value the last pass reports, the report is sent once if new, else never, and `last_message` still holds it afterwards |

## Findings

| source | as written | input that shows it | evidently intended | confidence | as-written member | corrected member |
|---|---|---|---|---|---|---|
| homework.py:97-104 | the handler formats `ERROR_SENDING_TEXT_MESSAGE` with `chat_id=`, `message=` and `error=`, but the template (lines 76-80) names `{TELEGRAM_CHAT_ID}`, so `KeyError('TELEGRAM_CHAT_ID')` escapes before `return ''`; a refused notification then fails the pass, and a refused failure report ends the process | any `TelegramError` from `bot.send_message`, e.g. a failure report Telegram rejects while `last_message` is `''` | log the failure and return `''`, so that the loop goes on and the next identical failure is reported again | high; not executed | `Homework.SendMessage`, `Bot.RefusedReportEndsLoop` | `Homework.SendMessageIntended`, `Bot.FailedSendReArms` |

## Left out

- The HTTP client (`requests.get`), the Telegram client (`telegram.Bot`,
  `bot.send_message`), `load_dotenv` and `os.getenv` are foreign I/O. They
  are the `transport`, `SendOutcome` and token parameters.
- The endpoint URL and the `Authorization` header are passed to
  `requests.get` (lines 113-117) and are fixed for a run. Their effect on the
  reply is part of what `transport` stands for. Inside exception texts they
  are constants of the run, so they are not modelled.
- Logging (the handlers and the `LOGGER` calls) is not modelled. The one
  effect it has is the `KeyError` raised while building the argument of the
  `LOGGER.error` call at lines 97-103, and `Homework.SendMessage` models that.
- `time.time()`, `time.sleep(RETRY_TIME)` and the unbounded `while True` are
  left out. The current time is the constructor's argument. One pass is
  `Poller.Tick`, and finitely many passes are `Bot.Run`, each pass with its
  own `transport`.
- The exact wording of the exception messages and of `str(error)` is left
  out. The text of an error is the `describe` parameter, and only equality
  of texts matters to the loop.
- `send_message` only catches `TelegramError`. Any other exception from the
  client is not modelled.
- `Poller.Tick` runs `send_message` as written. The intended variant is
  modelled on `Bot.Step` and `Bot.Run` only.
- Floating-point numbers in JSON bodies are not modelled.
- Duplicate keys in one JSON object are not modelled. The decoder keeps one
  entry per key, so a decoded dict has distinct keys.
- `Json.PyStr`: for a `homework_name` that is a list or dict, strings inside
  it are shown between single quotes. Python's choice of quote character and
  its escaping are not modelled.
- The `__main__` guard and `exit(0)` are process control. `check_tokens` is
  modelled; what the process does with its result is not.
- `exceptions.py` declares only empty exception classes, so it is not part of
  this model.
