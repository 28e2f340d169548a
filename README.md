# homework_bot, modelled in Dafny

A model of the polling bot in `homework.py`. The bot asks the Yandex
Practicum homework-status endpoint for changes since a cursor timestamp. It
turns the newest homework's status into a Russian notification. It moves
the cursor to the server's `current_date`, then sends the notification to a
Telegram chat when the text differs from the last one sent. Every exception raised in a
cycle is caught and logged, and the loop goes on.

Files and modules:

- `wrappers.dfy` (`Wrappers`): `Option` (Python's `None`) and `Result` (a
  value or a raised exception).
- `errors.dfy` (`Errors`): the four exception classes of `exeptions.py`, plus
  the built-in `KeyError`, `TypeError` and JSON decoding error that the bot's
  own statements can raise. Also the text of `APIConnectionError`.
- `homework.dfy` (`Homework`): the pure helpers. These are the
  `HOMEWORK_STATUSES` table, `parse_status` and its inverse,
  `check_response`, `check_tokens`, the status-code branching of
  `get_api_answer`, and `send_message`. The HTTP request, the JSON decoder
  and the Telegram call are replaced by the outcome they produce
  (`FetchOutcome`, `SendOutcome`). A decoded body is `Json`, a dictionary
  whose keys may be missing or some other JSON value.
- `polling.dfy` (`Polling`): one pass of `main`'s loop body as a function.
  `Cycle` maps `(curr_message, prev_message, current_timestamp)`, the clock
  and the two outcomes to the new state, the `from_date` sent, the message
  delivered and the exception caught. `Run` covers a finite sequence of
  loop iterations, including the stop flag. This module holds the lemmas
  over one, two and many cycles.
- `bot.dfy` (`Bot`): `main` as imperative code. The class `Poller` holds
  the three loop variables and the run flag. `RunCycle` is the loop body
  written statement by statement, with an early return where the source
  raises. `Serve` is the loop over a finite sequence of iterations. Each is
  proved equal to `Polling.Cycle` or `Polling.Run`.

The operator's stop command comes from a second thread. A lock makes its
write to the flag atomic, and the loop reads the flag only at the top of an
iteration. So any interleaving acts like a write between two reads. Each
`Tick` therefore says whether the stop request arrived before that
iteration's check.

In these cases `homework.py` behaves as follows, and so does the model:

- An unknown status raises `UnknownStatusError` and no message is built. The
  fallback verdict on line 117 is assigned and then discarded.
- A missing `homeworks` key raises `KeyError` at line 98, before the `try`,
  not `IncorrectKeyError`. A body that is not a dictionary raises
  `TypeError` there.
- A failing `current_date` lookup or a failed send does change state. The
  first keeps the `curr_message` assigned at line 163. The second also keeps
  the advanced cursor.
- A cursor of 0 is falsy, so the request uses the clock (line 71).
- A 200 reply whose body does not decode raises the decoder's own error
  unwrapped, because `response.json()` sits in the `else` of the `try`.

## Model

| member | source | states |
|---|---|---|
| Errors.ApiFailure.Message | homework.py:81-93 | the text of APIConnectionError: the fixed "endpoint unavailable" text for a 404, the connection-failure prefix followed by the transport error's text, or by the status code in decimal; only the 404 text starts with 'Э' |
| Errors.NatToDecimal | homework.py:93 | `str` of a non-negative status code: a non-empty string of decimal digits with no leading zero except for 0 itself |
| Errors.NatToDecimalValue | homework.py:93 | the digits NatToDecimal writes denote the number it was given |
| Errors.IntToDecimal | homework.py:93 | `str` of any status code: a leading minus sign exactly for a negative number, digits elsewhere, and no leading zero except for 0 itself |
| Errors.IntToDecimalValue | homework.py:93 | the text IntToDecimal writes is the sign and the digits of the number's magnitude |
| Homework.StatusMessage | homework.py:121 | the notification is prefix, name, separator, verdict; the prefix, the name and the separator-plus-verdict tail can each be read back at their positions |
| Homework.ParseStatus | homework.py:110-121 | succeeds exactly for a record with a name and a status among approved, reviewing, rejected; any other status gives UnknownStatusError and no message; a missing name gives KeyError |
| Homework.KnownStatusMessages | homework.py:51-55 | for approved, reviewing and rejected the message is exactly `Изменился статус проверки работы "<name>". <verdict>` with the table's verdict |
| Homework.NameIfStatus | homework.py:121 | reads the homework name back from a message for a given status; a name it returns rebuilds the same message |
| Homework.DecodeMessage | homework.py:121 | the inverse of parse_status: a decoded pair makes parse_status produce that very message |
| Homework.NameIfOtherStatus | homework.py:51-55 | a message built with one status never reads back as a message of another status, because the verdicts end differently |
| Homework.ParseStatusRoundTrip | homework.py:110-121 | every message parse_status produces decodes back to the name and status it came from |
| Homework.ParseStatusInjective | homework.py:110-121 | two homeworks that give the same message have the same name and status |
| Homework.CheckResponse | homework.py:96-107 | succeeds exactly when the body is a dictionary whose homeworks value is a list, and then returns that list unchanged; a missing key is KeyError; a non-list value or a non-dictionary body is TypeError; IncorrectKeyError is never raised |
| Homework.AllIsEvery | homework.py:126-130 | Python's all over the tokens is true iff every token is set and non-empty |
| Homework.CheckTokens | homework.py:124-130 | true iff all three credentials are set and non-empty |
| Homework.GetApiAnswer | homework.py:69-93 | from_date is the cursor, or the clock when the cursor is 0; 200 returns the decoded body; 404 raises APIConnectionError with the fixed message; any other code and a transport failure raise APIConnectionError; an undecodable 200 body raises the decoding error |
| Homework.SendMessage | homework.py:58-66 | fails exactly when the transport fails, and then with SendMessageError |
| Polling.Start | homework.py:145-152 | the loop starts with no current or previous message and the cursor at the clock |
| Polling.Cycle | homework.py:159-173 | an error from get_api_answer or check_response ends the cycle with that error, nothing changed and nothing sent; for a non-empty list, a parse_status error does the same, and otherwise its text becomes curr_message; a reply that passes those steps and carries current_date moves the cursor to it and then sends exactly when the message differs from prev_message, reporting only send_message's error (a reply without current_date ends with KeyError); a delivery needs a successful send, and then prev_message becomes the message; a missing current_date keeps cursor and prev_message; a failed send leaves prev_message stale; an empty list keeps curr_message; the consistency invariant is kept |
| Polling.CursorHandOff | homework.py:160-168 | after a cycle that ran line 164 (finished, or failed only in the send), the from_date of the next cycle is that reply's current_date, or the clock when that was 0 |
| Polling.RepeatIsNotResent | homework.py:165-169 | two consecutive cycles computing the same message send it at most once |
| Polling.StatusChangeIsSent | homework.py:162-169 | when the newest homework differs from the one last notified, a send is attempted |
| Polling.Run | homework.py:154-174 | a run keeps the consistency invariant and delivers at most one message per iteration |
| Polling.RunPrevIsLastDelivered | homework.py:165-169 | after any run, prev_message is the last message delivered, or the initial one if none was |
| Polling.RunNeverRepeats | homework.py:165-169 | no message is delivered twice in a row, and the first differs from the initial prev_message |
| Polling.RunStaysStopped | homework.py:154-157 | once the flag reads STOPPED, later iterations change nothing |
| Polling.StopRequestEndsRun | homework.py:154-157 | a stop request before iteration k means the run is the run of the first k iterations |
| Bot.Poller.constructor | homework.py:144-152 | the poller starts with no messages, the cursor at the clock, and the flag RUNNING |
| Bot.Poller.RequestStop | homework.py:182-184 | the stop command sets the flag to STOPPED |
| Bot.Poller.RunCycle | homework.py:159-173 | the statement-by-statement loop body leaves the state, from_date, delivery and exception that Polling.Cycle gives |
| Bot.Poller.Serve | homework.py:154-174 | the loop over a sequence of iterations ends in the state, flag and outbox that Polling.Run gives |
| Bot.Launch | homework.py:133-152 | without all three credentials the program stops before polling; otherwise the poller starts in the initial state |

## Left out

- The HTTP request, `response.json()` and the Telegram call are network I/O in foreign libraries. They are modelled as the outcome they produce (`FetchOutcome`, `SendOutcome`).
- The clock and `time.sleep(RETRY_TIME)` are replaced by a clock value per iteration. Sleeping has no effect on state.
- `load_dotenv`, `os.getenv` and `sys.exit` are process plumbing. The tokens are parameters, and exiting is `Launch` returning no poller.
- Logging has no effect on state. So the text of the caught exception (`Сбой в работе программы: …`) is not built.
- The `repl` thread, `input()` and the lock are concurrency and console input. The flag is a variable read at the top of each iteration, and a stop request is an input to that iteration. The start-up race is not modelled: `repl` could set STOPPED before line 149 overwrites it with RUNNING.
- The unbounded `while True` is modelled over finite sequences of iterations.
- JSON values are narrowed. `homework_name`, `status` and `current_date` are modelled as a string, a string and an integer when present. A non-string name formatted by the f-string, or a `current_date` of another JSON type, is not modelled.
- `BASE_DIR`, `ENDPOINT`, `HEADERS` and the request parameters only shape the HTTP request, which is left out. The model keeps `from_date`.
