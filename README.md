# Telegram batch forwarder, modelled in Dafny

This project models the command-driven forwarder of a small Telegram bot,
`bot.py`. The bot keeps two pieces of process-wide state. `user_settings` is
a dictionary with six possible keys. `is_forwarding` is a boolean flag.
Six command handlers (`/batchsize`, `/delay`, `/source`, `/target`,
`/start`, `/end`) each parse one argument and write one key. `/stop` clears
the flag. `/forward` sets the flag, resolves the effective settings, rejects
unset ones, and copies the messages `start..end` from the source channel to
the target channel. It pauses whenever the forwarded counter is a multiple
of the batch size.

Files:

- `pyint.dfy` (module `PyInt`): the Python semantics the handlers rely on.
  `ParseInt` is `int(s)` on a string. `PyMod` is Python's floor `%`.
- `settings.dfy` (module `Settings`): the settings keys and values,
  `dict.get`, Python truthiness, reading `context.args[0]` as an integer,
  and the configuration defaults.
- `forward_loop.dfy` (module `ForwardLoop`): what one `/forward` call does,
  given as a pure function `ForwardTrace` that returns the sequence of
  observable events. The file also holds the lemmas about that trace.
- `bot.dfy` (module `Bot`): class `Forwarder`. Its fields are the settings
  map and the flag. Its methods are the eight handlers. `ForwardMessages`
  runs its loop in `CopyRange`, an imperative `while` loop whose contract
  says it produces exactly `Loop`, so `/forward` produces exactly
  `ForwardTrace`.
- `scenarios.dfy` (module `Scenarios`): worked runs over messages 10 to 14,
  plus one session that goes through the handlers.

The Telegram calls are an oracle, `delivers(source, target, id)`. It says
whether fetching message `id` and sending its text succeeds. The stop flag
is an oracle too, `flagAt(id)`. It gives the flag's value when the loop
reaches `id`, which lets a `/stop` handled in between clear it. A run's
output is a trace of events:

- `Copied(source, target, id)` or `Failed(id)` for each visited ID
  (`Failed` stands for the logged warning).
- `Progress(count, total, remaining)` after each copy.
- `Pause(delay)` for `time.sleep`.
- Exactly one final event: `Interrupted`, `Finished(count)`,
  `Crashed(DivisionByZero | NegativeSleep | SleepOverflow)` or
  `ConfigError(...)`.

On these points the model follows the code as written:

- The flag is cleared only by `/stop`. It stays set after a finished run,
  after a configuration error and after a crash.
- The pause check is outside the `try`. So it also runs after a failed ID,
  including at count 0, and it can pause more than once at the same count.
- Nothing validates the batch size or the delay. A batch size of 0 raises
  `ZeroDivisionError` at the first pause check, after message `start` has
  been tried. At the first due pause, `time.sleep` raises `ValueError` for a
  negative delay and `OverflowError` for a delay whose nanosecond count does
  not fit a signed 64-bit integer: more than 9223372036 seconds, or less
  than -9223372036 (`MaxSleepSeconds`, `SleepError`). This bound is the one
  CPython's own seconds-to-nanoseconds conversion sets, as on Linux and
  other POSIX systems; an operating system's sleep call may refuse a
  smaller value, which the model does not cover. These exceptions
  escape the handler. The model ends the trace with `Crashed`.
- An end ID below the start ID gives an empty loop and `Finished(0)`.
  `total_messages` is then zero or negative, and it is never reported,
  since no progress reply is sent.
- `not start_message` treats the ID 0 as unset.

## Model

| member | source | states |
|---|---|---|
| `PyInt.ParseInt` | bot.py:18 | `int(s)` succeeds only on text that starts with a digit or a sign; a `-` gives a non-positive value, otherwise a non-negative one |
| `PyInt.ParseShowInt` | bot.py:18 | `int(str(n)) == n` for every integer `n`: each value a setter can echo parses back to itself |
| `PyInt.ParseDigits` | bot.py:18 | a non-empty run of ASCII digits parses to the number it denotes |
| `PyInt.ParseSignedDigits` | bot.py:18 | a `-` or `+` followed by digits parses to that number, negated for `-` |
| `PyInt.ParseIntAcceptsNegative` | bot.py:18 | `int("-07") == -7`: a sign and leading zeros are accepted |
| `PyInt.ParseIntAcceptsPlus` | bot.py:18 | `int("+25") == 25` |
| `PyInt.ParseIntAcceptsGrouped` | bot.py:18 | `int("1_000") == 1000`: single underscores between digits are accepted |
| `PyInt.ParseIntRejects` | bot.py:21 | `int()` raises ValueError (the usage path) on `""`, `"-"`, `"ten"`, `"2.5"`, `"1__0"`, `"_1"`, `"1_"` |
| `PyInt.PyMod` | bot.py:117 | `count % batch_size` takes the sign of the divisor: it lies in `[0, b)` for `b > 0` and in `(b, 0]` for `b < 0`, and it is zero exactly when `b` divides `a` |
| `PyInt.PyModIsFloorRemainder` | bot.py:117 | with those bounds, `%` is the floor remainder: `a == b*(a//b) + a % b` |
| `Settings.Truthy` | bot.py:87-93 | `not x` holds exactly for a missing value, the integer 0 and the empty string |
| `Settings.Get` | bot.py:80-85 | `dict.get(k, default)` is the stored value when `k` is present, otherwise the default; it is present exactly when the key is stored or a default is given |
| `Settings.ParseArg` | bot.py:18-21 | `int(context.args[0])`: no argument is the IndexError path; otherwise it is `int()` of the first argument, which fails on an empty one |
| `ForwardLoop.SleepError` | bot.py:118 | `time.sleep(d)` raises `ValueError` exactly for `-9223372036 <= d < 0` and `OverflowError` for the rest of the delays it refuses, never a division by zero |
| `ForwardLoop.ForwardTrace` | bot.py:76-120 | the `/forward` handler as a trace: never empty; it starts with a configuration error exactly when an effective channel is falsy or a message ID is unset or 0, and then has that one event only |
| `ForwardLoop.Loop` | bot.py:99-120 | the loop from ID `id` with counter `n`, as a definition (no contract of its own; the lemmas below state its properties): past the end ID it is `Finished(n)`; a clear flag at the loop top gives `Interrupted`; otherwise the `try` block copies the ID (copy, progress reply, counter + 1) or records the failure, then the pause check runs on every ID: batch size 0 crashes with a division by zero, a due pause with a delay `time.sleep` refuses crashes with that error, a due pause with an accepted delay pauses, and the loop goes on with the next ID |
| `ForwardLoop.LoopStart` | bot.py:99-102 | the loop's first event is a visit or a final event, never a configuration error; it is `Finished` exactly when the range is empty, and `Interrupted` exactly when the flag is clear at the first ID |
| `ForwardLoop.JobOf` | bot.py:80-97 | effective source, target, batch size and delay are the user setting when the key is present, otherwise the config default; start and end have no default; total is `end - start + 1` |
| `ForwardLoop.ForwardRejectsUnset` | bot.py:87-93 | the trace is the channel error exactly when an effective channel is falsy, and the ID error exactly when the channels pass but start or end is absent or 0; these traces have one event, no visits and no copies |
| `ForwardLoop.LoopEndsOnce` | bot.py:99-120 | every run ends with exactly one final event, and no event follows it |
| `ForwardLoop.LoopVisitsAscending` | bot.py:99-102 | visited IDs are consecutive and strictly ascending from the first ID, each visited once, none past the end ID, each with the flag set at its loop top |
| `ForwardLoop.LoopEnding` | bot.py:99-120 | `Finished(c)` comes only after every ID in the range, with `c` the number of copies; `Interrupted` comes at the first ID whose flag is clear; `Crashed(DivisionByZero)` only with batch size 0, after exactly one visit; a sleep crash only with a delay `time.sleep` refuses, after at least one visit, at a counter where the pause is due, and with the exception `SleepError` of that delay |
| `ForwardLoop.LoopAgrees` | bot.py:104-118 | every copy uses the effective channels and is an ID the oracle delivers; every failure is an ID it does not deliver; every pause sleeps the effective delay; every progress reply reports the fixed total and `total - count` remaining |
| `ForwardLoop.LoopPlaced` | bot.py:109-118 | each copy is followed at once by a progress reply with the counter after it; after each visited ID, copied or failed, a pause follows exactly when `count % batch_size == 0` and `time.sleep` accepts the delay; with batch size 0 the next event must be `Crashed(DivisionByZero)`, and at a due pause with a refused delay it must be the sleep's exception; after the first event, pauses and progress replies appear nowhere else (that the first event is neither is `LoopStart`, and `ForwardRun` states both together) |
| `ForwardLoop.ForwardRun` | bot.py:76-120 | a run past the checks satisfies all the loop facts from the start ID with counter 0, including the forced crashes after a visit; the counter never exceeds the IDs visited, which never exceed the total |
| `Scenarios.AllFiveCopied` | bot.py:96-120 | IDs 10..14, batch 2, all succeed: five copies, progress 1 of 5 through 5 of 5, pauses after the 2nd and 4th, `Finished(5)` |
| `Scenarios.StoppedBefore13` | bot.py:99-102 | flag cleared before ID 13: exactly 10..12 are copied, then `Interrupted` |
| `Scenarios.FailureAt12` | bot.py:104-118 | a failure at 12 is skipped and the total stays 5; later IDs are still copied; the pause check fires again at the unchanged count 2 |
| `Scenarios.FailureFirst` | bot.py:114-118 | a failure before any copy is followed by a pause, since the count 0 is a multiple of the batch size |
| `Scenarios.BatchSizeZero` | bot.py:117 | a batch size of 0 crashes with a division by zero right after the first ID has been copied |
| `Scenarios.DelayRefused` | bot.py:117-118 | with a delay `time.sleep` refuses (`-1`, `10000000000`) and batch 2, messages 10 and 11 are copied, then the first due pause raises and ends the run |
| `Scenarios.StartZeroSession` | bot.py:52-93 | after `/source`, `/target`, `/start` with any argument that parses to 0, and `/end` with any integer, each setter confirms, then `/forward` stops with the ID error and leaves the flag set |
| `Bot.Forwarder.constructor` | bot.py:12-13 | the process starts with empty settings and the flag clear |
| `Bot.Forwarder.SetIntSetting` | bot.py:16-22 | the numeric setters' shared body: when the argument parses, the map becomes the old map with one key updated to the parsed value, plus a confirmation echoing it; otherwise the map is unchanged and the reply is the usage message |
| `Bot.Forwarder.SetChannelSetting` | bot.py:34-40 | the channel setters' shared body: given an argument, the map becomes the old map with one key updated to that text, plus a confirmation; fails only when the argument is missing |
| `Bot.Forwarder.SetBatchSize` | bot.py:16-22 | `/batchsize`: writes exactly `batch_size` with the parsed value, or on a missing or non-integer argument changes nothing and replies with usage; the flag is untouched |
| `Bot.Forwarder.SetDelay` | bot.py:25-31 | `/delay`: the same contract for `delay_time` |
| `Bot.Forwarder.SetSourceChannel` | bot.py:34-40 | `/source`: writes exactly `source_channel` with the argument text; only a missing argument gives usage and no change |
| `Bot.Forwarder.SetTargetChannel` | bot.py:43-49 | `/target`: the same contract for `target_channel` |
| `Bot.Forwarder.SetStartMessage` | bot.py:52-58 | `/start`: the numeric-setter contract for `start_message` |
| `Bot.Forwarder.SetEndMessage` | bot.py:61-67 | `/end`: the numeric-setter contract for `end_message` |
| `Bot.Forwarder.StopForwarding` | bot.py:70-73 | `/stop`: the flag is false afterwards whatever it was, and nothing else changes |
| `Bot.Forwarder.ForwardMessages` | bot.py:76-120 | `/forward`: sets the flag, leaves the settings unchanged, produces exactly `ForwardTrace` of the settings and oracles, and leaves the flag set unless the run was interrupted |
| `Bot.Forwarder.CopyRange` | bot.py:96-120 | the `for` loop over `start..end`: it produces exactly `Loop` of the job its values make, from the start ID with counter 0, and clears the flag only when a stop interrupted it |

## Left out

- The Telegram client calls `get_message`, `send_message` and `reply_text`, `ParseMode.HTML` and message text. They are foreign library calls. The `delivers` oracle and the event trace replace them.
- The wording of the chat replies. Replies are datatype values that carry the key and the echoed value, not formatted text.
- `main()` and the `Updater`/`CommandHandler` wiring (bot.py:123-140). They are I/O plumbing.
- `time.sleep` takes no time here. An accepted sleep is recorded as a `Pause(delay)` event, and a refused one as the crash `SleepError` names.
- ForwardLoop.Visit: the progress `reply_text` (bot.py:112) is assumed to succeed. It is inside the `try`, so if it raised after a successful send, the counter would already have gone up, no progress reply would appear, and the error would be logged and the loop would go on. The model has no trace for that case. The other replies (bot.py:88, 92, 101, 120) and the setters' confirmations are assumed to succeed too; a failure there would escape the handler.
- Logging. A failed ID is recorded as `Failed(id)`, without the exception text.
- `BOT_TOKEN`. The other config constants are a `Config` value: integer defaults for batch size and delay, and optional channel defaults.
- Concurrency. A `/stop` or another `/forward` that runs during a loop is seen only via the flag values at loop tops (`flagAt`). Nothing else about interleaving is modelled.
- PyInt.ParseInt: does not strip surrounding whitespace and accepts only ASCII digits, unlike Python's `int()`. python-telegram-bot builds `context.args` by splitting the message text on whitespace, so an argument never carries any.
- Bot.Forwarder.ForwardMessages: the model does not cover a config default of a type other than an integer (batch size, delay) or a string or integer (channels). A float default runs normally in Python (`time.sleep(0.5)` sleeps half a second, `0 % 2.0 == 0` pauses), but the integer `Config` cannot express it. A default of another type, such as `None` or a string for the batch size or the delay, raises TypeError at bot.py:117-118, which the model does not cover either.
