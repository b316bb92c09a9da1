# Simplus referral bot: control panel and referral loop

A Dafny model of the two pieces of sequential logic in the Simplus auto-referral
bot.

- **The web control panel (`app.py`)**:
  - the shared run state `bot_state`, with its 30-entry log;
  - the start / stop / pause handlers and the log view;
  - the configuration update with its comma-list normalisation and `int()`
    conversions, and the proxy-key defaulting of `load_config`;
  - the `run_bot` scheduler: passes over the invitation codes, counters, big
    cycles and the pause between passes.
- **The standalone bot (`automated.py`)**:
  - the Telegram message handler that extracts a temporary e-mail address and
    a six-digit verification code;
  - one referral cycle as four short-circuiting steps;
  - the console approval prompt;
  - the endless loop of cycles grouped into big cycles of fifty.

Modules, one per file:

| module | file | contents |
|---|---|---|
| `Wrappers` | wrappers.dfy | `Option` |
| `PyText` | pytext.dfy | ASCII `\d`/`\w`, `str.isspace`, `lower`, `strip`, `split`/`join`, the comma-list comprehension, decimal rendering |
| `Json` | json.dfy | JSON values, Python truthiness, Python's `int()` on a JSON value |
| `LogRing` | logring.dfy | keeping the last *n* entries, and the `[-limit:]` slice |
| `Schedule` | schedule.dfy | Python's `%`, the position in a big cycle, the skip-wait test, the big-cycle count |
| `Control` | control.dfy | the configuration update and `bot_state` as the class `BotState` with its handlers |
| `Scheduler` | scheduler.dfy | `run_bot` as methods over a `BotState` |
| `Extraction` | extraction.dfy | the handler's regular expressions as predicates, each with an executable search |
| `ReferBot` | referbot.dfy | the handler as a method of the class `SimplusAutoReferBot`; `run_cycle`, `get_user_approval`, `run_continuous` |

## Modelling assumptions

- **Characters:**
  - `\d` is `0`-`9` and `\w` is an ASCII letter, a digit or `_`.
  - `lower()` changes only `A`-`Z`.
  - `\s` and `strip()` use the full set of characters for which `str.isspace()` holds.
- **Regular expressions:** each pattern is a declarative predicate: an address
  or code occurs at these positions. An executable function follows how
  `re.search` runs it: greedy runs, backtracking into the domain, leftmost
  start. A lemma ties the two together.
- **Integers:**
  - Integers are unbounded, as in Python.
  - `%` is Python's floored modulo (`Schedule.PyMod`).
  - `int()` follows Python: booleans count as 0/1, floats are truncated toward
    zero, and strings are stripped and then parsed as an optional sign followed
    by digits with single underscores. The digit count is not bounded (see `Json.PyInt` under "## Left out").
- **State changed by other threads:**
  - Each point where `run_bot` reads `running`/`paused` takes the next element
    of a sequence of probes; once the probes run out, the bot reads as stopped.
  - The `k`-th reload of `config.json` is `config(k)`.
  - The `n`-th referral cycle of a run succeeds exactly when `outcome(n)` holds.
  - The `k`-th log entry of a run is stamped `clock(k)`.
- **Telegram and HTTP:** in `automated.py`, a `CycleWorld` gives what each step
  of a cycle returns, and console input is a sequence of lines.
- **`loops_per_big_cycle == 0`:** `update_config` stores any integer, so the
  model does not require `loops_per_big_cycle >= 1`.
  - A reload with 0 makes `(loop_count - 1) % loops_per_big_cycle` raise
    `ZeroDivisionError`.
  - `run_bot` catches it and logs `Bot error: integer modulo by zero`, which is
    the wording of Python 3.11 and later. The model has the same error path.
  - For positive values, the arithmetic lemmas state the facts about positions
    and big cycles.

Two behaviours of the code a reader may not expect:
- **The big-cycle number on the dashboard:** `bot_state['current_big_cycle']`
  is set at the start of a pass (app.py:187). After the pass that closes a big
  cycle, the dashboard shows the old number until the next pass starts.
- **Reloads without codes:** the scheduler refuses only an initial load with no
  codes. A later reload with an empty code list runs passes with nothing to process.

## Model

| member | source | states |
|---|---|---|
| Control.WithDefaults | app.py:50-53 | Defaulting adds exactly the keys `use_proxy` and `proxy_list`. It keeps every value already present; a missing `use_proxy` becomes `false` and a missing `proxy_list` becomes `[]`. |
| Control.WithDefaultsIdempotent | app.py:49-53 | Loading an already defaulted configuration changes nothing. |
| Control.ListField | app.py:369-373 | A string value becomes the JSON list of its comma-separated, stripped, non-empty pieces. Any other value is stored as given. |
| Control.ListFieldStable | app.py:386-390 | Normalising a list field twice is the same as once. |
| Control.ListFieldOfJoined | app.py:372 | A comma-joined string of clean items normalises back to exactly those items. |
| PyText.CommaList | app.py:372 | Every element of the comma list is non-empty, stripped and comma-free. |
| PyText.CommaListJoin | app.py:372 | Joining clean items with `,` and taking the comma list gives back the items. |
| PyText.CommaListIdempotent | app.py:389 | Taking the comma list of a joined comma list changes nothing. |
| PyText.JoinSplit | app.py:372 | `','.join(s.split(','))` is `s`. |
| PyText.SplitJoin | app.py:372 | Splitting a join of comma-free pieces gives back the pieces. |
| PyText.StripPadded | app.py:372 | `strip()` removes any whitespace around a string and nothing else. |
| PyText.StripMembers | app.py:372 | `strip()` adds no character. |
| PyText.Lower | automated.py:217 | `lower()` keeps the length and changes each character the way `LowerChar` does: `A`-`Z` become `a`-`z`, everything else stays. |
| PyText.Strip | app.py:372 | The result of `strip()` neither starts nor ends with whitespace. `StripPadded` and `StripMembers` pin it down as removing exactly the padding. |
| PyText.Split | app.py:372 | `split(sep)` returns at least one piece, and no piece contains `sep`. `JoinSplit` and `SplitJoin` make it the inverse of `join`. |
| Json.Truthy | app.py:385 | `bool()` of a JSON value: null, `false`, zero and empty strings, lists and objects are false; everything else, NaN and the infinities included, is true. |
| Json.PyInt | app.py:377 | `int()` of an integer is itself and of a boolean is 0/1. A finite float is truncated toward zero. Null, lists, objects, NaN and the infinities are refused. |
| Json.PyIntOfNatString | app.py:377 | `int()` reads a decimal numeral as its number. |
| Json.PyIntPadded | app.py:377 | Whitespace around a numeral string does not change what `int()` reads. |
| Control.PutAllOverwritesNamed | app.py:368-390 | Running the `if key in data: config[key] = ...` steps one by one overwrites exactly the listed keys the request names, with their converted values. Every other key keeps its value. |
| Control.UpdateStepsMerge | app.py:368-390 | The six steps of `update_config`, in the source's order, produce `Merged`. |
| Control.MergedKeepsUnnamed | app.py:366-390 | A key the request does not name, or that `update_config` does not handle, keeps its loaded value. |
| Control.MergedIdempotent | app.py:362-397 | Sending the same update twice saves the same configuration as sending it once. |
| Control.SetTiming | app.py:376-381 | One timing key: stored as `int(value)`, or refused exactly when the request names the key and `int()` fails. |
| Control.ApplyRequest | app.py:364-391 | The update fails exactly when some named timing value is refused by `int()`. It names the first such key in the order `wait_between_codes`, `wait_between_loops`, `loops_per_big_cycle`, which is the conversion that raises. Otherwise the result is `Merged`. |
| Control.BotState.UpdateConfig | app.py:362-397 | An accepted update saves `Merged` over the defaulted stored configuration, answers success and logs one entry. A refused one answers `ConversionFailed(key)` with the first timing key, in the handler's order, whose value `int()` refuses, and changes nothing. `ConversionFailed(key)` stands for the handler's `str(e)` message, which quotes the refused value; the text itself is not modelled. The run flags and counters never change. |
| Control.RequestedLimitOfNumber | app.py:350 | A `limit` query written as a number is read as that number. |
| Control.RequestedLimit | app.py:350 | The query value through `int()`, and 20 when there is no value or `int()` refuses it. |
| LogRing.TailSlice | app.py:351 | `[-limit:]` is a suffix of the list. Its length is `min(limit, len)` for a positive limit and `max(len + limit, 0)` for a negative one. It is the whole list for `limit == 0`. |
| Control.BotState.GetLogs | app.py:346-351 | The log view is a suffix of the log: by default the last `min(20, len)` entries, and otherwise as `TailSlice` says for the requested limit. |
| Control.BotState.GetLogsOfNumber | app.py:350-351 | A numeric limit gives `logs[-limit:]`. |
| LogRing.KeepLastSuffix | app.py:101-103 | The kept log is the suffix of length `min(len, 30)`. |
| LogRing.KeepLastAppend | app.py:96-103 | Trimming after each append is the same as trimming once at the end. |
| LogRing.AppendedKeepsNewest | app.py:96-103 | Appending entries one at a time with the trim leaves the last 30 of the old log plus the new entries. |
| Control.BotState.constructor | app.py:63-78 | The initial `bot_state`: not running and not paused, zero counters, big cycle 1, no activity, empty log. |
| Control.BotState.AddLog | app.py:93-104 | The log becomes the last 30 of the old log plus the new entry, in order. The new entry is last and `last_activity` is its timestamp. Nothing else changes. |
| Control.BotState.StartBot | app.py:294-318 | Rejected with no change when already running, or when the defaulted configuration has a missing or empty code list. Otherwise it starts, clears `paused` and the three counters, and logs `Starting bot...`. The big-cycle fields are untouched. |
| Control.BotState.Launch | app.py:307-313 | The state change of an accepted start. |
| Control.BotState.StopBot | app.py:320-331 | Rejected with no change when not running. Otherwise it clears `running` and `paused`, logs one warning, and changes nothing else. |
| Control.BotState.PauseBot | app.py:333-344 | Rejected with no change when not running. Otherwise it flips `paused` and answers with the new value. `running` never changes. |
| Control.BotState.PauseTwice | app.py:340-344 | Two toggles restore `paused`, and `running` is unchanged. |
| Schedule.PyMod | app.py:188 | Python's `%`: the remainder has the divisor's sign and differs from the dividend by a multiple of the divisor. |
| Schedule.LoopsInCycle | app.py:188 | For a positive `L`, `((loop - 1) % L) + 1` lies in `1..L`. It equals `L` exactly when `loop % L == 0`. |
| Schedule.LoopsInCycleNext | app.py:188 | The position advances by one each loop and wraps from `L` to 1. |
| Schedule.SkipsWaitAfterBoundary | app.py:226 | The pause before loop `n + 1` is skipped exactly when loop `n` closed a big cycle and `L >= 2`. For `L == 1` it is never skipped. |
| Schedule.BigCyclesCompletedIsQuotient | app.py:219-221 | After `n` loops, `n / L` big cycles have closed. |
| Schedule.QuotientStep | app.py:219-221 | The quotient goes up by one exactly at a multiple of `L`. |
| Scheduler.RunBot | app.py:137-241 | The whole run. An initial load without codes logs one error and nothing else. A failed setup logs the startup lines, the error and the disconnect. Otherwise it logs the passes and then the stop, or after a zero big-cycle length the modulo error. The passes are exactly those the `running`/`paused` checks allow (`Steered`): a stop ends at a loop test that saw the bot stopped, and a crash at a loop test that saw it running and unpaused. The log is the last 30 of the stamped lines. `total_attempts` grows by one per processed code and `total_success` shows the run's successes once there is one. `running` ends cleared. |
| Scheduler.Connect | app.py:165-241 | The connected part of the run ends with the user's stop exactly when a loop test saw the bot stopped. It ends with the modulo error exactly when a loop test that saw it running and unpaused reached a reload whose big-cycle length is 0. Every pass before is driven by the checks. |
| Scheduler.Startup | app.py:158-163 | The three startup lines. The proxy line reads "enabled" exactly when proxies are on and the list is non-empty. |
| Scheduler.Finish | app.py:237-241 | The last line, then the disconnect line, with `running` cleared. |
| Scheduler.RunLoop | app.py:174-232 | The loop keeps `Progress` and `Steered`: the passes are numbered and counted as the source does, the logged lines are exactly the passes' lines, and each pass was started by a loop test that saw the bot running and unpaused after loop tests that saw it paused. Without a crash the loop ends at the first loop test since the last pass that saw the bot stopped. |
| Scheduler.Turn | app.py:174-188 | A turn whose loop test saw the bot paused only sleeps: one check consumed, no pass, nothing logged. Otherwise it crashes exactly when the reload has big-cycle length 0, and else runs one pass started at this loop test. |
| Scheduler.Reload | app.py:179-188 | A reload publishes `current_loop` and `current_big_cycle`. It fails with the modulo error exactly when the length is 0. Otherwise it publishes `loops_in_cycle` and runs one pass. |
| Scheduler.Advance | app.py:186-231 | One pass appends its report, whose loop number is one more than the passes before and whose big cycle is the one they left. Its checks went as `PassProbes` says. |
| Scheduler.RunPass | app.py:190-231 | A pass logs its start, its codes and its closing lines, and its success total grows by the pass's successes. Its checks went as `PassProbes` says: every processed code followed a check that saw the bot running and unpaused, a pass cut short ended at a check that did not, `runningAfter` is the `running` read after the codes, and the pause is entered exactly when that read saw `running` and the next loop does not start a big cycle. |
| Scheduler.ProcessCodes | app.py:195-214 | The codes processed are the ones reached before a check reads stopped or paused, in order, each with the next stubbed outcome. Each adds 1 to `total_attempts`. `total_success` follows the running success count. |
| Scheduler.NextCode | app.py:196-214 | One more code: one more outcome, one attempt, and the count grows only on success. |
| Scheduler.ProcessOne | app.py:199-210 | The two log lines of a code, chosen by its outcome. |
| Scheduler.FinishPass | app.py:216-231 | The pass tally, the big-cycle line when the loop number is a multiple of `L`, then the `running` read, and the waiting line and pause when it saw `running` and the next loop does not open a big cycle. The pause's checks are those `WaitProbes` describes. |
| Scheduler.WaitBetweenLoops | app.py:228-231 | The pause sleeps one second per check that reads running and not paused. It ends early at the first check that does not. |
| Scheduler.PassFacts | app.py:170-223 | Pass `i` is loop `i + 1` and used reload `i + 1`. Its big cycle is 1 for the first pass and then the previous one's, plus one after a closing pass. Its success total is the successes so far. |
| Scheduler.BigCycleOfPass | app.py:219-221 | With a fixed `L`, pass `i` is in big cycle `1 + i / L`. |
| Scheduler.BigCycleAfterRun | app.py:219-223 | With a fixed `L`, after `n` passes the counter is `1 + n / L`. |
| Scheduler.CountTrue | app.py:202-207 | The number of successful codes in a sequence of outcomes; it never exceeds the number of attempts. |
| Scheduler.NoPassWithoutProceed | app.py:174-196 | When no check from the loop's first on sees the bot running and unpaused, the run performs no pass and does not crash. |
| Scheduler.DrivenOrder | app.py:174-231 | The passes' loop tests come at or after the loop's first check, and each pass ends at a later check than the one that started it. |
| Scheduler.Text | app.py:145-241 | The text of each line `run_bot` logs, with its numbers in decimal. |
| Scheduler.LevelOf | app.py:145-241 | The level of each line `run_bot` logs: `success`, `info`, `warning` or `error`, as the source passes it. |
| Extraction.RunEnd | automated.py:73 | A greedy character-class run ends at the first character outside the class. |
| Extraction.MatchAtSpec | automated.py:73 | The address matcher tried at one position finds a match exactly when the pattern matches there, and it returns the longest one. |
| Extraction.Search | automated.py:73 | `re.search` reports the first position at which the pattern matches, and `None` only when it matches nowhere. |
| Extraction.ExtractEmail | automated.py:72-75 | An address is stored only when the lower-cased message announces one. |
| Extraction.ExtractEmailSpec | automated.py:72-77 | An address is stored exactly when the message announces one and contains one. It is the leftmost, longest address in the message. |
| Extraction.PrimaryMatchSpec | automated.py:80 | The greedy primary pattern matches at a position exactly when six digits, some whitespace and the phrase `is your verification code` follow there. |
| Extraction.FallbackStandsAlone | automated.py:87 | `\b(\d{6})\b` matches exactly the six-digit runs with no letter, digit or `_` on either side. |
| Extraction.PrimarySearch | automated.py:80 | The primary search fails exactly when the pattern occurs nowhere. Otherwise it finds its first occurrence. |
| Extraction.FallbackSearch | automated.py:87 | The fallback search fails exactly when the pattern occurs nowhere. Otherwise it finds its first occurrence. |
| Extraction.ExtractCode | automated.py:79-91 | A stored code is six ASCII digits. |
| Extraction.ExtractCodeSpec | automated.py:79-91 | A code is stored exactly when the primary pattern occurs, or the fallback does and the message mentions `verification`. The primary pattern's first occurrence wins; otherwise it is the fallback's first one. |
| ReferBot.SimplusAutoReferBot.constructor | automated.py:41-46 | No address, no code, neither event set. |
| ReferBot.SimplusAutoReferBot.HandleMessage | automated.py:67-91 | The address and the code are looked for independently, so one message may set both. Each found value is stored and sets its event. What is not found leaves its field and its event as they were. |
| ReferBot.RunCycle | automated.py:167-195 | The steps run in order and stop at the first failure, so a later step runs only after every earlier one succeeded. A successful cycle ran all four steps. The sending and registering steps get the generated address and the received code. |
| ReferBot.CycleSucceedsIffAllSteps | automated.py:173-195 | A cycle succeeds exactly when the address is non-empty, sending succeeds, the code is non-empty and registering succeeds. |
| ReferBot.NormalPadded | automated.py:217 | Whitespace around an answer and letter case do not change the normalised answer. |
| ReferBot.Classify | automated.py:217-223 | The normalised answer `y`/`yes` reads as yes and `n`/`no` as no; anything else is re-prompted. `ClassifyPadded` states its independence of padding and case. |
| ReferBot.ClassifyPadded | automated.py:217-221 | Whitespace around an answer and letter case do not change how it is read. |
| ReferBot.ReadAnswer | automated.py:217-221 | One prompt reads its line the way `Classify` says. |
| ReferBot.GetUserApproval | automated.py:214-223 | The prompt reads lines until one is `y`/`yes`/`n`/`no` after `lower().strip()` and answers with it, having found no recognised line before it. When the input runs out first there is no answer. |
| ReferBot.NoneRecognisedEach | automated.py:222-223 | The lines skipped by the prompt are exactly unrecognised ones. |
| ReferBot.RecognisedAnswer | automated.py:216-221 | One call of the prompt adds exactly its answer to the recognised answers so far. |
| ReferBot.RecognisedSkips | automated.py:222-223 | Re-prompted lines add no answer. |
| ReferBot.ApprovalStep | automated.py:261-265 | After the prompt at the end of big cycle `b` the recognised answers are `b` approvals when the run goes on, or `b - 1` approvals and a refusal when it stops. When the input ran out they are `b - 1` approvals. |
| ReferBot.RunContinuous | automated.py:237-273 | The loop stops only at the end of a big cycle, after a refusal or when the console input runs out. It has run a whole number of big cycles, and every earlier prompt answered yes. Each cycle's report has its own outcome and the running success total. Each report also has the big-cycle number `1 + (n - 1) / 50`, the position `((n - 1) % 50) + 1`, and a pause exactly when the next cycle does not start a big cycle. |
| ReferBot.OneCycle | automated.py:243-273 | One pass of the loop keeps that invariant or ends the run. |
| ReferBot.ProgressNext | automated.py:265-273 | A cycle that is not the last moves the loop on to the next cycle. |
| ReferBot.StopFinished | automated.py:261-263 | Stopping after the cycle that closes a big cycle completes the run. |
| ReferBot.SuccessesBound | automated.py:246-247 | The success count never exceeds the cycle count. |
| ReferBot.ReportBounds | automated.py:245-250 | After every cycle, `success_count <= cycle_count` and the position is in `1..50`. The position is 50 exactly at a multiple of 50. |
| ReferBot.RunTiming | automated.py:253-273 | Over a whole run, the 5-second pause follows every cycle except the fiftieth of each big cycle. The big-cycle number goes up by one exactly after those. |

## Left out

- Flask routing, login, sessions, templates and JSON encoding (app.py:16-23, 85-91, 249-292, 353-358, 399-410). `get_status` and `get_config` only read state. The handlers are modelled as operations on the state, and their JSON answers as a `Reply` datatype.
- Reading and writing `config.json` (app.py:29-47, 57-60): the stored configuration is an abstract map. Only the proxy-key defaulting of `load_config` is modelled. The environment-variable initialisation of a missing file is not.
- `keep_alive_ping` (app.py:106-135) and `run_bot_thread` (app.py:243-247): a timer thread and an event loop. Thread interleaving is not modelled. Each handler is one atomic step, and the scheduler sees other threads only through its probes.
- Time: the sleeps, `asyncio.wait_for` timeouts and the 1-second, 5-second and configured pauses take one step each. Timestamps come from `clock`.
- Telegram and HTTP: `setup_telegram`'s client start, `generate_new_email`, `send_verification_code`, `wait_for_verification_code`, `register_user`, `send_thank_you_message` and `send_completion_message`. Their results are the fields of `CycleWorld`. The messages sent and the console prints are not modelled.
- Unicode: `\d`, `\w` and `lower()` are modelled for ASCII only. Python's Unicode classes are wider.
- Json.PyInt: on strings, only ASCII digits are read. Python's `int()` also accepts every other Unicode decimal digit.
- Json.PyInt: numerals of any length are read. From Python 3.11 on, `int()` refuses a numeral string of more than 4300 digits with `ValueError`, and JSON parsing refuses an integer literal that long. Such a value makes `update_config` answer failure (app.py:396-397), and makes `Control.RequestedLimit` fall back to 20 (app.py:350). The model reads the value instead.
- Json.PyInt: a JSON number with a fraction or exponent is held as an exact real. Python rounds it to a double, and a literal too large for one becomes an infinity. `int()` then gives the truncation of the rounded value, or refuses it.
- Control.BotState.UpdateConfig: takes the request body as a JSON object. Other bodies are not modelled: a body that is not JSON, null, a number or a boolean makes app.py:368 raise, and the handler answers failure. For a list or a string, the `in` tests at app.py:368-386 are membership or substring tests.
- Scheduler.RunBot: assumes that the bot constructor and each `run_cycle` call succeed. As written, app.py:153-156 passes `proxy_list`/`use_proxy` to a constructor that takes no arguments (automated.py:41), and app.py:201 passes four arguments to a `run_cycle` that takes one (automated.py:167). The two files come from different revisions. The constructor call also sits outside the `try` at app.py:165, so a failure there would leave `running` set.
- Scheduler.RunBot: assumes every configuration it loads is well-typed. It must have the four keys, `invitation_codes` and `proxy_list` must be lists of strings, and the timings must be integers. `update_config` can save other values (`Control.ListField` stores a non-string value as given), and the source then takes paths the model does not have:
  - A missing key raises `KeyError`: at app.py:142 before the `try`, or at app.py:181-184 inside it.
  - A number, `true` or an object as `invitation_codes` passes `if not invitation_codes` (app.py:144). `len()` then raises `TypeError` at app.py:159, before the `try`. The same happens at app.py:161 when `proxy_list` is not a list and `use_proxy` is set. In both cases no error or disconnect line is logged and `running` stays set.
  - Such a value in a later reload raises at app.py:190, inside the `try`. The run then logs `Bot error: …` and disconnects, which the model's `Crashed` does not cover.
  - An object as `invitation_codes` is iterated over its keys, and a list of non-strings is formatted with `str()`.
- Scheduler.Connect: its ending "crashes exactly when a reload has big-cycle length 0" holds for well-typed reloads only. The ill-typed reload paths are listed under `Scheduler.RunBot` above.
- Scheduler.Turn: the crash-if-and-only-if-length-0 clause assumes a well-typed reload, as for `Scheduler.RunBot`.
- Scheduler.Reload: the crash-if-and-only-if-length-0 clause assumes a well-typed reload, as for `Scheduler.RunBot`.
- Scheduler.RunBot: the exception texts other than the modulo error are inputs (`setupError`), and exceptions raised by the cycle stubs are not modelled.
- ReferBot.RunContinuous: end of console input is modelled as a stop (`InputExhausted`): `input()` raises, the `except Exception` branch at automated.py:277 ends the loop and the client disconnects. `KeyboardInterrupt` and other exceptions are not modelled. Neither are the setup and thank-you message before the loop.
- ReferBot.RunContinuous: the statistics and big-cycle lines are modelled as the numbers they show (`CycleReport`), not as the printed text.
- `setup_check.py`: it checks files, environment variables and imports.
