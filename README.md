# instagram-bot, modelled in Dafny

This project models two parts of an Instagram direct-message bot.

The first is the `InstagramBot` class. It runs an hourly rate limiter, keeps a set of processed message ids, and applies a five-minute staleness rule. It answers club questions with a fixed text, found by a keyword test. Other messages get a language-model reply or a canned greeting. One `check_messages` sweep covers every thread, newest message first. Pending follow requests are approved. A health check and a retry counter supervise the main loop.

The second is the small control API in `api/bot.py`: `start_bot`, `stop_bot` and `bot_status`. They act on the module globals `bot_instance`, `bot_thread` and `bot_running`.

Layout, one module per file:

- `settings.dfy`: the `config.py` values the logic reads, as one `Config` value (`Shipped` is the file as delivered).
- `text.dfy`: `str.lower()`, the substring test `k in s`, and `str.strip()`.
- `responder.dfy`: `get_natural_response`.
- `freshness.dfy`: `is_new_message`.
- `botspec.dfy`: the decisions of the bot as functions of its state.
  - `Gate`: `should_respond`.
  - `Process`: `process_message`.
  - `Visit`, `Drain`, `Sweep`, `CheckMessages`: `check_messages`.
  - The lemmas state the invariants: the cap holds, the processed set grows, sends go only to other users, and a failure stays inside its thread.
- `instabot.dfy`: the class `InstagramBot`. It keeps the same fields. `ShouldRespond`, `ProcessMessage` and the `check_messages` methods are proved to produce the new state and the call log that the `botspec.dfy` functions prescribe. `HealthCheck` and `CheckFollowRequests` have no counterpart in `botspec.dfy`; their contracts state the new state and the calls directly.
- `supervisor.dfy`: the retry counter of `run`.
- `apibot.dfy`: the control API as a class over the three globals.
- `scenarios.dfy`: whole `check_messages` runs on small inboxes.

The outside world comes in as parameters:

- clock readings (integer seconds);
- the language model's answer, or that it raised;
- the random draw of `random.choice`;
- whether `direct_send`, `friendships_approve`, `get_timeline_feed`, `login` and the thread listings returned or raised.

Two external calls are appended, in order, to the ghost log `calls`: `direct_send` and `friendships_approve`, each with whether it returned. The thread listings, the health probe, `login` and the language-model call are not logged; they are inputs.

Where the code differs from what its comments say, the model follows the code:

- The comments at api/bot.py:54 and :81 describe `running` as a flag that stops and controls the bot loop, but `run()` never reads `self.running`. Stopping the bot through the API therefore does not end the loop; it only changes flags.
- `start_bot` sets `bot_running`, and only `stop_bot` clears it. `run_bot` clears `bot_instance.running` when `run()` returns but leaves `bot_running` alone. So `bot_status` keeps reporting "running" after the loop has exited (`ApiBot.Controller.RunBotEnds`).
- A listed message without text (`message.text` is `None`) raises at the log line before `is_new_message`. That abandons the rest of its thread: the newest-first sweep of that thread stops there, and the next thread is swept normally.
- A timestamp attribute that is present but unusable (here `Unreadable`) does not fall through to the next attribute. It raises, and the message is treated as new.

## Model

| member | source | states |
|---|---|---|
| Text.Lower | insta_bot.py:96 | lower-casing keeps the length and maps every character by itself (ASCII letters only) |
| Text.LowerIdempotent | insta_bot.py:96 | lower-casing twice is the same as once |
| Text.OccursIff | insta_bot.py:97 | the recursive substring test holds exactly when the keyword appears at some index |
| Text.LowerKeepsOccurrence | insta_bot.py:96-97 | an occurrence in a message is still one after both sides are lower-cased |
| Text.AnyOccursIff | insta_bot.py:97 | `any(k in s for k in ks)` holds exactly when some keyword of the list occurs |
| Text.TrimStart | insta_bot.py:111 | left strip: a suffix, everything removed is whitespace, and the result does not start with whitespace |
| Text.TrimEnd | insta_bot.py:111 | right strip: a prefix, everything removed is whitespace, and the result does not end with whitespace |
| Text.Strip | insta_bot.py:111 | the result is a contiguous part of the input, with only whitespace around it, and neither end of it is whitespace |
| Text.StripIdempotent | insta_bot.py:111 | stripping an already stripped reply changes nothing |
| Responder.Fallback | insta_bot.py:114 | a canned reply exists exactly when the first default list is non-empty, and it is an element of that list |
| Responder.KeywordFastPath | insta_bot.py:95-99 | on a keyword hit the reply is exactly `CLUB_INFO`, whatever the model would say and whatever the draw |
| Responder.ModelAnswerStripped | insta_bot.py:101-111 | without a keyword the reply is the model's answer, stripped |
| Responder.ModelFailureFallsBack | insta_bot.py:112-114 | when the model fails and no keyword matches, the reply is an element of the first default list, and each element can be drawn |
| Responder.MatchIgnoresCase | insta_bot.py:96-97 | a keyword written in the message in any mix of cases (any `w` that lower-cases to it) still selects `CLUB_INFO` |
| Responder.ShippedAlwaysAnswers | insta_bot.py:92-114 | with the shipped configuration the method always yields a string |
| Freshness.FirstPresent | insta_bot.py:136-150 | the first present entry of a list: `Missing` exactly when all are missing, otherwise an entry with only missing ones before it |
| Freshness.ResolvePriority | insta_bot.py:136-150 | the timestamp is taken from `taken_at`, else `timestamp`, else `created_at`, whichever is first present |
| Freshness.ProcessedIsNotNew | insta_bot.py:128-130 | an id in the processed set is not new, whatever its timestamp |
| Freshness.NewUnlessStale | insta_bot.py:133-166 | an unprocessed message is rejected exactly when a usable timestamp is more than five minutes old; no timestamp, or an unreadable one, means new |
| Freshness.StaleBoundary | insta_bot.py:158-160 | exactly 300 seconds old is new, 301 seconds is stale |
| Freshness.UnreadableShadowsLater | insta_bot.py:136-166 | an unreadable `taken_at` makes the message new even when `timestamp` is old; a missing one lets the old `timestamp` decide |
| BotSpec.ResetBoundary | insta_bot.py:119-123 | exactly one hour after the last reset the window is kept, one second later it is reset; a gate never raises the count |
| BotSpec.CapHoldsForTheHour | insta_bot.py:116-123 | once the cap is reached every gate in the same hour refuses and changes nothing; the first gate after the hour lets a reply through |
| BotSpec.ProcessRefused | insta_bot.py:170-178 | a refused gate or a message from the bot itself: no reply, no send, id not recorded, count not incremented (the gate may have reset the window) |
| BotSpec.ProcessSendsOnce | insta_bot.py:180-199 | at most one send, always to the sender alone; a returned reply is the generated one and was delivered, and then the id is added and the count rises by one; with no reply neither changes, and a send if any is one that raised |
| BotSpec.ProcessDelivers | insta_bot.py:170-195 | the converse: when the gate allows, the sender is not the bot, a reply was generated and the send returned, that reply is returned, sent once to the sender alone, the id is recorded and the count rises by one |
| BotSpec.ProcessKeeps | insta_bot.py:168-199 | processing never shrinks the processed set, never pushes the count past the cap, and never sends to the bot itself |
| BotSpec.VisitOnlyDispatchesNew | insta_bot.py:229-246 | a listed message changes something only if it is from another user, unprocessed, has text and is new; only a message without text aborts the thread, and changes nothing |
| BotSpec.VisitDispatches | insta_bot.py:230-246 | the converse: a message from another user, unprocessed, with text and new is handed to `process_message` and the visit goes on |
| BotSpec.VisitExtends | insta_bot.py:228-246 | one visit keeps the invariants and replies only to other users |
| BotSpec.NewestFirstAt | insta_bot.py:228 | `reversed(messages)`: same length, position k holds the k-th message from the end |
| BotSpec.DrainLast | insta_bot.py:228-249 | visiting a thread newest first is visiting its last message, then the rest unless that visit raised |
| BotSpec.DrainExtends | insta_bot.py:222-249 | a whole thread keeps the invariants and replies only to other users |
| BotSpec.SweepExtends | insta_bot.py:222-249 | a whole sweep keeps the invariants, only appends to the call log, and replies only to other users |
| BotSpec.SweepAppend | insta_bot.py:219-222 | sweeping regular and hidden threads together is sweeping the regular ones, then the hidden ones from where they left off |
| BotSpec.FailedThreadSkipped | insta_bot.py:247-249 | a thread whose messages could not be fetched is skipped and the sweep continues with the next thread |
| BotSpec.CheckMessagesKeeps | insta_bot.py:201-257 | after `check_messages` the id is set and kept, the processed set has grown, the cap holds, the health clock is untouched, every send went to one other user |
| BotSpec.HiddenAfterRegular | insta_bot.py:212-219 | hidden threads are swept after all regular ones; if listing them fails no thread is swept |
| BotSpec.RaisesOnlyOnFailedRelogin | insta_bot.py:253-257 | `check_messages` raises only when a listing raised `LoginRequired` and the relogin failed |
| InstaBot.InstagramBot.constructor | insta_bot.py:27-33 | count 0, both clocks at `now`, empty processed set, no bot id, empty call log |
| InstaBot.InstagramBot.ShouldRespond | insta_bot.py:116-123 | resets the window exactly when more than an hour has passed, otherwise changes nothing; answers whether the count is below the cap |
| InstaBot.InstagramBot.ProcessMessage | insta_bot.py:168-199 | the new state, the reply and the calls made are those of `BotSpec.Process`; the cap invariant holds and the processed set grows |
| InstaBot.InstagramBot.VisitMessage | insta_bot.py:229-246 | one round of the inner loop does what `BotSpec.Visit` says |
| InstaBot.InstagramBot.SweepThread | insta_bot.py:224-249 | the messages of one thread, newest first until one raises, as `BotSpec.Drain` says |
| InstaBot.InstagramBot.VisitThread | insta_bot.py:222-249 | one round of the outer loop, as `BotSpec.ThreadStep` says |
| InstaBot.InstagramBot.SweepThreads | insta_bot.py:222-249 | all threads in order, as `BotSpec.Sweep` says |
| InstaBot.InstagramBot.CheckMessages | insta_bot.py:201-257 | state, call log and whether it raised are those of `BotSpec.CheckMessages`; the cap invariant holds and the processed set grows |
| InstaBot.InstagramBot.HealthCheck | insta_bot.py:259-274 | healthy when disabled or within the interval; otherwise healthy exactly when the probe returned, and the clock moves only then |
| InstaBot.InstagramBot.CheckFollowRequests | insta_bot.py:276-296 | every pending user gets exactly one approval attempt, in order, whatever earlier attempts returned; nothing when the listing raised |
| Supervisor.Run | insta_bot.py:298-327 | the counter after each pass follows `Retries`; the loop stops exactly when the counter has reached the maximum, and every pass run started below it |
| Supervisor.FailuresAccumulate | insta_bot.py:324-327 | consecutive failed logins add one each |
| Supervisor.FailuresEndTheRun | insta_bot.py:305-307 | `MAX_RETRIES` consecutive failed logins end the run from any history |
| Supervisor.LoginResets | insta_bot.py:309-314 | after a login that returns, the counter is 0, or 1 if the cycle then raised |
| Supervisor.RetriesCountFailuresSinceLogin | insta_bot.py:301-327 | the counter is the number of failures since the last login that returned |
| ApiBot.Controller.constructor | api/bot.py:21-23 | no instance, no thread, not running |
| ApiBot.Controller.StartBot | api/bot.py:25-44 | 400 and no change when running; 500 and no change when construction raises; otherwise a fresh bot, then 200 with the flag set, or 500 with it clear when the thread fails to start |
| ApiBot.Controller.StopBot | api/bot.py:46-65 | 400 and no change when not running; otherwise the bot's own flag is cleared, then 200 with the global flag cleared, or 500 with it still set when joining raised |
| ApiBot.Controller.BotStatus | api/bot.py:67-74 | code 200, and "running" exactly when the flag is set, "stopped" exactly when it is not; reads only |
| ApiBot.Controller.RunBotBegins | api/bot.py:80-82 | the thread marks the current bot running and changes nothing else about it |
| ApiBot.Controller.RunBotEnds | api/bot.py:85-88 | after `run()` returns the current bot is marked stopped, and `bot_running` is left as it was |
| Scenarios.ClubQuestionDispatched | insta_bot.py:168-199 | a club question from another user in a fresh window is answered with the club text, recorded and counted |
| Scenarios.ClubQuestionThread | insta_bot.py:222-246 | in a thread of a question followed by the bot's own message, the own message is skipped and the question answered once |
| Scenarios.ClubQuestionAnsweredOnce | insta_bot.py:201-257 | a whole `check_messages` run on that thread sends exactly one message, the club text to the asker, and records the question |
| Scenarios.ShippedMembershipQuestion | insta_bot.py:95-99 | with the shipped configuration a message mentioning "membership" in any case is answered with `CLUB_INFO` |
| Scenarios.ExhaustedWindowAnswersNothing | insta_bot.py:170-172 | with 50 replies already sent in the current hour a new message gets no send and is not recorded |

## Left out

- `login`, `load_session`, `save_session` and the session file: file and network I/O. Only whether `login` returns is modelled, as an input of `check_messages` (`reloginOk`) and as the pass kinds of `Supervisor.Run`.
- All `time.sleep` calls and the `random.uniform` delay: timing only, with no effect on state.
- Logging and `new_messages_count`, which is only logged.
- `datetime`, time zones and the integer/float epoch branches: every clock is an integer number of seconds.
- Text.Lower: lowers ASCII letters only. Python's `str.lower()` also maps non-ASCII capitals; the club keywords are ASCII, but a message with non-ASCII capitals can match differently.
- The instagrapi and OpenAI clients are inputs. Their results (`direct_threads`, `direct_messages`, `direct_send`, `friendships_pending`, `friendships_approve`, `get_timeline_feed`, `chat.completions.create`) arrive as oracle values, and an exception is one of those values.
- A `user_id` of `None` from the client: ids are always strings here.
- Supervisor.Run: the inner loop of `run` is abstracted into how each pass of the outer loop ended (login raised, health check failed, or a cycle raised). The loop runs over a given finite sequence of such passes instead of forever.
- Threads, `daemon`, `join(timeout=5)` and Flask routing: the thread is an opaque object. A join is observable only through whether it raised.
- The race between concurrent `start_bot` and `stop_bot` requests: the handlers are modelled as atomic steps.
- `pages/` (the React page and the Next.js handlers): glue with no logic of its own.
- `CHECK_INTERVAL`, `RESPONSE_DELAY`, `MAX_MESSAGE_LENGTH`, `MIN_MESSAGE_LENGTH`, `SESSION_FILE`, `SAVE_SESSION`, `OPENAI_MODEL`, `MAX_TOKENS`, `TEMPERATURE` and `RETRY_DELAY`: no decision reads them, or they only affect timing or the model request.
