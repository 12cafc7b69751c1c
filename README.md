# Outreach conversation engine — a Dafny model

This project models the core of `script_version_1/script.py`, a worker that
runs an outreach campaign over a messaging account. The worker does four things:

- It walks a spreadsheet of contacts from a stored cursor, at most four
  contacts a day.
- It greets each contact and arms a two-hour reminder.
- It buffers each contact's replies behind a 15-second debounce timer.
- When that timer fires, it answers the buffered messages with a
  chat-completion request. The answer may be followed by a fixed invitation.
  Statistics are upserted into PostgreSQL along the way.

The asynchronous handlers and timers become a sequential event model.
Each event is a method of `Conversation.Engine`:

- greeting a contact;
- an inbound message;
- a debounce timer firing;
- a reminder timer firing.

A timer is a pending task that the environment may fire at any point. The
outside world is passed in as values:

- whether a send is delivered;
- how a database statement ends;
- what the completion service answers to the `k`-th request;
- which greeting template is used.

## Modules

| file | module | models |
|---|---|---|
| `wrappers.dfy` | `Wrappers` | `Option` |
| `text.dfy` | `Text` | Python's `str.strip()`, `in`, `str.lower()` and `str.replace()` |
| `store.dfy` | `Store` | the `processing_index` and `user_stats` tables and the three database helpers |
| `feed.dfy` | `Feed` | `load_single_username_from_excel` on the two spreadsheet columns |
| `completion.dfy` | `Completion` | `validate_messages` and the retry loop of `get_4o_answer` |
| `conversation.dfy` | `Conversation` | `send_message`, `on_message`, `reset_timer`, `start_timer` and `reminder_timer` as methods of `Engine` |
| `pacer.dfy` | `Pacer` | the `while True` loop of `main` |
| `scenarios.dfy` | `Scenarios` | worked traces over concrete inputs |

Engine state:

- `Engine` keeps the session table in `stats`.
- It keeps histories, buffers and the `timers` table.
- It keeps the sets of pending debounce and reminder tasks.
- `outbox` holds the delivered messages, in order.
- `Engine.Valid()` is the invariant every event keeps. It says:
  - each user has at most one pending debounce timer, and it is the one
    `timers` holds;
  - every stats entry has `message_count` 0 and `initial_message_sent` set;
  - no user is ever delivered two reminders;
  - a user who got a reminder has `reminder_sent` set.

Pacer:

- The pacer's control flow does not depend on whether a greeting is
  delivered or recorded (`send_message` catches every exception).
- So the passes of the loop are a function `Pacer.Plan` of the two columns
  and the initial cursor.
- `Pacer.RunCampaign` runs the loop against a real `Engine` and is proved to
  follow `Plan`.
- The lemmas `PlanCounter`, `PlanCursor` and `PlanEnd` state what the plan does.

## Where the code departs from its comments

The model follows the code in each case:

- **Reminders are never cancelled.**
  - The comment at script.py:394 says the reminder timer is cancelled when
    a message arrives.
  - But `timers` only ever holds debounce tasks (script.py:441). The
    reminder task created by `send_message` is not stored anywhere
    (script.py:347).
  - So the cancellation in `on_message` (script.py:395-397) cancels the
    pending debounce flush, not the reminder.
  - A reply still suppresses the reminder, because `reminder_timer`
    re-checks `user_replied` when it fires (script.py:364).
  - `Conversation.Engine.ReminderFired` states this: once a user has
    replied, a firing reminder sends nothing.
- **`message_count` never grows.**
  - The `user_stats` table has a `message_count` column (script.py:73).
  - No handler writes the count back into the session table.
  - So every greeting, inbound message and flush records `message_count`
    as 1 (script.py:341, 404, 516), and a reminder records 0
    (script.py:372).
  - `EntriesValid` in `Engine.Valid()` states this as an invariant.

## Other behaviour the model keeps

- **A reply from an unknown sender raises `KeyError`.**
  - The sender's entry is dereferenced without a check (script.py:404).
  - So a contact must have been greeted before its messages are handled.
    This is the precondition of `OnMessage`.
- **Positions can be negative, and the columns can differ in length.**
  - A cursor position is a Python list index.
  - A negative position counts from the end of the column (script.py:161).
  - The name column has its empty cells dropped separately (script.py:156).
    When it is shorter, the lookup raises `IndexError`. It leaves `main`
    through the `finally` (script.py:605-608), so `asyncio.run` raises and
    the whole process stops: no pending reminder or debounce task fires
    after a `Crashed` run, though the model's environment may still fire one.
  - `Feed.LoadSingle` and the `Crashed` end of a pacer run model this.
- **There are two `context` tables.**
  - `main` hands a local `context` to `send_message`, `on_message` and
    `reminder_timer` (script.py:549).
  - `start_timer` reads the module-level table rebound at script.py:380.
  - The model keeps one shared session table.
  - `Engine`'s `histories` stand for the module-level
    `context[username]["messages"]` that the flush extends (script.py:487).
  - `on_message` also sets `context[username] = []` in `main`'s table
    (script.py:423-425). No handler reads that value, so the model leaves
    this write out. With one literal shared table, the flush's
    `context[username]["messages"]` would raise `TypeError` on that list.
  - The flush only ever writes `sensitive_info_sent`, which no other
    handler reads. The entry it may create holds the same values as a
    fresh one. So the stats entries, the delivered messages and the
    database rows are the same either way, for every user except one
    named `stats` (see "## Left out").

## Model

| member | source | states |
|---|---|---|
| Text.LeadingSpaces | script_version_1/script.py:282 | the count of leading whitespace characters: all of them are whitespace and the next one is not |
| Text.TrailingSpaces | script_version_1/script.py:282 | the count of trailing whitespace characters: all of them are whitespace and the one before is not |
| Text.Strip | script_version_1/script.py:282 | Python's `str.strip()` with its whitespace set; what it returns is stated by `StripTrims`, `StripKeepsTrimmed` and `StripIdempotent` |
| Text.StripTrims | script_version_1/script.py:282 | `strip()` returns the infix left after dropping the leading whitespace; it neither starts nor ends with whitespace, and only whitespace follows it |
| Text.StripKeepsTrimmed | script_version_1/script.py:282 | a string without surrounding whitespace is returned unchanged |
| Text.StripIdempotent | script_version_1/script.py:282 | stripping twice equals stripping once |
| Text.Contains | script_version_1/script.py:498 | Python's `sub in s`; stated in both directions by `ContainsIff` |
| Text.Lower | script_version_1/script.py:522 | `str.lower()` character by character; it keeps the length, and `LowerIdempotent` states that it is idempotent |
| Text.ContainsIff | script_version_1/script.py:498 | `sub in s` holds exactly when `sub` occurs in `s` at some index (both directions) |
| Text.LowerIdempotent | script_version_1/script.py:522 | lower-casing is idempotent |
| Text.ContainsSurvivesLower | script_version_1/script.py:522 | a reply that contains the lower-case guide keyword passes the lower-cased keyword test |
| Text.ReplaceAll | script_version_1/script.py:316 | Python's `str.replace()` over non-overlapping matches from the left; stated by `ReplaceAllAbsent` and `ReplaceAllInserts` |
| Text.ReplaceAllAbsent | script_version_1/script.py:316 | a template without the placeholder is sent unchanged |
| Text.ReplaceAllInserts | script_version_1/script.py:316 | a template that contains the pattern contains the replacement after `replace` |
| Store.Snapshot | script_version_1/script.py:121-123 | the row a caller writes holds its four values; the four optional columns are NULL |
| Store.CursorOf | script_version_1/script.py:98-111 | the position read is the stored `current_index`, or 0 when there is no row |
| Store.AfterRead | script_version_1/script.py:102-111 | a read adds a 0 row only when there is none; existing rows are never overwritten |
| Store.AfterUpdate | script_version_1/script.py:114-118 | the update overwrites the named campaign's row only, and creates no row |
| Store.Upsert | script_version_1/script.py:129-148 | after the upsert, the username's row is exactly the supplied row; every other row is unchanged |
| Store.ReadIdempotent | script_version_1/script.py:98-111 | reading a cursor twice leaves the table and the position as one read does |
| Store.ReadStores | script_version_1/script.py:98-111 | a read stores exactly the position it returns |
| Store.ReadThenUpdate | script_version_1/script.py:98-118 | a read followed by an update sets the campaign to the written value and touches no other campaign |
| Store.UpsertIdempotent | script_version_1/script.py:129-148 | repeating an identical upsert changes nothing |
| Store.UpsertLastWriterWins | script_version_1/script.py:136-146 | whole-row last-writer-wins: of two upserts for one username only the second survives, NULL columns included |
| Store.UpsertsCommute | script_version_1/script.py:129-148 | upserts for different usernames commute |
| Store.Database.GetCurrentIndex | script_version_1/script.py:98-111 | returns the stored position or 0, and the table becomes `AfterRead` of the old one |
| Store.Database.UpdateCurrentIndex | script_version_1/script.py:114-118 | the cursor table becomes `AfterUpdate` of the old one; the stats table is untouched |
| Store.Database.LogAndUpdateStats | script_version_1/script.py:121-150 | the row is upserted exactly when the statement commits; a `PostgresError` is swallowed; only another failure reaches the caller |
| Feed.PyIndex | script_version_1/script.py:161 | a Python list subscript: defined exactly for `-len <= i < len`, counting negative indices from the end |
| Feed.LoadSingle | script_version_1/script.py:153-161 | exhausted with the start index exactly when `start >= len(usernames)`; for an in-range index of both columns, the pair there and `start + 1`; a found pair is the Python subscript of both columns at the start index, negative indices counting from the end; `IndexError` exactly when a subscript is out of range |
| Completion.CheckEach | script_version_1/script.py:259-263 | accepted exactly when every element is a dict with both keys; otherwise the first failing element decides the error message |
| Completion.ValidateMessages | script_version_1/script.py:256-263 | accepted exactly when the value is a list of such dicts; a non-list gets the list error; every error message is one of the three texts |
| Completion.HistoryValidates | script_version_1/script.py:256-263 | every history of role/content turns passes validation; nothing in the worker calls `validate_messages`, so this is a property of the function alone |
| Completion.Retried | script_version_1/script.py:285-296 | an outcome is retried exactly when it is neither content nor `InvalidRequestError` |
| Completion.Attempts | script_version_1/script.py:273-299 | the retry loop as a function of the service's answers; what it returns is stated by `AttemptsBounded`, `FirstDecisiveRequest`, `AllRequestsRetried` and `AttemptsFrom` |
| Completion.AttemptsBounded | script_version_1/script.py:273-299 | issues at most `max_retries` requests, and at least one when `max_retries` is positive; the text is the fallback or the stripped content of the last request |
| Completion.FirstDecisiveRequest | script_version_1/script.py:273-293 | after `k` retried failures, request `k` decides: content is returned stripped, `InvalidRequestError` gives the fallback, and exactly `k + 1` requests were issued |
| Completion.AllRequestsRetried | script_version_1/script.py:285-299 | when every request fails with a retried error, the whole budget is used and the fallback is returned |
| Completion.AttemptsFrom | script_version_1/script.py:285-296 | retried failures are skipped over without changing the outcome |
| Completion.AnswerTrimmed | script_version_1/script.py:282-299 | a reply the loop returns, unless it is the fallback, has no surrounding whitespace: stripping it again changes nothing |
| Completion.GetAnswer | script_version_1/script.py:266-299 | the loop returns the text and request count of `Attempts` on the prompt followed by the history, within the request budget |
| Conversation.SenderKey | script_version_1/script.py:387 | the chat username, or `unknown_user` when it is missing or empty |
| Conversation.Personalize | script_version_1/script.py:316 | `replace('Script1name', client_name)` on a greeting template; stated by `PersonalizeNames` and `PersonalizeFixed` |
| Conversation.PersonalizeNames | script_version_1/script.py:316 | a template holding the placeholder yields a greeting that contains the client's name |
| Conversation.PersonalizeFixed | script_version_1/script.py:316 | a template without the placeholder is sent unchanged |
| Conversation.ApologyFor | script_version_1/script.py:410-420 | the sticker apology exactly for a sticker, the voice apology exactly for a voice message or a video note |
| Conversation.MentionsGuide | script_version_1/script.py:522 | the keyword test on the lower-cased reply; stated by `Text.ContainsSurvivesLower` and `Scenarios.GuideMentioned` |
| Conversation.MentionsGuideLowered | script_version_1/script.py:522 | the guide test ignores case: a lower-cased reply mentions the guide exactly when the reply does |
| Conversation.WithEntry | script_version_1/script.py:454-471 | `start_timer` gives the user an entry: a fresh one when absent; an existing one keeps its values; other entries are untouched |
| Conversation.Engine.constructor | script_version_1/script.py:19-21 | every table starts empty and the invariant holds |
| Conversation.Engine.SendInitial | script_version_1/script.py:312-350 | registers the contact and appends the personalised greeting when delivered; the row is written only after delivery; the reminder is armed unless delivery fails or a non-Postgres error is raised |
| Conversation.Engine.OnMessage | script_version_1/script.py:385-431 | marks the sender as replied, cancels and deletes its debounce timer, and writes the row; media get their apology and leave the buffer and timers alone; text is appended to the buffer and re-arms the timer |
| Conversation.Engine.CancelDebounce | script_version_1/script.py:395-397 | the user's timer entry is deleted and its pending task cancelled; nothing else changes |
| Conversation.Engine.ResetTimer | script_version_1/script.py:434-441 | the old timer is cancelled and a fresh task stored, so exactly one debounce task is pending for the user |
| Conversation.Engine.DebounceFired | script_version_1/script.py:444-538 | an empty buffer issues no request; a full one moves to the end of the history, in order, and the buffer empties; the reply and its flag follow as in `Flush` |
| Conversation.Engine.Flush | script_version_1/script.py:474-536 | the history becomes the old history plus the buffer; a non-empty delivered reply is appended as an assistant turn; `sensitive_info_sent` is set exactly when the reply contains the webinar link; the invitation follows a reply mentioning the guide |
| Conversation.Engine.Respond | script_version_1/script.py:501-505 | a non-empty reply is sent and appended as an assistant turn; a failed delivery ends the flush with nothing recorded |
| Conversation.Engine.Record | script_version_1/script.py:508-532 | the entry's `sensitive_info_sent` is set from the reply, the row is written, and the invitation follows unless a non-Postgres error was raised |
| Conversation.Engine.ReminderFired | script_version_1/script.py:354-378 | the reminder is sent only if the user has neither replied nor been reminded; once delivered it sets `reminder_sent` and writes the row; if the user has replied nothing is sent |
| Pacer.NextPass | script_version_1/script.py:565-600 | a pass waits for the next day exactly at the quota, and a greeting happens only below the end of the username column |
| Pacer.NextPassCases | script_version_1/script.py:565-600 | below the quota a pass greets the contact found at the cursor, non-empty username and name, writing the cursor plus one and counting one more; otherwise it stops at the cursor, crashing exactly on `IndexError` |
| Pacer.Plan | script_version_1/script.py:564-600 | the passes of the loop from a cursor and a counter, as a function of the two columns; stated by `PlanCounter`, `PlanCursor` and `PlanEnd` |
| Pacer.PlanCounter | script_version_1/script.py:550-600 | `users_processed` goes up by one per contact and never exceeds the quota; the wait happens exactly at the quota and resets the counter; the hour's pause follows a contact only while the counter is below the quota |
| Pacer.PlanCursor | script_version_1/script.py:566-584 | each greeted contact is the lookup at the initial cursor plus the number greeted before it, with non-empty fields; the cursor is then written as that position plus one |
| Pacer.PlanEnd | script_version_1/script.py:570-590 | the loop ends right after the last contact: crashing exactly when the lookup raises `IndexError`, otherwise because the feed is exhausted or has an empty field |
| Pacer.GreetingOf | script_version_1/script.py:315-333 | a greeting is delivered exactly when the pass greets a contact and the send succeeds; it goes to that contact |
| Pacer.GreetingsOfContacts | script_version_1/script.py:564-590 | a run delivers at most one greeting per contact greeted, each addressed to one of them |
| Pacer.ContactNext | script_version_1/script.py:565-590 | one pass below the quota is `NextPass` at the stored cursor; the cursor moves on by one exactly when a contact is greeted, whether or not the greeting was delivered; a greeted contact gets a session entry, the outbox gains the greeting exactly when delivered, `user_stats` gets its row exactly when delivered and committed, and the reminder is armed unless delivery fails or a non-Postgres error is raised; a stop changes neither the outbox, nor the session table, nor `user_stats`, nor the reminders |
| Pacer.CursorsAfterRun | script_version_1/script.py:566-584 | after a run, the campaign's cursor is its start plus the contacts greeted, and no other campaign's cursor moves |
| Pacer.ProgressStep | script_version_1/script.py:564-600 | one pass keeps the loop's account: the passes so far follow the plan, and the cursor table, the outbox and `user_stats` are those of the passes so far |
| Pacer.CampaignPass | script_version_1/script.py:564-600 | one pass of the loop is the next step of the plan; the cursor table, the outbox and `user_stats` follow it; a greeting pass registers the contact and arms its reminder unless delivery fails or a non-Postgres error is raised; a quota wait changes neither the session table nor the reminders; a stop changes nothing |
| Pacer.RunCampaign | script_version_1/script.py:547-600 | the loop makes exactly the passes of `Plan` from the stored cursor and leaves the cursor at its start plus the number of contacts greeted; the outbox gains exactly the delivered greetings of the run, in order, and `user_stats` exactly their committed rows; histories, buffers and debounce timers are untouched |
| Scenarios.GreetAlice | script_version_1/script.py:312-350 | a fresh engine greets a contact, delivers the greeting and arms reminder task 0 |
| Scenarios.AliceAsks | script_version_1/script.py:385-431 | a text reply marks the contact as replied and waits in its buffer under a pending debounce timer |
| Scenarios.AliceAddsDetail | script_version_1/script.py:385-441 | a second text reply joins the first in the buffer, in order, cancels the pending debounce timer and arms a new one, and sends nothing |
| Scenarios.GuideReply | script_version_1/script.py:266-299 | one request carrying both buffered messages, in order, decides the answer, and a reply without surrounding whitespace comes back unchanged |
| Scenarios.GuideMentioned | script_version_1/script.py:522 | a reply that is the guide keyword passes the lower-cased keyword test |
| Scenarios.GuideNotSensitive | script_version_1/script.py:498 | a reply that is the guide keyword does not count as sharing the webinar link |
| Scenarios.AliceAnswered | script_version_1/script.py:474-532 | the flush sends both buffered messages in one request, delivers the reply and the invitation, records the two messages and the reply as the history, empties the buffer and writes the row `(true, 1, false, true)` |
| Scenarios.AliceConversation | script_version_1/script.py:312-538 | the whole trace: greeting, two messages merged into one request, reply, invitation, and no reminder |
| Scenarios.FiveContactsPlan | script_version_1/script.py:564-600 | five usable contacts: four greetings with pauses after the first three, the wait for the next day, the fifth greeting, then the end at position 5 |
| Scenarios.ShortNameColumnPlan | script_version_1/script.py:153-161 | a name column shorter than the username column ends the loop with `IndexError` at the first position it lacks |

## Left out

- External I/O is not modelled: the Pyrogram client, the OpenAI client, the asyncpg connection and the spreadsheet reader. A send is a delivered/failed flag; a database statement is a `WriteOutcome`; the completion service is a function from the request and the attempt number to an outcome; the spreadsheet is the two columns after `dropna`.
- `load_single_username_from_excel` reads the file again on every pass (script.py:155), and a run spans days of quota waits. The model fixes one pair of columns for the whole run: the file is assumed not to change during a run.
- `save_dialog_to_file` (script.py:305-309, called at 490) is left out, and its write is assumed to succeed. It is called outside the flush's `try`, after the buffer has been cleared (script.py:488). So an I/O error there would end the flush with the batch in the history and no reply. All logging and printing is left out too.
- Real time and concurrency are not modelled: sleeps and task creation become explicit fire events in a sequential trace. The interleaving inside `reminder_timer`, between its check and its flag update, is not modelled.
- A flush is atomic here. In the source, the task stored in `timers[u]` (script.py:441) stays there after its sleep ends and its flush starts, so a message arriving while the flush awaits the completion service or a send cancels that running flush (script.py:395-396). Its batch is already in the history (script.py:487-488), and no reply, row or invitation follows, because `CancelledError` is not caught by `except Exception` (script.py:294, 535). The model cancels only a sleeping debounce task.
- The computation of the 11:00-next-day wait (script.py:592-598) is left out: it is datetime arithmetic on floats, so the quota wait is one step.
- `random.choice` of a greeting (script.py:315, 576) is left out. The template is a parameter, from an oracle indexed by the pass. The wording of the templates and of `prompt_template_1` is not modelled; the prompt is a constant of the engine.
- The completion request's model name, `temperature` and `top_p` are left out: they do not affect the control flow.
- Client start-up and handler registration in `main` (script.py:553-561) are left out. The idle loop after the pacer loop and the `finally` clean-up (script.py:603-608) are left out too; a run ends with its `End` value.
- Only four message kinds are modelled: text, voice, video note and sticker. Other media, whose `message.text` is `None`, are not modelled.
- Failures of `get_current_index` and `update_current_index` are not modelled: cursor reads and writes always succeed here.
- The guards `'stats' not in context` (script.py:321-322, 450-451) are left out: the session table always exists.
- The unused per-user fields `use_alternate_prompt`, `in_secondary_prompt` and `current_prompt` (script.py:479-484) are left out.
- `Text.Lower` covers only ASCII and the Cyrillic block U+0400–U+042F. No other character changes case.
- `Completion.ValidateMessages` takes values of a small Python value type: lists, dicts with string keys, strings, `None` and an opaque "other".
- Non-string spreadsheet cells (numbers, say) are not modelled: the columns are strings, and a falsy cell is the empty string.
- Pacer.RunCampaign: states the cursor table, the passes, the outbox and `user_stats` for the whole run. The session table and the reminder tasks are stated per pass, by `CampaignPass` and `ContactNext`, not folded over the run.
  - The passes of a run follow one another with no other event between them. In the source, `on_message`, `start_timer` and `reminder_timer` run during the loop's sleeps: the second after each greeting (script.py:348), the hour between contacts (script.py:587) and the wait for the next day (script.py:598).
  - So the whole-run outbox and `user_stats` clauses hold only for a run that no handler interrupts.
  - Each pass can still be interleaved with other events, and every handler ensures that `db.cursors` is unchanged. So the cursor table after the passes is the same with or without interleaving; the model does not state this at the loop level.
- A user named `stats` is flushed like any other here. In the source, the module-level `context` uses the key `'stats'` for the session table. So for that user, `username not in context` is false at script.py:478, and the flush's `context[username]["messages"]` raises (script.py:487), outside the `try`. The buffer is never cleared, and no reply, row or invitation ever follows for that user. The model keeps the histories apart from the session table, so this clash is not modelled.
- `tgbot.py` and `run.py` are not part of this model.
