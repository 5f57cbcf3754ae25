# cheese-reminder in Dafny

A model of the reminder core of cheese-reminder, a Telegram bot that stores
reminders in an SQLite table and delivers each one with a timer.

- **The reminders table** (db/reminder-db.js).
  - `ReminderDb.ReminderTable` is an AUTOINCREMENT table held as a map from id
    to row, plus the next id to hand out.
  - It supports INSERT, SELECT of all rows, SELECT of one chat's rows, and
    DELETE by id.
  - A ghost set of issued ids records that AUTOINCREMENT never reuses an id.
- **The scheduler** (bot.js).
  - `ReminderBot.Bot` keeps the armed `setTimeout` callbacks as a map from
    reminder id to the reminder each one captured.
  - `scheduleReminder` either arms a timer or deletes a due row at once.
  - `initBot` runs at process start and schedules every stored row.
  - A timer firing is the explicit event `Fire(id)`. The current time is the
    parameter `now`.
- **The /отмена handler.** It looks the id up among the chat's own rows and
  deletes that row.
- **The calendar flow.**
  - `userStates` is a map from user id to `{date, step, answers}` plus the
    user's time zone.
  - Picking a date starts the flow at step 0. The next text is the time and
    the one after it is the task.
  - The flow then hands `"date time task"` to the zone-mode handler and
    resets to step -1.
- **The two reminder-creating handlers.**
  - `/напомни` is inline mode; the calendar flow uses zone mode.
  - Both are pure decisions in `Resolver`: no parse, a bad or past time, or a
    reminder to store.
  - In both, the task is the message with the first occurrence of the
    matched date expression removed, then trimmed (`TaskText`).
- **The reminder list.** It replies "none" on an empty table, and otherwise
  lists rows.

Every message the bot sends is appended to `outbox` as a (chat, reply kind)
pair. The natural-language date parser (chrono-node) is an input: its first
match, or none. Converting the parsed wall-clock time into the user's time
zone (luxon) is also an input, the function `toZone`.

`ReminderScenarios` drives whole conversations through the handlers, starting
from an empty database or a restart.

## Model

| member | source | states |
|---|---|---|
| ReminderDb.ReminderTable.constructor | db/reminder-db.js:5-12 | a newly created table has no rows, has issued no id, and its first id will be 1 |
| ReminderDb.ReminderTable.Add | db/reminder-db.js:15-19 | the returned id was never issued before, even for a row deleted since (AUTOINCREMENT); afterwards the row under it carries the given chat, task and instant, and every earlier row is unchanged |
| ReminderDb.Scan | db/reminder-db.js:22-24 | a scan of the id range [lo, hi) returns, in ascending id order, exactly the stored rows in that range, each one as stored under its own id |
| ReminderDb.AscendingUnique | db/reminder-db.js:22-29 | rows in rowid order are fixed by which rows they are: two ascending sequences with the same elements are equal |
| ReminderDb.ReminderTable.AllRows | db/reminder-db.js:22-24 | getReminders returns every row of the table and nothing else, in ascending id order; the result is empty exactly when the table is |
| ReminderDb.Where | db/reminder-db.js:27-29 | the filter keeps exactly the rows of the given chat and keeps their order |
| ReminderDb.ReminderTable.RowsOf | db/reminder-db.js:27-29 | getUserReminders returns exactly the stored rows whose chat is chatId, in ascending id order |
| ReminderDb.ReminderTable.Delete | db/reminder-db.js:32-34 | deleteReminder removes the row with that id and no other; for an absent id nothing changes and nothing fails; deleting never lets an id be issued again |
| TaskText.TrimStart | bot.js:210 | the result is the suffix that is left once the leading white space is cut off: what was cut is all white space, and the result does not start with white space |
| TaskText.TrimEnd | bot.js:210 | the result is the prefix that is left once the trailing white space is cut off: what was cut is all white space, and the result does not end with white space |
| TaskText.Trim | bot.js:210 | String.prototype.trim: neither end of the result is white space |
| TaskText.TrimCutsSpace | bot.js:210 | trim returns an infix of its input, and everything before and after that infix is white space |
| TaskText.TrimStartPadded | bot.js:210 | cutting leading white space from a white-space prefix followed by a text that does not start with white space gives that text back |
| TaskText.TrimEndPadded | bot.js:210 | cutting trailing white space from a text that does not end with white space, followed by a white-space suffix, gives that text back |
| TaskText.TrimPadded | bot.js:210 | trim of a trimmed text padded with white space on both sides gives back that text |
| TaskText.TrimIdempotent | bot.js:232 | trimming twice is the same as trimming once |
| TaskText.IndexOf | bot.js:210 | String.prototype.indexOf: the position returned is an occurrence at or after the start position, no position between the two is one, and "none" means that no position is one |
| TaskText.RemoveFirst | bot.js:210 | replace with a string pattern cuts out the first occurrence only: putting the pattern back at the first occurrence's position gives the message back, and without an occurrence the message is unchanged |
| TaskText.ExtractTask | bot.js:232 | the task taken from a message never starts or ends with white space |
| TaskText.LeadingSpanRemoved | bot.js:232 | when a message is the date expression, then white space, then a trimmed task, the extracted task is exactly that task |
| Resolver.StructuredText | bot.js:131-133 | the text the calendar flow builds starts with the date and the time separated by a space, and ends with a space and the typed task |
| Resolver.ResolveInline | bot.js:226-237 | /напомни stores nothing without a parse, and it stores a reminder exactly when the parsed instant is non-zero and after now; the stored instant is that instant, so it lies in the future, and the task is the message with the date expression cut out and trimmed |
| Resolver.ResolveZoned | bot.js:191-214 | zone mode stores nothing without a parse, and it stores a reminder exactly when the parsed instant is after now; the stored instant is the zone conversion of that instant, and the task is extracted as in inline mode |
| Resolver.StructuredTaskRecovered | bot.js:131-133 | when the parser recognises the chosen date and the typed time in "date time task", the stored task is exactly the typed task |
| Resolver.InlineExample | bot.js:174 | the help-text example "завтра в 10 утра купить кофе", with the date expression read as 2024-03-02T10:00Z on 2024-03-01T08:00Z, stores "купить кофе" at 1709373600000 |
| Resolver.ZonedAcceptsPastZoneTime | bot.js:196-212 | zone mode accepts a reminder whose stored instant is at or before now, as long as the parsed instant is after now |
| ReminderBot.FindById | bot.js:61 | Array.prototype.find by id: a hit is an element of the list with that id, and "none" happens exactly when no element has it |
| ReminderBot.ListingDetermined | bot.js:160-166 | the table determines the list reply: only one reply lists it as required |
| ReminderBot.AllScheduled | bot.js:266-268 | once every row that initBot read has been scheduled, the table and the armed timers both hold exactly the rows whose delay is positive |
| ReminderBot.Bot.constructor | bot.js:264-271 | at process start, after initBot: the table holds exactly the earlier rows with a positive delay, each one has a timer, no id is reissued, and nothing is sent |
| ReminderBot.Bot.InitBot | bot.js:264-269 | every stored row is scheduled: rows already due are deleted and every other row is kept with an armed timer that carries it |
| ReminderBot.Bot.ScheduleReminder | bot.js:22-34 | a positive delay arms a timer that carries the reminder and leaves the table alone; otherwise the row is deleted at once and nothing is armed; nothing is sent |
| ReminderBot.Bot.Fire | bot.js:27-30 | a firing timer sends exactly one message, with its captured task, to its captured chat, then deletes that id, and is gone; firing an id that has no timer changes nothing |
| ReminderBot.Bot.Cancel | bot.js:56-69 | an id that is not one of this chat's rows gets "not found" and leaves the table unchanged; an id that is one of them is deleted, with no other row touched; the armed timers are unchanged either way |
| ReminderBot.Bot.Commit | bot.js:212-218 | a rejection only replies; an accepted reminder gets the next id, is announced with it, and is then scheduled |
| ReminderBot.Bot.SetReminder | bot.js:221-243 | /напомни has the effect of committing the inline-mode resolution of its text |
| ReminderBot.Bot.SetReminderZone | bot.js:186-219 | the zone-mode handler has the effect of committing the zone-mode resolution of its text |
| ReminderBot.Bot.PickDate | bot.js:75-86 | picking a date sets the user's flow to that date at step 0 with no answers, keeps the user's time zone and every other user's state, and asks for the time |
| ReminderBot.Bot.OnLocation | bot.js:96-110 | a zone that was found is stored for the user, keeping their flow and everyone else's state; without one only the failure reply is sent |
| ReminderBot.Bot.Answer | bot.js:120-136 | a user with no flow or a finished flow is ignored; at step 0 the text becomes the time, the flow advances to step 1 and nothing is created; at step 1 "date time text" goes to the zone-mode handler and the flow resets to date "", step -1, no answers |
| ReminderBot.Bot.TakeTime | bot.js:124-129 | at step 0 the text becomes the only answer and the flow advances to step 1, with only the question for the task sent |
| ReminderBot.Bot.TakeTask | bot.js:130-135 | at step 1 the combined text is resolved in zone mode and committed, and the flow resets |
| ReminderBot.Bot.ListReminders | bot.js:157-167 | exactly one reply goes to the chat: "no reminders" exactly when the table is empty, otherwise a listing of every row of the table, each as stored and nothing else, in ascending id order; the table, the id counter, the timers and the user states are unchanged |
| ReminderBot.Bot.OnText | bot.js:112-136 | the list button gets the reminder list reply, with nothing else changed; the commands and calendar buttons only send their reply, leaving every conversation state as it was; any other text goes to the step machine |
| ReminderScenarios.CancelledReminderStillDelivered | bot.js:56-69 | after /напомни and then /отмена of the new id, the row is gone, yet the timer armed for it still delivers the task |
| ReminderScenarios.CancelForeignId | bot.js:60-65 | /отмена of another chat's reminder id answers "not found" and keeps that row |
| ReminderScenarios.RestartThenFire | bot.js:264-271 | on a restart the due row is dropped silently; the two upcoming rows each fire once, in their own order, and leave the table empty; a timer that has already fired does not fire again |
| ReminderScenarios.CalendarFlow | bot.js:75-136 | date, then time, then task stores the typed task at the zone conversion of the parsed instant; the zone conversion is stored and armed only when it is still ahead; the flow ends at step -1 |

## Code versus design

In four places bot.js does less than the bot is meant to do. The model
follows the code in each of them.

- **Cancellation leaves the timer armed.** Cancelling a reminder is meant to
  disarm its timer as well as delete its row. The /отмена handler
  (bot.js:56-69) only deletes the row. `ReminderBot.Bot.Cancel` keeps
  `timers` unchanged, so the bot invariant `ReminderBot.Bot.Valid` allows
  timers without a row. `ReminderScenarios.CancelledReminderStillDelivered`
  shows the cancelled task being delivered anyway.
- **The list shows every chat.** The list is meant to show the asking chat's
  own reminders. bot.js:158 passes the chat id to `getReminders`, which takes
  no argument (db/reminder-db.js:22-24). `ReminderBot.Bot.ListReminders`
  therefore lists all rows of the table.
- **Zone mode checks the wrong instant.** A reminder is meant to be stored
  only for an instant in the future. Zone mode compares the parsed instant
  with now (bot.js:212) but stores its zone conversion (bot.js:208).
  `Resolver.ZonedAcceptsPastZoneTime` shows such a reminder being accepted.
  `ReminderBot.Bot.Commit` then announces it and deletes it at once, because
  `scheduleReminder` finds no positive delay.
- **An empty task is accepted.** A task that is empty after trimming is meant
  to be rejected. Neither handler checks for this, so the model stores an
  empty task like any other.

## Left out

- Telegram transport is not modelled: message texts, reply keyboards, the
  `onText` command routing, /start and /помощь. Replies are reduced to their
  kind. One consequence is that the "forgotten" reply of bot.js:68 reads the
  absent field `text` of the row; this is not modelled.
- A text that matches a command pattern also reaches the 'message' handler.
  For example, "/напомни …" typed at step 0 both creates a reminder and is
  taken as the time. The model has no dispatcher that calls both handlers.
- The inline calendar widget is not modelled: the message-id check and
  `clickButtonCalendar` at bot.js:78-80. `ReminderBot.Bot.PickDate` is the
  branch where the widget yields a date; the other branches change nothing.
- chrono-node parsing is not modelled; its first result is the input `Parse`.
- luxon and JavaScript `Date` conversions are not modelled; the zone
  conversion of bot.js:196-208 is the input function `toZone`. This covers
  the time zone read by `getUserTimezone`, which is keyed by chat id.
- `getUserTimezone` and `setUserTimezone` are called (bot.js:37, bot.js:103,
  bot.js:189, bot.js:224) but not defined in db/reminder-db.js, whose exports
  (db/reminder-db.js:36-41) lack them. As written, both reminder-creating
  handlers would therefore throw before parsing. The model assumes a lookup
  that exists and defaults to UTC. That lookup is folded into `toZone`, and
  `ReminderBot.Bot.OnLocation` updates only the in-memory state.
- Errors thrown by SQLite or by the handlers are not modelled; every
  statement is taken to succeed. For example, a throw inside the call at
  bot.js:133 would skip the flow reset at bot.js:134-135.
- The clock is read once per handler: the model passes one `now` to the
  resolver and to `ReminderBot.Bot.ScheduleReminder`, and `initBot` uses one
  `now` for every row. The source reads `Date.now()` again inside
  `scheduleReminder` (bot.js:24), after the check at bot.js:212 or
  bot.js:235 and once per row in `initBot` (bot.js:266-268). A reminder whose
  instant falls between the two readings is announced as saved (bot.js:240)
  and then deleted undelivered (bot.js:32); the model does not capture that
  window.
- The geonames HTTP lookup (bot.js:245-261) is an input to
  `ReminderBot.Bot.OnLocation`.
- Invalid dates are not modelled, because instants are integers. In inline
  mode, `!remindAt` would also reject NaN. In zone mode, NaN would pass the
  comparison.
- ReminderBot.Bot.Fire: real `setTimeout` timing is replaced by the explicit
  event. Node's rule that a delay above 2^31-1 ms fires almost at once is not
  modelled. Under that rule, a reminder more than about 24.8 days ahead
  would be delivered early.
- ReminderBot.Bot.ScheduleReminder: timers are keyed by id. The model
  therefore requires that the id have no timer yet, whereas JavaScript would
  arm a second one. Every call in bot.js schedules an id that has no timer.
- The 'message' handler is asynchronous (it awaits the location lookup). The
  model runs handlers one at a time, so interleavings are not modelled.
- Non-text messages are not modelled: the text is always a string. The
  `/отмена` id is an integer, so the precision `parseInt` loses on very long
  digit strings is not modelled.
- SQLite integers are unbounded in the model. The failure of AUTOINCREMENT at
  the largest rowid is not modelled.
- `console.log`, dotenv configuration and the `toLocaleString` formatting of
  the list are not modelled.
- Strings are sequences of code points, whereas JavaScript strings are UTF-16.
  This does not affect trim, indexOf or equality on these messages.
