/**
 Whole conversations driven through the bot's handlers, from a fresh
 database: what the user sees and what is left in the table.
 */
module ReminderScenarios {
  import opened Wrappers
  import opened ReminderDb
  import opened TaskText
  import opened Resolver
  import opened ReminderBot

  /** A bot started on an empty database: nothing stored, armed or sent. */
  method FreshBot(now: int) returns (table: ReminderTable, bot: Bot)
    ensures fresh(table) && fresh(bot) && bot.db == table && bot.Valid()
    ensures table.rows == map[] && table.nextId == 1
    ensures bot.timers == map[] && bot.states == map[] && bot.outbox == []
  {
    table := new ReminderTable();
    bot := new Bot(table, now);
    assert table.rows == map[];
  }

  /** A fresh bot after `/напомни <when> <task>` in chat `chatId`, with the
      parser reading `when` as one millisecond after `now`: reminder 1 is
      stored, armed and announced. */
  method OneReminder(chatId: int, when: string, task: string, now: nat)
    returns (table: ReminderTable, bot: Bot)
    requires Trimmed(task)
    ensures fresh(table) && fresh(bot) && bot.db == table && bot.Valid()
    ensures table.rows == map[1 := Reminder(1, chatId, task, now + 1)]
    ensures bot.timers == table.rows
    ensures bot.outbox == [Msg(chatId, Saved(1))]
  {
    LeadingSpanRemoved(when, " ", task);
    assert ResolveInline(when + " " + task, Match(when, now + 1), now) == Resolved(task, now + 1);
    table, bot := FreshBot(now);
    bot.SetReminder(chatId, when + " " + task, Match(when, now + 1), now);
  }

  /** /напомни creates reminder 1, /отмена 1 deletes its row, and the timer
      armed for it still fires: the cancelled task is delivered anyway. */
  method CancelledReminderStillDelivered(chatId: int, when: string, task: string, now: nat)
    returns (sent: seq<Msg>, stored: map<int, Reminder>)
    requires Trimmed(task)
    ensures sent == [Msg(chatId, Saved(1)), Msg(chatId, Forgotten), Msg(chatId, Reminded(task))]
    ensures stored == map[]
  {
    var table, bot := OneReminder(chatId, when, task, now);
    var r := Reminder(1, chatId, task, now + 1);
    bot.Cancel(chatId, 1);
    assert table.rows == map[] && bot.timers == map[1 := r];
    ghost var before := bot.outbox;
    assert before == [Msg(chatId, Saved(1)), Msg(chatId, Forgotten)];
    bot.Fire(1);
    sent, stored := bot.outbox, table.rows;
  }

  /** /отмена for an id the chat does not own answers "not found" and changes
      nothing, even when another chat owns that id. */
  method CancelForeignId(owner: int, other: int, when: string, task: string, now: nat)
    returns (sent: seq<Msg>, stored: map<int, Reminder>)
    requires owner != other && Trimmed(task)
    ensures sent == [Msg(owner, Saved(1)), Msg(other, NotFound)]
    ensures stored == map[1 := Reminder(1, owner, task, now + 1)]
  {
    var table, bot := OneReminder(owner, when, task, now);
    bot.Cancel(other, 1);
    sent, stored := bot.outbox, table.rows;
  }

  /** A table holding one due and two upcoming reminders of one chat, and
      the bot started on it: the due row is gone and the other two are armed. */
  method Restarted(chatId: int, stale: string, first: string, second: string, now: int)
    returns (table: ReminderTable, bot: Bot)
    ensures fresh(table) && fresh(bot) && bot.db == table && bot.Valid()
    ensures table.rows == map[2 := Reminder(2, chatId, first, now + 2), 3 := Reminder(3, chatId, second, now + 1)]
    ensures bot.timers == table.rows && bot.outbox == []
  {
    table := new ReminderTable();
    var a := table.Add(chatId, stale, now);
    var b := table.Add(chatId, first, now + 2);
    var c := table.Add(chatId, second, now + 1);
    var r1, r2, r3 := Reminder(1, chatId, stale, now), Reminder(2, chatId, first, now + 2), Reminder(3, chatId, second, now + 1);
    assert table.rows == map[1 := r1, 2 := r2, 3 := r3];
    bot := new Bot(table, now);
    forall id ensures id in table.rows <==> id == 2 || id == 3 {}
    assert table.rows == map[2 := r2, 3 := r3];
  }

  /** A restart with three stored reminders of one chat: the one already due
      is dropped without a message, the other two are re-armed, fire
      independently, are each delivered once and deleted, and a timer that
      has fired does not fire again. */
  method RestartThenFire(chatId: int, stale: string, first: string, second: string, now: int)
    returns (sent: seq<Msg>, stored: map<int, Reminder>)
    ensures sent == [Msg(chatId, Reminded(second)), Msg(chatId, Reminded(first))]
    ensures stored == map[]
  {
    var table, bot := Restarted(chatId, stale, first, second, now);
    var r2 := Reminder(2, chatId, first, now + 2);
    bot.Fire(3);
    assert table.rows == bot.timers == map[2 := r2];
    ghost var o1 := bot.outbox;
    assert o1 == [Msg(chatId, Reminded(second))];
    bot.Fire(2);
    assert table.rows == map[] && bot.timers == map[];
    ghost var o2 := bot.outbox;
    assert o2 == o1 + [Msg(chatId, Reminded(first))];
    bot.Fire(3);
    sent, stored := bot.outbox, table.rows;
  }

  /** The first two steps of the calendar flow on a fresh bot: a date is
      picked and a time typed; nothing is stored yet. */
  method PickDateAndTime(userId: int, chatId: int, date: string, time: string, p: Parse,
                         toZone: int -> int, now: int)
    returns (table: ReminderTable, bot: Bot)
    requires time != ListButton && time != CommandsButton && time != ScheduleButton
    ensures fresh(table) && fresh(bot) && bot.db == table && bot.Valid()
    ensures bot.states == map[userId := Conv(Some(Flow(date, 1, [time])), None)]
    ensures bot.outbox == [Msg(chatId, AskTime), Msg(chatId, AskTask)]
    ensures table.rows == map[] && bot.timers == map[] && table.nextId == 1
  {
    table, bot := FreshBot(now);
    bot.PickDate(userId, chatId, date);
    assert bot.states == map[userId := Conv(Some(Flow(date, 0, [])), None)];
    assert bot.outbox == [Msg(chatId, AskTime)];
    bot.OnText(userId, chatId, time, p, toZone, now);
    assert bot.states == map[userId := Conv(Some(Flow(date, 1, [time])), None)];
  }

  /** The last step of the calendar flow on a bot whose only user is at step
      1 with `date` and `time`, with an empty table, when the parser reads the
      date and the time as `instant`: reminder 1 is announced with the typed
      task, stored and armed at the zone conversion of `instant` when that is
      ahead of `now`, and the flow resets. */
  method EnterTask(bot: Bot, userId: int, chatId: int, date: string, time: string, task: string,
                   instant: int, toZone: int -> int, now: int)
    requires bot.Valid() && instant > now && Trimmed(task)
    requires bot.states == map[userId := Conv(Some(Flow(date, 1, [time])), None)]
    requires bot.db.rows == map[] && bot.db.nextId == 1
    requires task != ListButton && task != CommandsButton && task != ScheduleButton
    modifies bot, bot.db
    ensures bot.outbox == old(bot.outbox) + [Msg(chatId, Saved(1))]
    ensures toZone(instant) > now ==> bot.db.rows == map[1 := Reminder(1, chatId, task, toZone(instant))]
    ensures toZone(instant) <= now ==> bot.db.rows == map[]
    ensures userId in bot.states && bot.states[userId] == Conv(Some(Flow("", -1, [])), None)
  {
    StructuredTaskRecovered(date, time, task, instant, toZone, now);
    assert InFlow(bot.states, userId);
    ghost var v0 := bot.Snapshot();
    bot.OnText(userId, chatId, task, Match(date + " " + time, instant), toZone, now);
    FirstSaved(v0, bot.Snapshot(), chatId, task, toZone(instant), now);
  }

  /** A reminder created on an empty table gets id 1. */
  lemma FirstSaved(v0: View, v1: View, chatId: int, task: string, at: int, now: int)
    requires v0.rows == map[] && v0.nextId == 1
    requires Created(Resolved(task, at), chatId, now, v0, v1)
    ensures v1.outbox == v0.outbox + [Msg(chatId, Saved(1))]
    ensures at > now ==> v1.rows == map[1 := Reminder(1, chatId, task, at)]
    ensures at <= now ==> v1.rows == map[]
  {
  }

  /** The calendar flow: pick a date, type a time, type a task. The parser
      reads the date and the time from the combined text (for example
      "15-06-2024 21:00" from "15-06-2024 21:00 позвонить врачу"); the reminder
      is stored at the zone conversion of that instant with the typed task,
      and the flow ends at step -1. */
  method CalendarFlow(userId: int, chatId: int, date: string, time: string, task: string,
                      instant: int, toZone: int -> int, now: int)
    returns (sent: seq<Msg>, stored: map<int, Reminder>, state: Conv)
    requires instant > now && Trimmed(task)
    requires time != ListButton && time != CommandsButton && time != ScheduleButton
    requires task != ListButton && task != CommandsButton && task != ScheduleButton
    ensures sent == [Msg(chatId, AskTime), Msg(chatId, AskTask), Msg(chatId, Saved(1))]
    ensures toZone(instant) > now ==> stored == map[1 := Reminder(1, chatId, task, toZone(instant))]
    ensures toZone(instant) <= now ==> stored == map[]
    ensures state == Conv(Some(Flow("", -1, [])), None)
  {
    var table, bot := PickDateAndTime(userId, chatId, date, time, Match(date + " " + time, instant), toZone, now);
    EnterTask(bot, userId, chatId, date, time, task, instant, toZone, now);
    sent, stored, state := bot.outbox, table.rows, bot.states[userId];
  }
}
