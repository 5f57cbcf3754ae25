/**
 The handlers of bot.js that change state: the scheduler (scheduleReminder,
 initBot, timer firing), the /отмена handler, the calendar callback, the
 per-user step machine of the 'message' handler, the two reminder-creating
 handlers and the reminder list. Time is the parameter `now`; a timer firing
 is the explicit event `Fire`; the messages the bot sends are appended to
 `outbox`, one (chat, reply) pair each.
 */
module ReminderBot {
  import opened Wrappers
  import opened ReminderDb
  import opened TaskText
  import opened Resolver

  /** The kinds of message the bot sends. */
  datatype Reply =
    | Reminded(task: string)        // the delivery "🔔 Напоминаю: …" (bot.js:28)
    | NotFound                      // bot.js:64
    | Forgotten                     // bot.js:68
    | AskTime                       // bot.js:83
    | AskTask                       // bot.js:127
    | CannotParse                   // bot.js:193, bot.js:228
    | BadTime                       // bot.js:213, bot.js:236
    | Saved(id: int)                // bot.js:217, bot.js:240
    | NoReminders                   // bot.js:161
    | Listing(rows: seq<Reminder>)  // bot.js:164-166
    | Commands                      // bot.js:169-180
    | CalendarShown                 // bot.js:182-184
    | TimezoneSet(zone: string)     // bot.js:104
    | TimezoneUnknown               // bot.js:106

  datatype Msg = Msg(chatId: int, reply: Reply)

  /** The calendar-flow part of a user's state: the chosen date, the step
      (0 awaiting the time, 1 awaiting the task, -1 finished) and the answers. */
  datatype Flow = Flow(date: string, step: int, answers: seq<string>)

  /** One entry of `userStates`. The flow fields are absent until the user
      first picks a date; `timezone` is set by a location message. */
  datatype Conv = Conv(flow: Option<Flow>, timezone: Option<string>)
  {
    /** The shapes the handlers leave a flow in: as many answers as the step. */
    predicate WellFormed()
    {
      flow.Some? ==>
        || (flow.value.step == -1 && flow.value.answers == [])
        || (flow.value.step == 0 && flow.value.answers == [])
        || (flow.value.step == 1 && |flow.value.answers| == 1)
    }
  }

  /** The labels of the reply-keyboard buttons (bot.js:144-146). */
  const ScheduleButton := "📅 Запланировать"
  const ListButton := "📋 Список"
  const CommandsButton := "📖 Команды"

  /** The parts of the bot's state a handler can change besides userStates. */
  datatype View = View(rows: map<int, Reminder>, nextId: int, timers: map<int, Reminder>, outbox: seq<Msg>)

  /** The effect of carrying out a resolution for a chat, from view v to view w:
      a rejection only replies; a resolved reminder takes the next id, is
      announced and is scheduled, which either arms its timer or, when it is
      not in the future, deletes the row again at once (bot.js:192-194,
      bot.js:212-218, bot.js:227-241). */
  ghost predicate Created(res: Resolution, chatId: int, now: int, v: View, w: View)
  {
    match res
    case Unparsed => w == v.(outbox := v.outbox + [Msg(chatId, CannotParse)])
    case PastOrInvalid => w == v.(outbox := v.outbox + [Msg(chatId, BadTime)])
    case Resolved(task, at) =>
      var r := Reminder(v.nextId, chatId, task, at);
      && w.nextId == v.nextId + 1
      && w.outbox == v.outbox + [Msg(chatId, Saved(r.id))]
      && if at - now > 0 then w.rows == v.rows[r.id := r] && w.timers == v.timers[r.id := r]
         else w.rows == v.rows && w.timers == v.timers
  }

  /** The reply of the reminder list for a table holding `rows`: "no
      reminders" exactly when the table is empty, otherwise a listing of
      every row, each as stored, and nothing else, in ascending id order. */
  ghost predicate ListsAll(rows: map<int, Reminder>, reply: Reply)
  {
    && (reply == NoReminders <==> rows == map[])
    && (rows != map[] ==>
         && reply.Listing?
         && Ascending(reply.rows)
         && (forall r :: r in reply.rows ==> r.id in rows && rows[r.id] == r)
         && (forall id :: id in rows ==> rows[id] in reply.rows))
  }

  /** The table fixes the list reply: there is only one reply ListsAll allows. */
  lemma ListingDetermined(rows: map<int, Reminder>, one: Reply, other: Reply)
    requires ListsAll(rows, one) && ListsAll(rows, other)
    ensures one == other
  {
    if rows != map[] {
      forall r ensures r in one.rows <==> r in other.rows {
        if r in one.rows { assert rows[r.id] in other.rows; }
        if r in other.rows { assert rows[r.id] in one.rows; }
      }
      AscendingUnique(one.rows, other.rows);
    }
  }

  /** The effect of the reminder list, from view v to view w: one reply to the
      chat, ListsAll of the table, and nothing else changes. */
  ghost predicate Listed(v: View, w: View, chatId: int)
  {
    && w.rows == v.rows && w.nextId == v.nextId && w.timers == v.timers
    && |w.outbox| == |v.outbox| + 1 && w.outbox[..|v.outbox|] == v.outbox
    && w.outbox[|v.outbox|].chatId == chatId
    && ListsAll(v.rows, w.outbox[|v.outbox|].reply)
  }

  /** Whether the 'message' handler treats the user's next text as an answer
      (bot.js:120). */
  ghost predicate InFlow(states: map<int, Conv>, userId: int)
  {
    userId in states && states[userId].flow.Some? && states[userId].flow.value.step >= 0
  }

  /** The step machine of the 'message' handler (bot.js:120-136), from
      (s0, v0) to (s1, v1): at step 0 the text becomes the time and the step
      advances, creating nothing; at step 1 the text becomes the task, the
      date, time and task go to the zone-mode resolver as one string, and the
      flow is reset; a user not in the flow is ignored. */
  ghost predicate Answered(s0: map<int, Conv>, v0: View, s1: map<int, Conv>, v1: View,
                           userId: int, chatId: int, text: string, p: Parse, toZone: int -> int, now: int)
  {
    if !InFlow(s0, userId) then s1 == s0 && v1 == v0
    else
      var c := s0[userId];
      var f := c.flow.value;
      if f.step == 0 then
        && s1 == s0[userId := c.(flow := Some(Flow(f.date, 1, [text])))]
        && v1 == v0.(outbox := v0.outbox + [Msg(chatId, AskTask)])
      else if f.step == 1 && |f.answers| == 1 then
        && s1 == s0[userId := c.(flow := Some(Flow("", -1, [])))]
        && Created(ResolveZoned(StructuredText(f.date, f.answers[0], text), p, toZone, now), chatId, now, v0, v1)
      else s1 == s0 && v1 == v0
  }

  /** The rows initBot keeps: those whose delay `remind_at - now` is positive. */
  function Upcoming(rows: map<int, Reminder>, now: int): (kept: map<int, Reminder>)
    ensures forall id :: id in kept <==> id in rows && rows[id].remindAt - now > 0
    ensures forall id :: id in kept ==> kept[id] == rows[id]
  {
    map id | id in rows && rows[id].remindAt - now > 0 :: rows[id]
  }

  /** A map that holds exactly the upcoming rows, unchanged, is Upcoming. */
  lemma UpcomingExactly(m: map<int, Reminder>, rows: map<int, Reminder>, now: int)
    requires forall id :: id in m <==> id in rows && rows[id].remindAt - now > 0
    requires forall id :: id in m ==> m[id] == rows[id]
    ensures m == Upcoming(rows, now)
  {
    var u := Upcoming(rows, now);
    forall id ensures id in m <==> id in u {}
    assert m.Keys == u.Keys;
    forall id | id in m ensures m[id] == u[id] {}
  }

  /** How far initBot has got: the rows whose ids are in `done` have been
      scheduled (kept with a timer when upcoming, deleted otherwise); the rest
      are still in the table without a timer. */
  ghost predicate Progress(rows0: map<int, Reminder>, done: set<int>,
                           rows: map<int, Reminder>, timers: map<int, Reminder>, now: int)
  {
    && (forall id :: id in rows <==> id in rows0 && (id in done ==> rows0[id].remindAt - now > 0))
    && (forall id :: id in rows ==> rows[id] == rows0[id])
    && (forall id :: id in timers <==> id in rows0 && id in done && rows0[id].remindAt - now > 0)
    && (forall id :: id in timers ==> timers[id] == rows0[id])
  }

  /** Scheduling one more unscheduled row keeps Progress. */
  lemma ProgressStep(rows0: map<int, Reminder>, done: set<int>, rows: map<int, Reminder>,
                     timers: map<int, Reminder>, r: Reminder, now: int,
                     rows': map<int, Reminder>, timers': map<int, Reminder>)
    requires Progress(rows0, done, rows, timers, now)
    requires r.id in rows0 && rows0[r.id] == r && r.id !in done
    requires r.remindAt - now > 0 ==> timers' == timers[r.id := r] && rows' == rows
    requires r.remindAt - now <= 0 ==> timers' == timers && rows' == rows - {r.id}
    ensures Progress(rows0, done + {r.id}, rows', timers', now)
  {
  }

  /** Once initBot has scheduled every row it read, the table and the timers
      both hold exactly the upcoming rows. */
  lemma AllScheduled(rows0: map<int, Reminder>, rs: seq<Reminder>, done: set<int>,
                     rows: map<int, Reminder>, timers: map<int, Reminder>, now: int)
    requires WellKeyed(rows0)
    requires forall id :: id in rows0 ==> rows0[id] in rs
    requires forall j :: 0 <= j < |rs| ==> rs[j].id in done
    requires forall r :: r in rs ==> r.id in rows0 && rows0[r.id] == r
    requires Progress(rows0, done, rows, timers, now)
    ensures rows == Upcoming(rows0, now) && timers == rows
  {
    forall id | id in rows0 ensures id in done {
      assert rows0[id] in rs;
      var j :| 0 <= j < |rs| && rs[j] == rows0[id];
    }
    UpcomingExactly(rows, rows0, now);
    UpcomingExactly(timers, rows0, now);
  }

  /** Array.prototype.find over rows by id (bot.js:61). The rows it is given
      come from the table and carry distinct ids, so a match is the match:
      the contract says only that the result has that id, and that there is
      none exactly when no row has it. */
  function FindById(rs: seq<Reminder>, id: int): (found: Option<Reminder>)
    ensures found.Some? ==> found.value in rs && found.value.id == id
    ensures found.None? <==> forall r :: r in rs ==> r.id != id
  {
    if rs == [] then None
    else if rs[0].id == id then Some(rs[0])
    else FindById(rs[1..], id)
  }

  class Bot {
    const db: ReminderTable
    /** The armed setTimeout callbacks, by reminder id, each with the reminder
        it captured. */
    var timers: map<int, Reminder>
    /** `userStates`, keyed by user id (bot.js:20). */
    var states: map<int, Conv>
    /** Every message sent so far. */
    var outbox: seq<Msg>

    /** Every stored row has an armed timer that carries it; every timer is
        keyed by its reminder's id, which the table has issued; every user's
        flow is well formed. */
    ghost predicate Valid()
      reads this, db
    {
      && db.Valid()
      && (forall id :: id in timers ==> timers[id].id == id && id in db.issued)
      && (forall id :: id in db.rows ==> id in timers && timers[id] == db.rows[id])
      && (forall u :: u in states ==> states[u].WellFormed())
    }

    ghost function Snapshot(): View
      reads this, db
    {
      View(db.rows, db.nextId, timers, outbox)
    }

    /** Process start (bot.js:9-20, bot.js:271): no timers, no conversation
        state, nothing sent; then initBot. */
    constructor (db: ReminderTable, now: int)
      requires db.Valid()
      modifies db
      ensures this.db == db && Valid()
      ensures db.rows == Upcoming(old(db.rows), now) && timers == db.rows
      ensures db.nextId == old(db.nextId) && db.issued == old(db.issued)
      ensures states == map[] && outbox == []
    {
      this.db := db;
      timers, states, outbox := map[], map[], [];
      new;
      InitBot(now);
    }

    /** initBot (bot.js:264-269): read every row and schedule each; the rows
        already due are deleted, every other row gets a timer. */
    method InitBot(now: int)
      requires db.Valid() && timers == map[]
      requires forall u :: u in states ==> states[u].WellFormed()
      modifies this, db
      ensures Valid()
      ensures db.rows == Upcoming(old(db.rows), now) && timers == db.rows
      ensures db.nextId == old(db.nextId) && db.issued == old(db.issued)
      ensures states == old(states) && outbox == old(outbox)
    {
      ghost var rows0 := db.rows;
      ghost var done: set<int> := {};
      var rs := db.AllRows();
      for i := 0 to |rs|
        invariant db.Valid() && db.nextId == old(db.nextId) && db.issued == old(db.issued)
        invariant states == old(states) && outbox == old(outbox)
        invariant forall j :: 0 <= j < i ==> rs[j].id in done
        invariant forall j :: i <= j < |rs| ==> rs[j].id !in done
        invariant Progress(rows0, done, db.rows, timers, now)
      {
        var r := rs[i];
        assert r in rs;
        ghost var rows, armed := db.rows, timers;
        ScheduleReminder(r, now);
        ProgressStep(rows0, done, rows, armed, r, now, db.rows, timers);
        done := done + {r.id};
      }
      AllScheduled(rows0, rs, done, db.rows, timers, now);
    }

    /** scheduleReminder (bot.js:22-34): with a positive delay `remind_at - now`
        a timer capturing the reminder is armed and the table is untouched;
        otherwise the row is deleted at once and nothing is armed. Either way
        nothing is sent. Timers are keyed by id, so the id must not have one
        yet: every call site schedules a reminder that has none. */
    method ScheduleReminder(r: Reminder, now: int)
      requires db.Valid() && r.id !in timers
      modifies this, db
      ensures db.Valid() && db.nextId == old(db.nextId) && db.issued == old(db.issued)
      ensures r.remindAt - now > 0 ==> timers == old(timers)[r.id := r] && db.rows == old(db.rows)
      ensures r.remindAt - now <= 0 ==> timers == old(timers) && db.rows == old(db.rows) - {r.id}
      ensures states == old(states) && outbox == old(outbox)
    {
      var delay := r.remindAt - now;
      if delay > 0 {
        timers := timers[r.id := r];
      } else {
        db.Delete(r.id);
      }
    }

    /** The timer of reminder `id` runs its callback (bot.js:27-30): one message
        with the captured task goes to the captured chat, then the row with
        that id is deleted and the timer is gone. Without a timer for `id`
        nothing happens. */
    method Fire(id: int)
      requires Valid()
      modifies this, db
      ensures Valid()
      ensures id in old(timers) ==>
        && outbox == old(outbox) + [Msg(old(timers)[id].chatId, Reminded(old(timers)[id].task))]
        && db.rows == old(db.rows) - {id}
        && timers == old(timers) - {id}
      ensures id !in old(timers) ==> Snapshot() == old(Snapshot())
      ensures states == old(states) && db.nextId == old(db.nextId)
    {
      if id in timers {
        var r := timers[id];
        outbox := outbox + [Msg(r.chatId, Reminded(r.task))];
        db.Delete(r.id);
        timers := timers - {id};
      }
    }

    /** The /отмена handler (bot.js:56-69): the id is looked up among the rows
        of this chat only; when it is there the row is deleted, otherwise the
        bot answers "not found" and nothing changes. The timer armed for the
        reminder is left as it is. */
    method Cancel(chatId: int, id: int)
      requires Valid()
      modifies this, db
      ensures Valid()
      ensures var found := id in old(db.rows) && old(db.rows)[id].chatId == chatId;
        && (found ==> db.rows == old(db.rows) - {id} && outbox == old(outbox) + [Msg(chatId, Forgotten)])
        && (!found ==> db.rows == old(db.rows) && outbox == old(outbox) + [Msg(chatId, NotFound)])
      ensures timers == old(timers) && states == old(states) && db.nextId == old(db.nextId)
    {
      var mine := db.RowsOf(chatId);
      var hit := FindById(mine, id);
      if hit.None? {
        outbox := outbox + [Msg(chatId, NotFound)];
        return;
      }
      db.Delete(id);
      outbox := outbox + [Msg(chatId, Forgotten)];
    }

    /** Carries out a resolution: a rejection is answered; a resolved reminder
        is inserted, announced with its id and scheduled (bot.js:216-218,
        bot.js:239-241). */
    method Commit(chatId: int, res: Resolution, now: int)
      requires Valid()
      modifies this, db
      ensures Valid() && states == old(states)
      ensures Created(res, chatId, now, old(Snapshot()), Snapshot())
    {
      match res {
        case Unparsed =>
          outbox := outbox + [Msg(chatId, CannotParse)];
        case PastOrInvalid =>
          outbox := outbox + [Msg(chatId, BadTime)];
        case Resolved(task, at) =>
          var id := db.Add(chatId, task, at);
          outbox := outbox + [Msg(chatId, Saved(id))];
          ScheduleReminder(Reminder(id, chatId, task, at), now);
      }
    }

    /** handleSetReminder, the /напомни command (bot.js:221-243). */
    method SetReminder(chatId: int, text: string, p: Parse, now: int)
      requires Valid()
      modifies this, db
      ensures Valid() && states == old(states)
      ensures Created(ResolveInline(text, p, now), chatId, now, old(Snapshot()), Snapshot())
    {
      Commit(chatId, ResolveInline(text, p, now), now);
    }

    /** handleSetReminderZone, used by the calendar flow (bot.js:186-219). */
    method SetReminderZone(chatId: int, text: string, p: Parse, toZone: int -> int, now: int)
      requires Valid()
      modifies this, db
      ensures Valid() && states == old(states)
      ensures Created(ResolveZoned(text, p, toZone, now), chatId, now, old(Snapshot()), Snapshot())
    {
      Commit(chatId, ResolveZoned(text, p, toZone, now), now);
    }

    /** The calendar callback once the widget yields a date (bot.js:81-83): the
        flow restarts at step 0 with no answers on the chosen date; the user's
        other state (the time zone) is kept. */
    method PickDate(userId: int, chatId: int, date: string)
      requires Valid()
      modifies this
      ensures Valid()
      ensures userId in states && states[userId].flow == Some(Flow(date, 0, []))
      ensures states[userId].timezone == (if userId in old(states) then old(states)[userId].timezone else None)
      ensures forall u :: u in old(states) && u != userId ==> u in states && states[u] == old(states)[u]
      ensures states.Keys == old(states).Keys + {userId}
      ensures outbox == old(outbox) + [Msg(chatId, AskTime)] && timers == old(timers)
    {
      var cur := if userId in states then states[userId] else Conv(None, None);
      states := states[userId := cur.(flow := Some(Flow(date, 0, [])))];
      outbox := outbox + [Msg(chatId, AskTime)];
    }

    /** The location branch of the 'message' handler (bot.js:96-110), given
        the result of the time-zone lookup: a found zone is merged into the
        user's state, keeping the flow; either way the bot answers. */
    method OnLocation(userId: int, chatId: int, zone: Option<string>)
      requires Valid()
      modifies this
      ensures Valid() && timers == old(timers)
      ensures zone.Some? ==>
        && userId in states && states[userId].timezone == zone
        && states[userId].flow == (if userId in old(states) then old(states)[userId].flow else None)
        && (forall u :: u in old(states) && u != userId ==> u in states && states[u] == old(states)[u])
        && states.Keys == old(states).Keys + {userId}
        && outbox == old(outbox) + [Msg(chatId, TimezoneSet(zone.value))]
      ensures zone.None? ==> states == old(states) && outbox == old(outbox) + [Msg(chatId, TimezoneUnknown)]
    {
      if zone.Some? {
        var cur := if userId in states then states[userId] else Conv(None, None);
        states := states[userId := cur.(timezone := zone)];
        outbox := outbox + [Msg(chatId, TimezoneSet(zone.value))];
      } else {
        outbox := outbox + [Msg(chatId, TimezoneUnknown)];
      }
    }

    /** The step machine of the 'message' handler (bot.js:120-136). */
    method Answer(userId: int, chatId: int, text: string, p: Parse, toZone: int -> int, now: int)
      requires Valid()
      modifies this, db
      ensures Valid()
      ensures Answered(old(states), old(Snapshot()), states, Snapshot(), userId, chatId, text, p, toZone, now)
    {
      if !(userId in states && states[userId].flow.Some? && states[userId].flow.value.step >= 0) {
        return;
      }
      var f := states[userId].flow.value;
      assert states[userId].WellFormed();
      if f.step == 0 {
        TakeTime(userId, chatId, text);
      } else if f.step == 1 {
        TakeTask(userId, chatId, text, p, toZone, now);
      }
    }

    /** Step 0 (bot.js:124-128): the text is the time; the bot asks for the task. */
    method TakeTime(userId: int, chatId: int, text: string)
      requires Valid() && userId in states
      requires states[userId].flow.Some? && states[userId].flow.value.step == 0
      modifies this
      ensures Valid()
      ensures var c := old(states)[userId];
        states == old(states)[userId := c.(flow := Some(Flow(c.flow.value.date, 1, [text])))]
      ensures Snapshot() == old(Snapshot()).(outbox := old(outbox) + [Msg(chatId, AskTask)])
    {
      var c := states[userId];
      // answers[0] = text on an empty answer list
      outbox := outbox + [Msg(chatId, AskTask)];
      states := states[userId := c.(flow := Some(Flow(c.flow.value.date, 1, [text])))];
    }

    /** `userStates.set(userId, { ...currentState, <flow fields> })`: the
        user's flow fields are replaced, the rest of their state is kept. */
    method SetFlow(userId: int, flow: Flow)
      requires Valid() && Conv(Some(flow), None).WellFormed()
      modifies this
      ensures Valid() && Snapshot() == old(Snapshot())
      ensures var cur := if userId in old(states) then old(states)[userId] else Conv(None, None);
        states == old(states)[userId := cur.(flow := Some(flow))]
    {
      var cur := if userId in states then states[userId] else Conv(None, None);
      states := states[userId := cur.(flow := Some(flow))];
    }

    /** Step 1 (bot.js:130-135): the text is the task; date, time and task go
        to the zone-mode handler as one string and the flow is reset. */
    method TakeTask(userId: int, chatId: int, text: string, p: Parse, toZone: int -> int, now: int)
      requires Valid() && userId in states
      requires states[userId].flow.Some? && states[userId].flow.value.step == 1
      requires |states[userId].flow.value.answers| == 1
      modifies this, db
      ensures Valid()
      ensures var c := old(states)[userId];
        states == old(states)[userId := c.(flow := Some(Flow("", -1, [])))]
      ensures var f := old(states)[userId].flow.value;
        Created(ResolveZoned(StructuredText(f.date, f.answers[0], text), p, toZone, now), chatId, now, old(Snapshot()), Snapshot())
    {
      var f := states[userId].flow.value;
      SetReminderZone(chatId, StructuredText(f.date, f.answers[0], text), p, toZone, now);
      SetFlow(userId, Flow("", -1, []));
    }

    /** handleReminderList (bot.js:157-167): the reply lists the rows that
        getReminders returns, which are the rows of every chat, or says that
        there are none. */
    method ListReminders(chatId: int)
      requires Valid()
      modifies this
      ensures Valid() && states == old(states)
      ensures Listed(old(Snapshot()), Snapshot(), chatId)
    {
      var rs := db.AllRows();
      if |rs| == 0 {
        outbox := outbox + [Msg(chatId, NoReminders)];
      } else {
        outbox := outbox + [Msg(chatId, Listing(rs))];
      }
    }

    /** The 'message' handler for a text message (bot.js:112-136): the three
        menu buttons are served first, any other text goes to the step machine. */
    method OnText(userId: int, chatId: int, text: string, p: Parse, toZone: int -> int, now: int)
      requires Valid()
      modifies this, db
      ensures Valid()
      ensures text == ListButton ==> states == old(states) && Listed(old(Snapshot()), Snapshot(), chatId)
      ensures text == CommandsButton ==>
        && states == old(states)
        && Snapshot() == old(Snapshot()).(outbox := old(outbox) + [Msg(chatId, Commands)])
      ensures text == ScheduleButton ==>
        && states == old(states)
        && Snapshot() == old(Snapshot()).(outbox := old(outbox) + [Msg(chatId, CalendarShown)])
      ensures text != ListButton && text != CommandsButton && text != ScheduleButton ==>
        Answered(old(states), old(Snapshot()), states, Snapshot(), userId, chatId, text, p, toZone, now)
    {
      if text == ListButton {
        ListReminders(chatId);
      } else if text == CommandsButton {
        outbox := outbox + [Msg(chatId, Commands)];
      } else if text == ScheduleButton {
        outbox := outbox + [Msg(chatId, CalendarShown)];
      } else {
        Answer(userId, chatId, text, p, toZone, now);
      }
    }
  }
}
