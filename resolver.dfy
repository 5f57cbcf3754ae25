/**
 The decision that both reminder-creating handlers of bot.js take before
 touching the table: handleSetReminder (bot.js:221-243, the /напомни command,
 inline mode) and handleSetReminderZone (bot.js:186-219, the calendar flow,
 structured mode). The natural-language parser (chrono-node) and the
 wall-clock conversion into the user's time zone (luxon) are foreign code:
 the parser's answer is the input `Parse`, the zone conversion the input
 function `toZone`.
 */
module Resolver {
  import opened TaskText

  /** The first date expression chrono-node finds in the text, if any:
      the matched text and the epoch-millisecond value of the Date it denotes. */
  datatype Parse = NoMatch | Match(span: string, instant: int)

  /** What a handler does with a message: reply that no date was recognised,
      reply that the time is wrong or past, or store a reminder. */
  datatype Resolution = Unparsed | PastOrInvalid | Resolved(task: string, remindAt: int)

  /** The message the calendar flow hands to the resolver: `${date} ${time} ${text}`
      (bot.js:133). It starts with the date and the time, separated by a
      space, and ends with a space and the task. */
  function StructuredText(date: string, time: string, task: string): (text: string)
    ensures |text| == |date| + |time| + |task| + 2
    ensures text[..|date| + 1 + |time|] == date + " " + time
    ensures text[|date| + 1 + |time|..] == " " + task
  {
    var head := date + " " + time;
    assert (head + " " + task)[..|head|] == head;
    head + " " + task
  }

  /** handleSetReminder (bot.js:226-237): nothing is stored without a parse,
      and a reminder is stored exactly when the parsed instant is truthy (not
      0) and after now. The reminder is then due at that instant, which lies
      in the future, and its task is the message with the date expression cut
      out and trimmed. */
  function ResolveInline(text: string, p: Parse, now: int): (res: Resolution)
    ensures res == Unparsed <==> p == NoMatch
    ensures res.Resolved? <==> p.Match? && p.instant != 0 && p.instant > now
    ensures res.Resolved? ==>
      && res.remindAt == p.instant && res.remindAt > now
      && res.task == ExtractTask(text, p.span) && Trimmed(res.task)
  {
    match p
    case NoMatch => Unparsed
    case Match(span, instant) =>
      if instant == 0 || instant <= now then PastOrInvalid
      else Resolved(ExtractTask(text, span), instant)
  }

  /** handleSetReminderZone (bot.js:191-214): nothing is stored without a
      parse, and a reminder is stored exactly when the parsed instant is after
      now. The check is made on the parsed instant (bot.js:197, bot.js:212),
      but the stored instant is its wall-clock time re-read in the user's
      zone (`toZone`, bot.js:199-208); the task is extracted as in inline
      mode. */
  function ResolveZoned(text: string, p: Parse, toZone: int -> int, now: int): (res: Resolution)
    ensures res == Unparsed <==> p == NoMatch
    ensures res.Resolved? <==> p.Match? && p.instant > now
    ensures res.Resolved? ==>
      && res.remindAt == toZone(p.instant)
      && res.task == ExtractTask(text, p.span) && Trimmed(res.task)
  {
    match p
    case NoMatch => Unparsed
    case Match(span, instant) =>
      if instant <= now then PastOrInvalid
      else Resolved(ExtractTask(text, span), toZone(instant))
  }

  /** The calendar flow round trip: when the parser recognises exactly the
      chosen date and the typed time, the stored task is the typed task text. */
  lemma {:induction false} StructuredTaskRecovered(date: string, time: string, task: string,
                                                  instant: int, toZone: int -> int, now: int)
    requires Trimmed(task) && instant > now
    ensures ResolveZoned(StructuredText(date, time, task), Match(date + " " + time, instant), toZone, now)
         == Resolved(task, toZone(instant))
  {
    assert StructuredText(date, time, task) == (date + " " + time) + " " + task;
    LeadingSpanRemoved(date + " " + time, " ", task);
  }

  /** The example of the /напомни help text (bot.js:174): from
      "завтра в 10 утра купить кофе", read on 2024-03-01T08:00:00Z with the
      parser matching "завтра в 10 утра" as 2024-03-02T10:00:00Z, the stored
      reminder is "купить кофе" at 1709373600000. */
  lemma InlineExample()
    ensures ResolveInline("завтра в 10 утра купить кофе", Match("завтра в 10 утра", 1709373600000),
                          1709280000000)
         == Resolved("купить кофе", 1709373600000)
  {
    assert "завтра в 10 утра купить кофе" == "завтра в 10 утра" + " " + "купить кофе";
    LeadingSpanRemoved("завтра в 10 утра", " ", "купить кофе");
  }

  /** Zone mode can accept a time that is already past in the user's zone:
      the check passes on the parsed instant, the stored one is earlier. */
  lemma ZonedAcceptsPastZoneTime(text: string, span: string, instant: int, toZone: int -> int, now: int)
    requires instant > now && toZone(instant) <= now
    ensures ResolveZoned(text, Match(span, instant), toZone, now).Resolved?
    ensures ResolveZoned(text, Match(span, instant), toZone, now).remindAt <= now
  {
  }
}
