/** Message Formatter: the text of one schedule, the queue of the house, the
    tomorrow section and the assembled status message (src/monitor.js,
    formatScheduleIntervals, getQueueFromGraph, generateMessage). */
module Report {
  import opened Wrappers
  import opened Strings
  import opened Payload
  import opened Slots
  import opened Intervals

  const PendingText := "⏳" + " Дані на наступний день будуть доступні пізніше"
  const NoOutagesText := "✅" + " Відключень не заплановано"
  const TomorrowUnavailableText := "⏳" + " Графік на завтра ще не доступний (зазвичай з'являється ввечері)"
  const UnknownQueue := "Невідомо"
  const MissingInfoError := "❌ Power outage info missed."

  /** Seconds in a day: the distance between two day keys. */
  const DaySeconds := 86400

  // ---------------------------------------------------------------------------
  // formatScheduleIntervals

  /** `intervals.filter(i => i.type === k)`. */
  function OfKind(ivs: seq<Interval>, k: Slot): (r: seq<Interval>)
    ensures forall iv :: iv in r <==> iv in ivs && iv.kind == k
    ensures |r| <= |ivs|
  {
    if |ivs| == 0 then []
    else (if ivs[0].kind == k then [ivs[0]] else []) + OfKind(ivs[1..], k)
  }

  /** Filtering keeps the input order: it distributes over concatenation. */
  lemma {:induction false} OfKindAppend(a: seq<Interval>, b: seq<Interval>, k: Slot)
    ensures OfKind(a + b, k) == OfKind(a, k) + OfKind(b, k)
  {
    if |a| > 0 {
      assert (a + b)[0] == a[0] && (a + b)[1..] == a[1..] + b;
      OfKindAppend(a[1..], b, k);
    } else {
      assert a + b == b;
    }
  }

  /** When every interval is off or possible, the two filters together keep
      every interval exactly once: the format drops none and repeats none. */
  lemma OfKindSplit(ivs: seq<Interval>)
    requires forall p :: 0 <= p < |ivs| ==> Reported(ivs[p].kind)
    ensures multiset(OfKind(ivs, Off) + OfKind(ivs, Possible)) == multiset(ivs)
  {
    forall x | true
      ensures multiset(OfKind(ivs, Off) + OfKind(ivs, Possible))[x] == multiset(ivs)[x]
    {
      OfKindCount(ivs, Off, x);
      OfKindCount(ivs, Possible, x);
      if x in ivs {
        var p :| 0 <= p < |ivs| && ivs[p] == x;
      }
    }
  }

  /** Filtering keeps every copy of an interval of the kind and none of the
      others. */
  lemma {:induction false} OfKindCount(ivs: seq<Interval>, k: Slot, x: Interval)
    ensures multiset(OfKind(ivs, k))[x] == if x.kind == k then multiset(ivs)[x] else 0
  {
    if |ivs| > 0 {
      OfKindCount(ivs[1..], k, x);
      assert ivs == [ivs[0]] + ivs[1..];
    }
  }


  function OffLine(iv: Interval): string
  {
    "🪫 " + iv.start + " — " + iv.end
  }

  function PossibleLine(iv: Interval): string
  {
    "❓ " + iv.start + " — " + iv.end + " (можливо)"
  }

  function OffLines(ivs: seq<Interval>): seq<string>
  {
    seq(|ivs|, p requires 0 <= p < |ivs| => OffLine(ivs[p]))
  }

  function PossibleLines(ivs: seq<Interval>): seq<string>
  {
    seq(|ivs|, p requires 0 <= p < |ivs| => PossibleLine(ivs[p]))
  }

  /** The lines a schedule is shown as: every off interval, then every
      possible one, each list in the order of `intervals`. */
  function ScheduleLines(intervals: seq<Interval>): seq<string>
  {
    OffLines(OfKind(intervals, Off)) + PossibleLines(OfKind(intervals, Possible))
  }

  /** `formatScheduleIntervals(intervals, hasData)`, with the accumulator of
      the source: off lines, a newline only when something precedes, then
      possible lines, and the no-outages text when nothing was written. */
  function FormatScheduleIntervals(intervals: seq<Interval>, hasData: bool): (r: string)
    ensures !hasData ==> r == PendingText
    ensures hasData && OfKind(intervals, Off) == [] && OfKind(intervals, Possible) == [] ==> r == NoOutagesText
  {
    if !hasData then PendingText
    else if |intervals| == 0 then NoOutagesText
    else
      var offs := OfKind(intervals, Off);
      var possibles := OfKind(intervals, Possible);
      var afterOff := if |offs| > 0 then Join(OffLines(offs), "\n") else "";
      var afterPossible :=
        if |possibles| > 0 then
          (if afterOff != "" then afterOff + "\n" else afterOff) + Join(PossibleLines(possibles), "\n")
        else afterOff;
      if afterPossible != "" then afterPossible else NoOutagesText
  }

  /** The three outcomes of the format: pending without data, the
      no-outages text when no interval is off or possible, and otherwise the
      schedule lines joined by newlines, which then starts with the icon of
      its first line and so is neither of the two fixed texts. */
  lemma FormatScheduleCases(intervals: seq<Interval>, hasData: bool)
    ensures !hasData ==> FormatScheduleIntervals(intervals, hasData) == PendingText
    ensures hasData && ScheduleLines(intervals) == [] ==>
      FormatScheduleIntervals(intervals, hasData) == NoOutagesText
    ensures hasData && ScheduleLines(intervals) != [] ==>
      && FormatScheduleIntervals(intervals, hasData) == Join(ScheduleLines(intervals), "\n")
      && FormatScheduleIntervals(intervals, hasData)[0] in {'🪫', '❓'}
  {
    var offs := OfKind(intervals, Off);
    var possibles := OfKind(intervals, Possible);
    if hasData && |intervals| > 0 {
      if |offs| > 0 {
        JoinHead(OffLines(offs), "\n");
        assert OffLines(offs)[0][0] == '🪫';
        if |possibles| > 0 {
          JoinAppend(OffLines(offs), PossibleLines(possibles), "\n");
        } else {
          assert ScheduleLines(intervals) == OffLines(offs);
        }
      } else if |possibles| > 0 {
        JoinHead(PossibleLines(possibles), "\n");
        assert PossibleLines(possibles)[0][0] == '❓';
        assert ScheduleLines(intervals) == PossibleLines(possibles);
      }
    }
  }

  /** With data the text is never empty and never the pending text; it is
      the no-outages text exactly when no line is shown. */
  lemma FormatWithData(intervals: seq<Interval>)
    ensures FormatScheduleIntervals(intervals, true) != ""
    ensures FormatScheduleIntervals(intervals, true) != PendingText
    ensures FormatScheduleIntervals(intervals, true) != TomorrowUnavailableText
    ensures FormatScheduleIntervals(intervals, true) == NoOutagesText <==> ScheduleLines(intervals) == []
  {
    FormatScheduleCases(intervals, true);
    assert PendingText[0] == '⏳' && TomorrowUnavailableText[0] == '⏳' && NoOutagesText[0] == '✅';
  }

  /** Every interval of a day's schedule is shown: its off and possible lines
      together are one line per interval. */
  lemma ScheduleShowsEveryInterval(response: Info, scheduleId: string)
    ensures |ScheduleLines(Schedule(response, scheduleId))| == |Schedule(response, scheduleId)|
  {
    var ivs := Schedule(response, scheduleId);
    match HourMapOf(response, scheduleId)
    case None =>
    case Some(hourMap) =>
      var t := Timeline(hourMap);
      AllRunsSound(t, 0);
      forall p | 0 <= p < |ivs| ensures Reported(ivs[p].kind) {
        assert AllRuns(t, 0)[p] in AllRuns(t, 0);
      }
      OfKindSplit(ivs);
      assert |multiset(OfKind(ivs, Off) + OfKind(ivs, Possible))| == |multiset(ivs)|;
  }

  // ---------------------------------------------------------------------------
  // getQueueFromGraph

  /** `getQueueFromGraph(info)` for the configured house: the house's queues
      joined by ", ", or the unknown-queue text when there are none. */
  function GetQueueFromGraph(info: Info, house: string): (queue: string)
    ensures queue != UnknownQueue ==>
      && info.data.Some? && house in info.data.value
      && info.data.value[house].subTypeReason.Some?
      && |info.data.value[house].subTypeReason.value| > 0
  {
    if info.data.None? || house !in info.data.value then UnknownQueue
    else
      var reasons := info.data.value[house].subTypeReason;
      if reasons.None? || |reasons.value| == 0 then UnknownQueue
      else Join(reasons.value, ", ")
  }

  /** The queue is unknown without a house entry or without queues, is the
      queue itself for a house in one queue, and lists the first queue before
      the others when there are several. */
  lemma QueueCases(info: Info, house: string)
    ensures info.data.None? || house !in info.data.value
      || info.data.value[house].subTypeReason.None?
      || info.data.value[house].subTypeReason.value == []
      ==> GetQueueFromGraph(info, house) == UnknownQueue
    ensures info.data.Some? && house in info.data.value
      && info.data.value[house].subTypeReason.Some?
      && |info.data.value[house].subTypeReason.value| == 1
      ==> GetQueueFromGraph(info, house) == info.data.value[house].subTypeReason.value[0]
    ensures info.data.Some? && house in info.data.value
      && info.data.value[house].subTypeReason.Some?
      && |info.data.value[house].subTypeReason.value| > 1
      ==> var reasons := info.data.value[house].subTypeReason.value;
          GetQueueFromGraph(info, house) == reasons[0] + ", " + Join(reasons[1..], ", ")
  {
    if info.data.Some? && house in info.data.value {
      var reasons := info.data.value[house].subTypeReason;
      if reasons.Some? && |reasons.value| > 1 {
        JoinAppend([reasons.value[0]], reasons.value[1..], ", ");
        assert [reasons.value[0]] + reasons.value[1..] == reasons.value;
      }
    }
  }

  // ---------------------------------------------------------------------------
  // The tomorrow section of generateMessage

  /** The day key of tomorrow: today's key plus one day, when today is set. */
  function TomorrowKey(info: Info): (k: Option<int>)
    ensures k.Some? <==> HasToday(info)
    ensures k.Some? ==> k.value - info.fact.value.today.value == DaySeconds
  {
    if HasToday(info) then Some(info.fact.value.today.value + DaySeconds) else None
  }

  /** Tomorrow's schedules, when the document already has them. */
  function TomorrowDay(info: Info): (day: Option<DayData>)
    ensures day.Some? <==> HasToday(info) && info.fact.value.today.value + DaySeconds in info.fact.value.data
    ensures day.Some? ==> day.value == info.fact.value.data[info.fact.value.today.value + DaySeconds]
  {
    match TomorrowKey(info)
    case None => None
    case Some(k) => if k in info.fact.value.data then Some(info.fact.value.data[k]) else None
  }

  /** The document built for tomorrow's queue: tomorrow's key as `today` and
      that queue's hour map as its only entry. */
  function TomorrowResponse(key: int, queue: string, hourMap: HourMap): Info
  {
    Info(None, Some(Fact(Some(key), map[key := map[queue := hourMap]])))
  }

  /** The intervals shown for tomorrow: none unless tomorrow's day lists the
      queue, otherwise the schedule of the document built for it. */
  function TomorrowIntervals(info: Info, queue: string): (ivs: seq<Interval>)
    ensures TomorrowDay(info).None? || queue !in TomorrowDay(info).value ==> ivs == []
  {
    match TomorrowDay(info)
    case None => []
    case Some(day) =>
      if queue in day then Schedule(TomorrowResponse(TomorrowKey(info).value, queue, day[queue]), queue)
      else []
  }

  /** The text under the tomorrow heading. */
  function TomorrowText(info: Info, queue: string): (text: string)
    ensures TomorrowDay(info).None? ==> text == TomorrowUnavailableText
    ensures TomorrowDay(info).Some? ==> text != TomorrowUnavailableText && text != ""
  {
    if TomorrowDay(info).Some? then
      FormatWithData(TomorrowIntervals(info, queue));
      FormatScheduleIntervals(TomorrowIntervals(info, queue), true)
    else TomorrowUnavailableText
  }

  /** The not-yet-available text appears exactly when the document has no
      day for tomorrow. */
  lemma TomorrowUnavailableIff(info: Info, queue: string)
    ensures TomorrowText(info, queue) == TomorrowUnavailableText <==> TomorrowDay(info).None?
  {
    FormatWithData(TomorrowIntervals(info, queue));
  }

  /** A tomorrow day that does not list the queue shows no outages. */
  lemma TomorrowWithoutQueue(info: Info, queue: string)
    requires TomorrowDay(info).Some? && queue !in TomorrowDay(info).value
    ensures TomorrowText(info, queue) == NoOutagesText
  {
  }

  /** A tomorrow day that lists the queue shows the maximal runs of that
      queue's hour map, as today's schedule would. */
  lemma TomorrowIsSchedule(info: Info, queue: string)
    requires TomorrowDay(info).Some? && queue in TomorrowDay(info).value
    requires TomorrowKey(info).value != 0
    ensures TomorrowIntervals(info, queue) == Render(AllRuns(Timeline(TomorrowDay(info).value[queue]), 0))
  {
    var key := TomorrowKey(info).value;
    var hourMap := TomorrowDay(info).value[queue];
    assert HourMapOf(TomorrowResponse(key, queue, hourMap), queue) == Some(hourMap);
  }

  /** When tomorrow's key is 0 (today's key is minus one day), the built
      document has a falsy `today` and tomorrow shows no outages whatever
      its hour map says. */
  lemma TomorrowKeyZero(info: Info, queue: string)
    requires TomorrowDay(info).Some? && TomorrowKey(info).value == 0
    ensures TomorrowText(info, queue) == NoOutagesText
  {
  }

  // ---------------------------------------------------------------------------
  // generateMessage

  /** `"═".repeat(50)`. */
  const Separator: string := Repeat('═', 50)

  /** The address line's value: `${CITY}, ${STREET}, ${HOUSE}`. */
  function Address(city: string, street: string, house: string): string
  {
    city + ", " + street + ", " + house
  }

  /** The labels the message takes from the clock: the day and month of today
      and of tomorrow, and the update time. */
  datatype Labels = Labels(today: string, tomorrow: string, updated: string)

  const Title := "⚡️" + " <b>Статус електропостачання</b>"

  function AddressLine(address: string): string { "🏠" + " <b>Адреса:</b> " + address }

  function QueueLine(queue: string): string { "🔢" + " <b>Черга:</b> " + queue }

  function TodayHeading(date: string): string { "📅" + " <b>Графік на сьогодні (" + date + "):</b>" }

  function TomorrowHeading(date: string): string { "📅" + " <b>Графік на завтра (" + date + "):</b>" }

  function UpdatedLine(time: string): string { "🕐" + " <i>Оновлено: " + time + "</i>" }

  /** Each line preceded by an empty line. */
  function BlankBefore(lines: seq<string>): (r: seq<string>)
    ensures |r| == 2 * |lines|
    ensures forall j :: 0 <= j < |lines| ==> r[2 * j] == "" && r[2 * j + 1] == lines[j]
  {
    if |lines| == 0 then [] else ["", lines[0]] + BlankBefore(lines[1..])
  }

  /** The message array before blank lines are filtered out: title, address
      and queue, then the separators, headings, schedule texts and update time,
      each after an empty line. */
  function MessageLines(address: string, queue: string, labels: Labels, todayText: string, tomorrowText: string): seq<string>
  {
    [Title, AddressLine(address), QueueLine(queue)]
      + BlankBefore([ Separator, TodayHeading(labels.today), todayText,
                      Separator, TomorrowHeading(labels.tomorrow), tomorrowText,
                      Separator, UpdatedLine(labels.updated) ])
  }

  /** `.filter(line => line !== null && line !== "")`. */
  function DropEmpty(lines: seq<string>): (r: seq<string>)
    ensures forall l :: l in r <==> l in lines && l != ""
    ensures |r| <= |lines|
  {
    if |lines| == 0 then []
    else (if lines[0] == "" then [] else [lines[0]]) + DropEmpty(lines[1..])
  }

  /** The message `generateMessage` returns, or the error it throws when the
      document has no `data`. */
  function Message(info: Info, city: string, street: string, house: string, labels: Labels): Result<string>
  {
    if info.data.None? then Failure(MissingInfoError)
    else
      var queue := GetQueueFromGraph(info, house);
      var todayText := FormatScheduleIntervals(Schedule(info, queue), true);
      var lines := MessageLines(Address(city, street, house), queue, labels, todayText, TomorrowText(info, queue));
      Success(Join(DropEmpty(lines), "\n"))
  }

  /** `generateMessage(info)`: the queue, today's intervals, tomorrow's
      intervals through a document built for tomorrow, and the lines joined
      without the blank ones. */
  method GenerateMessage(info: Info, city: string, street: string, house: string, labels: Labels)
    returns (message: Result<string>)
    ensures message == Message(info, city, street, house, labels)
  {
    if info.data.None? {
      return Failure(MissingInfoError);
    }
    var queue := GetQueueFromGraph(info, house);
    var todayIntervals := ParseScheduleIntervals(info, queue);
    var tomorrowKey := TomorrowKey(info);
    var tomorrowData := if tomorrowKey.Some? && tomorrowKey.value in info.fact.value.data
      then Some(info.fact.value.data[tomorrowKey.value]) else None;
    var hasTomorrowData := tomorrowData.Some?;
    var tomorrowIntervals := [];
    if hasTomorrowData && queue in tomorrowData.value {
      var tomorrowResponse := TomorrowResponse(tomorrowKey.value, queue, tomorrowData.value[queue]);
      tomorrowIntervals := ParseScheduleIntervals(tomorrowResponse, queue);
    }
    var tomorrowText := TomorrowUnavailableText;
    if hasTomorrowData {
      tomorrowText := FormatScheduleIntervals(tomorrowIntervals, true);
    }
    var lines := MessageLines(Address(city, street, house), queue, labels, FormatScheduleIntervals(todayIntervals, true), tomorrowText);
    message := Success(Join(DropEmpty(lines), "\n"));
  }

  /** Filtering keeps the order: it distributes over concatenation. */
  lemma {:induction false} DropEmptyAppend(a: seq<string>, b: seq<string>)
    ensures DropEmpty(a + b) == DropEmpty(a) + DropEmpty(b)
  {
    if |a| > 0 {
      assert (a + b)[0] == a[0] && (a + b)[1..] == a[1..] + b;
      DropEmptyAppend(a[1..], b);
    } else {
      assert a + b == b;
    }
  }

  /** A list without empty lines passes the filter unchanged. */
  lemma {:induction false} DropEmptyNoBlank(lines: seq<string>)
    requires "" !in lines
    ensures DropEmpty(lines) == lines
  {
    if |lines| > 0 {
      assert lines[0] != "" && "" !in lines[1..];
      DropEmptyNoBlank(lines[1..]);
      assert lines == [lines[0]] + lines[1..];
    }
  }

  /** The empty lines put before non-empty lines are exactly what the filter
      removes. */
  lemma {:induction false} DropBlankBefore(lines: seq<string>)
    requires "" !in lines
    ensures DropEmpty(BlankBefore(lines)) == lines
  {
    if |lines| > 0 {
      assert lines[0] != "" && "" !in lines[1..];
      DropEmptyAppend(["", lines[0]], BlankBefore(lines[1..]));
      DropBlankBefore(lines[1..]);
      assert ["", lines[0]][1..] == [lines[0]];
      assert lines == [lines[0]] + lines[1..];
    }
  }

  /** The message is the eleven non-blank lines of the layout, in order: the
      title, address, queue, the two schedule headings each followed by its
      text, the update time and a separator between the sections. */
  lemma MessageLayout(info: Info, city: string, street: string, house: string, labels: Labels)
    requires info.data.Some?
    ensures var queue := GetQueueFromGraph(info, house);
      Message(info, city, street, house, labels) == Success(Join(
        [ Title, AddressLine(Address(city, street, house)), QueueLine(queue) ]
          + [ Separator, TodayHeading(labels.today), FormatScheduleIntervals(Schedule(info, queue), true),
              Separator, TomorrowHeading(labels.tomorrow), TomorrowText(info, queue),
              Separator, UpdatedLine(labels.updated) ], "\n"))
  {
    var queue := GetQueueFromGraph(info, house);
    FormatWithData(Schedule(info, queue));
    FormatWithData(TomorrowIntervals(info, queue));
    LinesWithoutBlanks(Address(city, street, house), queue, labels,
      FormatScheduleIntervals(Schedule(info, queue), true), TomorrowText(info, queue));
  }

  /** The filter removes exactly the empty lines of the layout when both
      schedule texts are non-empty. */
  lemma LinesWithoutBlanks(address: string, queue: string, labels: Labels, todayText: string, tomorrowText: string)
    requires todayText != "" && tomorrowText != ""
    ensures DropEmpty(MessageLines(address, queue, labels, todayText, tomorrowText))
         == [ Title, AddressLine(address), QueueLine(queue) ]
          + [ Separator, TodayHeading(labels.today), todayText,
              Separator, TomorrowHeading(labels.tomorrow), tomorrowText,
              Separator, UpdatedLine(labels.updated) ]
  {
    var head := [Title, AddressLine(address), QueueLine(queue)];
    var body := [ Separator, TodayHeading(labels.today), todayText,
                  Separator, TomorrowHeading(labels.tomorrow), tomorrowText,
                  Separator, UpdatedLine(labels.updated) ];
    assert Separator[0] == '═';
    assert "" !in body;
    DropBlankBefore(body);
    DropEmptyAppend(head, BlankBefore(body));
    DropEmptyNoBlank(head);
  }
}
