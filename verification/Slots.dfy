/** Slot Timeline Builder: the per-hour status codes of one queue become a
    timeline of 48 half-hour slots (src/monitor.js, parseScheduleIntervals). */
module Slots {
  import opened Strings
  import opened Payload

  /** The status of one half hour. */
  datatype Slot = On | Off | Possible | Unknown

  /** The number of half-hour slots in a day. */
  const SlotCount := 48

  /** The codes the schedule table knows. */
  const KnownCodes: set<string> := {"no", "yes", "first", "second", "maybe", "mfirst", "msecond"}

  /** The two half-hour statuses one hour code stands for: "first" and
      "second" name the half that is off, "mfirst" and "msecond" the half that
      is possibly off; any other code says nothing about either half. */
  function HalfSlots(code: string): (r: (Slot, Slot))
    ensures r == (On, On) <==> code == "yes"
    ensures r.0 == Unknown <==> code !in KnownCodes
    ensures r.1 == Unknown <==> code !in KnownCodes
    ensures (r.0 == Off || r.1 == Off) <==> code in {"no", "first", "second"}
    ensures (r.0 == Possible || r.1 == Possible) <==> code in {"maybe", "mfirst", "msecond"}
    ensures r.0 == Off && r.1 == On <==> code == "first"
    ensures r.0 == On && r.1 == Off <==> code == "second"
    ensures r.0 == Possible && r.1 == On <==> code == "mfirst"
    ensures r.0 == On && r.1 == Possible <==> code == "msecond"
  {
    match code
    case "no" => (Off, Off)
    case "yes" => (On, On)
    case "first" => (Off, On)
    case "second" => (On, Off)
    case "maybe" => (Possible, Possible)
    case "mfirst" => (Possible, On)
    case "msecond" => (On, Possible)
    case _ => (Unknown, Unknown)
  }

  /** `String(h)`: the key of hour `h` in an hour map. */
  function HourKey(h: int): string
    requires 1 <= h <= 24
  {
    if h < 10 then [Digit(h)] else [Digit(h / 10), Digit(h % 10)]
  }

  /** `(hourMap[String(h)] || "").toString()`: an absent hour reads as "". */
  function CodeAt(hourMap: HourMap, h: int): string
    requires 1 <= h <= 24
  {
    if HourKey(h) in hourMap then hourMap[HourKey(h)] else ""
  }

  /** The status of slot `i`: half `i % 2` of hour `i / 2 + 1`. */
  function SlotAt(hourMap: HourMap, i: int): Slot
    requires 0 <= i < SlotCount
  {
    var halves := HalfSlots(CodeAt(hourMap, i / 2 + 1));
    if i % 2 == 0 then halves.0 else halves.1
  }

  /** The timeline of a day: slot `i` covers minutes `30 * i` to `30 * i + 30`.
      Hour `h` decides exactly slots `2 * (h - 1)` and `2 * (h - 1) + 1`. */
  function Timeline(hourMap: HourMap): (t: seq<Slot>)
    ensures |t| == SlotCount
    ensures forall h :: 1 <= h <= 24 ==>
      t[2 * (h - 1)] == HalfSlots(CodeAt(hourMap, h)).0 && t[2 * (h - 1) + 1] == HalfSlots(CodeAt(hourMap, h)).1
  {
    seq(SlotCount, i requires 0 <= i < SlotCount => SlotAt(hourMap, i))
  }

  /** An hour missing from the map leaves both its halves unknown, never on. */
  lemma MissingHourUnknown(hourMap: HourMap, h: int)
    requires 1 <= h <= 24 && HourKey(h) !in hourMap
    ensures Timeline(hourMap)[2 * (h - 1)] == Unknown && Timeline(hourMap)[2 * (h - 1) + 1] == Unknown
  {
    assert CodeAt(hourMap, h) == "";
    assert HalfSlots("") == (Unknown, Unknown);
  }

  /** A day with the same code in every hour repeats that code's two halves. */
  lemma UniformDay(hourMap: HourMap, code: string)
    requires forall h :: 1 <= h <= 24 ==> CodeAt(hourMap, h) == code
    ensures forall m :: 0 <= m < SlotCount ==>
      Timeline(hourMap)[m] == if m % 2 == 0 then HalfSlots(code).0 else HalfSlots(code).1
  {
    forall m | 0 <= m < SlotCount
      ensures Timeline(hourMap)[m] == if m % 2 == 0 then HalfSlots(code).0 else HalfSlots(code).1
    {
      assert CodeAt(hourMap, m / 2 + 1) == code;
    }
  }

  /** `markHalf`: set half `half` of hour `hourIndex` to `value`. */
  method MarkHalf(slots: array<Slot>, hourIndex: int, half: int, value: Slot)
    requires slots.Length == SlotCount && 1 <= hourIndex <= 24 && 0 <= half <= 1
    modifies slots
    ensures slots[..] == old(slots[..])[(hourIndex - 1) * 2 + half := value]
  {
    slots[(hourIndex - 1) * 2 + half] := value;
  }

  /** `mapValueToSlots`: write the two halves of hour `hourIndex` from its code
      and nothing else. */
  method MapValueToSlots(slots: array<Slot>, hourIndex: int, val: string)
    requires slots.Length == SlotCount && 1 <= hourIndex <= 24
    modifies slots
    ensures slots[..] == old(slots[..])[(hourIndex - 1) * 2 := HalfSlots(val).0][(hourIndex - 1) * 2 + 1 := HalfSlots(val).1]
  {
    if val == "no" {
      MarkHalf(slots, hourIndex, 0, Off);
      MarkHalf(slots, hourIndex, 1, Off);
    } else if val == "yes" {
      MarkHalf(slots, hourIndex, 0, On);
      MarkHalf(slots, hourIndex, 1, On);
    } else if val == "first" {
      MarkHalf(slots, hourIndex, 0, Off);
      MarkHalf(slots, hourIndex, 1, On);
    } else if val == "second" {
      MarkHalf(slots, hourIndex, 0, On);
      MarkHalf(slots, hourIndex, 1, Off);
    } else if val == "maybe" {
      MarkHalf(slots, hourIndex, 0, Possible);
      MarkHalf(slots, hourIndex, 1, Possible);
    } else if val == "mfirst" {
      MarkHalf(slots, hourIndex, 0, Possible);
      MarkHalf(slots, hourIndex, 1, On);
    } else if val == "msecond" {
      MarkHalf(slots, hourIndex, 0, On);
      MarkHalf(slots, hourIndex, 1, Possible);
    } else {
      MarkHalf(slots, hourIndex, 0, Unknown);
      MarkHalf(slots, hourIndex, 1, Unknown);
    }
  }

  /** The slot array of `parseScheduleIntervals`: 48 slots start as on, then
      hours 1 to 24 are applied in ascending order. Every slot is overwritten,
      so the result is the timeline of the hour map. */
  method BuildTimeline(hourMap: HourMap) returns (slots: array<Slot>)
    ensures fresh(slots)
    ensures slots[..] == Timeline(hourMap)
  {
    slots := new Slot[SlotCount](_ => On);
    for h := 1 to 25
      invariant slots.Length == SlotCount
      invariant forall i :: 0 <= i < 2 * (h - 1) ==> slots[i] == SlotAt(hourMap, i)
      invariant forall i :: 2 * (h - 1) <= i < SlotCount ==> slots[i] == On
    {
      var val := CodeAt(hourMap, h);
      MapValueToSlots(slots, h, val);
    }
    assert slots[..] == Timeline(hourMap);
  }
}
