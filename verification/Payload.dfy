/** The part of the fetched schedule document that the core reads:
    `{ data: { [house]: { sub_type_reason: [queue, ...] } },
       fact: { today: dayKey, data: { [dayKey]: { [queue]: { ["1".."24"]: code } } } } }`. */
module Payload {
  import opened Wrappers

  /** Hour label "1".."24" to the raw status code of that hour. */
  type HourMap = map<string, string>

  /** Queue identifier to its hour map, for one day. */
  type DayData = map<string, HourMap>

  /** `fact`: the day key of today and the schedules per day key. Day keys are
      kept as the numbers they are written from (`String` is injective on
      integers); an absent `fact.data` is the empty map. */
  datatype Fact = Fact(today: Option<int>, data: map<int, DayData>)

  /** One entry of `data`, keyed by house: the queues the house belongs to. */
  datatype House = House(subTypeReason: Option<seq<string>>)

  datatype Info = Info(data: Option<map<string, House>>, fact: Option<Fact>)

  /** `response.fact.today` is present and truthy. */
  predicate HasToday(info: Info)
  {
    info.fact.Some? && TruthyInt(info.fact.value.today)
  }
}
