# dtek-monitor: a verified model of the schedule parser, the status message and its delivery

The monitor fetches the DTEK power-outage schedule document for one house. It
turns the schedule of the house's queue for today and for tomorrow into lists
of outage intervals. It writes the status message in Telegram HTML and sends
it to a chat. A second run on the same day edits the message it sent earlier,
using a small record of that message kept on disk.

The model covers these parts of the monitor:

- **Slot timeline** (`Slots`). Each hour map (`"1".."24"` to codes such as
  `"no"`, `"first"` and `"maybe"`) becomes 48 half-hour slots: on, off,
  possible or unknown. `BuildTimeline` fills an array slot by slot, as
  `markHalf` and `mapValueToSlots` do. It is proved equal to the function
  `Timeline`.
- **Interval merger** (`Intervals`). Two scans collect the maximal runs of
  off slots and then of possible slots. The pushed intervals are sorted by
  their `"HH:MM"` start strings with an in-place insertion sort on an array.
  `ParseScheduleIntervals` is proved to return exactly the chronological list
  of maximal runs of the day (`Schedule`). This relies on four results:
  - the two scans find a permutation of one chronological scan;
  - the formatted start times are strictly increasing for JavaScript's `<`
    on strings;
  - a sorted permutation of a list with strictly increasing starts is that
    list;
  - every run is maximal and every off or possible slot is covered.
- **Message formatter** (`Report`). It models `formatScheduleIntervals`,
  `getQueueFromGraph`, the tomorrow section (a document built for tomorrow's
  day key) and `generateMessage` with its blank-line filter.
- **Message persistence** (`Helpers`). The directory of saved records is a
  class over a map from file name to record, with `Load`, `Save` and
  `Delete`. `Load` drops a record from an earlier calendar day. This part
  also models `capitalize`.
- **Delivery** (`Delivery`). `sendNotification` either edits the message on
  record or sends a new one, then saves the reply's record or deletes the
  record on any failure. It is a method over the store. It is proved to
  match the pure transition `Deliver`, and lemmas state what consecutive
  runs do.

Supporting modules:

- `Wrappers`: `Option`, `Result` and JavaScript truthiness of optional
  numbers and strings.
- `Strings`: `Array.prototype.join`, `String.prototype.repeat` and `<` on
  strings.
- `Payload`: the shape of the fetched document.

## Model

| member | source | states |
|---|---|---|
| Slots.HalfSlots | src/monitor.js:90-123 | each code's two halves: "yes" alone is fully on; off appears exactly for no/first/second, possible exactly for maybe/mfirst/msecond; first, second, mfirst, msecond are the only split hours; any other code (absent included) gives unknown in both halves |
| Slots.Timeline | src/monitor.js:82-129 | 48 slots; slots 2(h-1) and 2(h-1)+1 are the two halves of hour h's code |
| Slots.MissingHourUnknown | src/monitor.js:120-127 | an hour missing from the map leaves both its slots unknown |
| Slots.UniformDay | src/monitor.js:126-129 | a day with one code in every hour repeats that code's halves in every slot |
| Slots.MarkHalf | src/monitor.js:84-88 | exactly slot (hourIndex-1)*2+half changes, to value |
| Slots.MapValueToSlots | src/monitor.js:90-124 | exactly the two slots of the hour change, to the code's halves |
| Slots.BuildTimeline | src/monitor.js:82-129 | a fresh array whose contents are Timeline(hourMap) |
| Intervals.RunEnd | src/monitor.js:146-147 | the end of the run: all slots before it are of the kind, and the one at it is not (or the day is over) |
| Intervals.AllRunsSound | src/monitor.js:140-167 | every run found is a non-empty maximal run of off or possible slots, and the runs are ordered and disjoint |
| Intervals.AllRunsComplete | src/monitor.js:140-167 | every off or possible slot lies in some run found |
| Intervals.NoRunsFrom | src/monitor.js:143-153 | a stretch with no off or possible slot yields no runs |
| Intervals.RunsOfSkip | src/monitor.js:143-153 | the scan passes over slots of other kinds without pushing anything |
| Intervals.Clamp | src/monitor.js:133-134 | a negative index becomes 0, an index above 48 becomes 48, and one inside 0..48 is unchanged |
| Intervals.Fmt | src/monitor.js:132-138 | "HH:MM" with two digits, a colon and minutes "00" for even and "30" for odd clamped slots |
| Intervals.FmtRoundTrip | src/monitor.js:132-138 | reading the time back gives the clamped slot index: the format is injective on 0..48 |
| Intervals.FmtMonotone | src/monitor.js:132-138 | later slots give strictly greater strings under JavaScript `<` |
| Intervals.FmtValues | src/monitor.js:132-138 | slot 0 is "00:00", slot 1 "00:30", slot 48 "24:00" |
| Intervals.ScansArePermutation | src/monitor.js:140-167 | the off scan followed by the possible scan finds the same runs as one chronological scan of both kinds |
| Intervals.RenderPermutation | src/monitor.js:148 | rearranged runs give rearranged intervals |
| Intervals.AllRunsStartsIncreasing | src/monitor.js:148 | the intervals of the chronological scan have strictly increasing start strings |
| Intervals.SortedPermutationUnique | src/monitor.js:170 | a list with strictly increasing starts is the only arrangement of its elements sorted by start |
| Intervals.SortedScansAreSchedule | src/monitor.js:140-171 | any sorted permutation of the pushed intervals is the chronological list of maximal runs |
| Intervals.ScanRun | src/monitor.js:146-147 | the inner loop stops at the end of the run |
| Intervals.CollectRuns | src/monitor.js:141-153 | the scan appends one interval per maximal run of the kind, in order, to what was pushed before |
| Intervals.InsertAt | src/monitor.js:170 | one insertion step extends the sorted prefix by one element and keeps the elements |
| Intervals.SortByStart | src/monitor.js:170 | the array ends sorted by start string and is a permutation of what it held |
| Intervals.SortIntervals | src/monitor.js:170 | the sorted list is sorted by start and a permutation of the pushed one |
| Intervals.DayIntervals | src/monitor.js:80-171 | the intervals of an hour map are its maximal off/possible runs in chronological order |
| Intervals.ParseScheduleIntervals | src/monitor.js:70-172 | the result is Schedule: empty without today's key, day or queue, otherwise the maximal runs by start |
| Intervals.ScheduleWithoutData | src/monitor.js:71-78 | a missing or falsy today, a missing day or a missing queue gives no intervals |
| Intervals.ScheduleIsMaximalRuns | src/monitor.js:140-171 | the schedule is exactly the maximal runs: sound, complete, ordered, with strictly increasing starts |
| Intervals.AllNoDay | src/monitor.js:92-95 | a day that is "no" in every hour is one interval 00:00-24:00 |
| Intervals.AllYesDay | src/monitor.js:96-99 | a day that is "yes" in every hour has no intervals |
| Intervals.FirstThenSecondDay | src/monitor.js:100-107 | "first" then "second" gives two separate half-hour intervals, 00:00-00:30 and 01:30-02:00 |
| Report.OfKind | src/monitor.js:183-184 | the filter keeps exactly the intervals of the kind |
| Report.OfKindAppend | src/monitor.js:183-184 | the filter keeps the input order: filtering a concatenation is concatenating the filtered parts |
| Report.OfKindSplit | src/monitor.js:183-184 | the two filters together keep every off or possible interval exactly once |
| Report.FormatScheduleIntervals | src/monitor.js:174-198 | the pending text without data, and the no-outages text when no interval is off or possible; FormatScheduleCases gives the remaining case |
| Report.FormatScheduleCases | src/monitor.js:174-198 | pending text without data; no-outages text when no line is shown; otherwise the off lines then the possible lines joined by newlines, starting with an icon |
| Report.FormatWithData | src/monitor.js:179-197 | with data the text is never empty nor a pending text, and is the no-outages text exactly when no line is shown |
| Report.ScheduleShowsEveryInterval | src/monitor.js:183-195 | every interval of a parsed schedule gets a line |
| Report.GetQueueFromGraph | src/monitor.js:227-233 | the queue is known only when the house has a non-empty list of queues; QueueCases gives its value in each case |
| Report.QueueCases | src/monitor.js:227-233 | unknown queue without house or reasons; the single reason; otherwise the first reason, ", ", and the rest |
| Report.TomorrowKey | src/monitor.js:247 | tomorrow's key exists exactly when today is truthy and is one day (86400 s) later |
| Report.TomorrowDay | src/monitor.js:247-249 | tomorrow's day exists exactly when today is truthy and the document holds the key today + 86400, and it is that entry |
| Report.TomorrowIntervals | src/monitor.js:251-262 | no intervals when tomorrow's day is missing or does not list the queue; TomorrowIsSchedule gives them otherwise |
| Report.TomorrowText | src/monitor.js:279-284 | the not-yet-available text without tomorrow's day; otherwise a non-empty text that is not the not-yet-available one |
| Report.TomorrowUnavailableIff | src/monitor.js:279-284 | the not-yet-available text appears exactly when the document has no day for tomorrow |
| Report.TomorrowWithoutQueue | src/monitor.js:251-262 | a tomorrow day without the queue shows no outages |
| Report.TomorrowIsSchedule | src/monitor.js:251-262 | a tomorrow day with the queue shows the maximal runs of that queue's hour map |
| Report.TomorrowKeyZero | src/monitor.js:253-261 | when tomorrow's key is 0 the built document's today is falsy and tomorrow shows no outages |
| Report.BlankBefore | src/monitor.js:286-305 | twice as many lines: position 2j is an empty line and position 2j+1 is line j |
| Report.DropEmpty | src/monitor.js:306 | the filter keeps exactly the non-empty lines |
| Report.DropEmptyAppend | src/monitor.js:306 | the filter keeps the order |
| Report.DropBlankBefore | src/monitor.js:286-306 | the filter removes exactly the inserted empty lines |
| Report.LinesWithoutBlanks | src/monitor.js:286-306 | with non-empty schedule texts the filter leaves the eleven content lines in order |
| Report.MessageLayout | src/monitor.js:233-310 | with data the message is title, address, queue, separator, today heading and text, separator, tomorrow heading and text, separator, update time, joined by newlines |
| Report.GenerateMessage | src/monitor.js:233-310 | the method returns Message: the missing-info error without data, otherwise the joined non-empty lines |
| Helpers.StoreKey | src/helpers.js:13 | a missing or empty chat id selects the global file, any other gives a chat's own file |
| Helpers.StoreKeyInjective | src/helpers.js:13 | different chats never share a file name |
| Helpers.LoadResult | src/helpers.js:11-38 | a record is returned exactly when its file exists and is not from an earlier day, and it is the stored one |
| Helpers.MessageStore.Load | src/helpers.js:11-38 | returns LoadResult and leaves FilesAfterLoad: a stale record is deleted |
| Helpers.LoadOutcome | src/helpers.js:16-37 | a load that returns a record changes nothing; one that returns nothing leaves no file under the key and the rest intact |
| Helpers.MessageStore.Save | src/helpers.js:40-53 | the key's file becomes the record's id and date, nothing else changes |
| Helpers.MessageStore.Delete | src/helpers.js:55-63 | the key's file is gone, nothing else changes |
| Helpers.SaveThenLoad | src/helpers.js:11-53 | a saved record loads back unless it is dated before today, in which case the load deletes it |
| Helpers.UndatedNeverExpires | src/helpers.js:22 | a record without a date, or dated 0, never expires |
| Helpers.DeleteThenLoad | src/helpers.js:11-63 | after a delete nothing loads, and deleting twice is deleting once |
| Helpers.OtherChatsUntouched | src/helpers.js:11-63 | save, delete and load for one chat leave the files of other chats and of the global key alone |
| Helpers.LowerAll | src/helpers.js:8 | the case mapping is applied to every character |
| Helpers.Capitalize | src/helpers.js:6-9 | "" for a non-string, an error for the empty string, otherwise first character upper-cased and the rest lower-cased |
| Helpers.CapitalizeIdempotent | src/helpers.js:6-9 | capitalizing twice is capitalizing once |
| Delivery.RequestFor | src/monitor.js:320-336 | editMessageText exactly when a loaded record has a truthy message id; chat id, text, parse mode HTML and the record's id are sent |
| Delivery.SendNotification | src/monitor.js:312-358 | the request made, the outcome and the new saved files are those of Deliver |
| Delivery.MissingCredentials | src/monitor.js:313-315 | without token or chat id nothing is requested and nothing changes |
| Delivery.EditsIffCurrentRecord | src/monitor.js:320-336 | an edit is requested exactly when a current record with a truthy id is on file, and it edits that id |
| Delivery.RecordFollowsOutcome | src/monitor.js:339-358 | success exactly on an HTTP-ok reply with ok and result, which is then recorded; every failure removes the record; other files never change |
| Delivery.SameDayRerunEdits | src/monitor.js:320-358 | after a success dated today with a truthy id, the next run edits that message |
| Delivery.RerunAfterFailureSends | src/monitor.js:320-358 | after a failure the next run sends a new message |
| Delivery.StaleRecordSends | src/monitor.js:320-358 | a record from an earlier day is never edited, and a failure leaves no record |
| Strings.Join | src/monitor.js:189 | joining one part gives that part, and joining none gives "" |
| Strings.Repeat | src/monitor.js:277 | `c.repeat(n)` has length n and every character is c |
| Strings.LexLess | src/monitor.js:170 | `<` on strings is irreflexive, and a proper prefix is smaller than the string it begins |
| Strings.NotLessTransitive | src/monitor.js:170 | "not greater" under JavaScript `<` on strings is transitive, which the sort relies on |

## Left out

- `getInfo` is not part of this model. It drives a browser and reads the document from the page. The document (`Info`) is a parameter.
- The network is not modelled. `fetch` and `response.json()` of the Bot API are replaced by the reply (`Reply`), which is a parameter. A thrown `fetch` or a body that is not JSON is `Unreachable`.
- `run`, the `console` logging and the exit handling are not part of this model.
- `getCurrentTime` and `formatDate` read the clock. The three labels they produce (`Labels`) are parameters.
- The calendar day in Europe/Kyiv is abstract. It is a function `dayOf` from epoch seconds to a day number, plus `today`. The source compares "YYYY-MM-DD" strings; these order like day numbers.
- `fs` and `path` are not modelled. The directory is a map from file name to record, keyed by the file name only. `path.join` normalises `..`, so a chat id such as "/../last-message" would reach another chat's file or the global file; the model does not capture this (the monitor never passes a chat id).
- Three disk failures are not modelled: a saved file that does not parse as JSON, a failing write, and a failing delete.
- `parseFactualOutages` and `formatFactualOutages` are not part of this model. Neither is called by the message code.
- The settings from `constants.js` (city, street, house, bot token, chat id and file location) are parameters.
- Hour values that are not strings are not modelled. Hour maps hold strings, and an absent hour reads as "".
- Day keys are integers. The cases where `fact.today` is a string or a fraction are not modelled.
- The `scheduleId = "GPV5.1"` default is not modelled. The source always passes the queue.
- Helpers.Capitalize: the case mappings are abstract functions from one character to one character. Mappings that change the length (such as "ß" to "SS") and strings held as UTF-16 code units are not modelled.
