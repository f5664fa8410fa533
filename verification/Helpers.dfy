/** Message Persistence and the string helper (src/helpers.js): the record of
    the last message sent, one file per chat under a fixed directory, and
    `capitalize`. */
module Helpers {
  import opened Wrappers

  /** What `saveLastMessage` writes and `loadLastMessage` reads back:
      `{ message_id, date }`, either of which may be missing. `date` is in
      seconds since the epoch. */
  datatype Record = Record(messageId: Option<int>, date: Option<int>)

  const Stem := "last-message"
  const Extension := ".json"

  /** The file used when no chat id is given: "last-message.json". */
  const GlobalKey := Stem + Extension

  /** The file name of a chat: `chatId ? "last-message-${chatId}.json" :
      "last-message.json"`; a missing or empty chat id selects the global
      file. */
  function StoreKey(chatId: Option<string>): (key: string)
    ensures !TruthyString(chatId) <==> key == GlobalKey
  {
    if TruthyString(chatId) then Stem + "-" + chatId.value + Extension else GlobalKey
  }

  /** Different chats never share a file, and no chat shares the global one. */
  lemma StoreKeyInjective(a: Option<string>, b: Option<string>)
    requires TruthyString(a) && TruthyString(b) && a != b
    ensures StoreKey(a) != StoreKey(b)
  {
    var n := |Stem| + 1;
    assert StoreKey(a)[n..|StoreKey(a)| - |Extension|] == a.value;
    assert StoreKey(b)[n..|StoreKey(b)| - |Extension|] == b.value;
  }

  // ---------------------------------------------------------------------------
  // loadLastMessage, saveLastMessage, deleteLastMessage

  /** A saved record is out of date when it has a (truthy) date whose calendar
      day in Kyiv, `dayOf(date)`, is before today's. */
  predicate Expired(record: Record, dayOf: int -> int, today: int)
  {
    TruthyInt(record.date) && dayOf(record.date.value) < today
  }

  /** What `loadLastMessage(chatId)` returns for the files `files`. */
  function LoadResult(files: map<string, Record>, chatId: Option<string>, dayOf: int -> int, today: int): (r: Option<Record>)
    ensures r.Some? <==> StoreKey(chatId) in files && !Expired(files[StoreKey(chatId)], dayOf, today)
    ensures r.Some? ==> r.value == files[StoreKey(chatId)]
  {
    var key := StoreKey(chatId);
    if key !in files then None
    else if Expired(files[key], dayOf, today) then None
    else Some(files[key])
  }

  /** The files after `loadLastMessage(chatId)`: an out-of-date record is
      deleted, anything else is left as it is. */
  function FilesAfterLoad(files: map<string, Record>, chatId: Option<string>, dayOf: int -> int, today: int): map<string, Record>
  {
    var key := StoreKey(chatId);
    if key in files && Expired(files[key], dayOf, today) then files - {key} else files
  }

  /** The directory of saved messages, as a map from file name to content. */
  class MessageStore {
    var files: map<string, Record>

    constructor(initial: map<string, Record>)
      ensures files == initial
    {
      files := initial;
    }

    /** `loadLastMessage(chatId)`. */
    method Load(chatId: Option<string>, dayOf: int -> int, today: int) returns (record: Option<Record>)
      modifies this
      ensures record == LoadResult(old(files), chatId, dayOf, today)
      ensures files == FilesAfterLoad(old(files), chatId, dayOf, today)
    {
      var key := StoreKey(chatId);
      if key !in files {
        return None;
      }
      var lastMessage := files[key];
      if TruthyInt(lastMessage.date) {
        var messageDay := dayOf(lastMessage.date.value);
        if messageDay < today {
          Delete(chatId);
          return None;
        }
      }
      return Some(lastMessage);
    }

    /** `saveLastMessage({ date, message_id }, chatId)`: only those two fields
        are written, replacing any earlier file. */
    method Save(message: Record, chatId: Option<string>)
      modifies this
      ensures files == old(files)[StoreKey(chatId) := Record(message.messageId, message.date)]
    {
      files := files[StoreKey(chatId) := Record(message.messageId, message.date)];
    }

    /** `deleteLastMessage(chatId)`: removes the file if it exists. */
    method Delete(chatId: Option<string>)
      modifies this
      ensures files == old(files) - {StoreKey(chatId)}
    {
      var key := StoreKey(chatId);
      if key in files {
        files := files - {key};
      }
    }
  }

  /** A load that returns a record leaves the files as they are; one that
      returns nothing leaves no file under the key and every other file as it
      was. */
  lemma LoadOutcome(files: map<string, Record>, chatId: Option<string>, dayOf: int -> int, today: int)
    ensures LoadResult(files, chatId, dayOf, today).Some? ==> FilesAfterLoad(files, chatId, dayOf, today) == files
    ensures LoadResult(files, chatId, dayOf, today).None? ==>
      && StoreKey(chatId) !in FilesAfterLoad(files, chatId, dayOf, today)
      && (forall k :: k != StoreKey(chatId) ==> (k in FilesAfterLoad(files, chatId, dayOf, today) <==> k in files))
      && (forall k :: k != StoreKey(chatId) && k in files ==> FilesAfterLoad(files, chatId, dayOf, today)[k] == files[k])
  {
  }

  /** Loading what was just saved gives it back, unless its date is already
      of an earlier day. */
  lemma SaveThenLoad(files: map<string, Record>, record: Record, chatId: Option<string>, dayOf: int -> int, today: int)
    ensures var saved := files[StoreKey(chatId) := record];
      && (!Expired(record, dayOf, today) ==> LoadResult(saved, chatId, dayOf, today) == Some(record))
      && (Expired(record, dayOf, today) ==>
            LoadResult(saved, chatId, dayOf, today) == None
            && FilesAfterLoad(saved, chatId, dayOf, today) == files - {StoreKey(chatId)})
  {
    var saved := files[StoreKey(chatId) := record];
    if Expired(record, dayOf, today) {
      assert saved - {StoreKey(chatId)} == files - {StoreKey(chatId)};
    }
  }

  /** A record without a date, or with date 0, never goes out of date. */
  lemma UndatedNeverExpires(record: Record, dayOf: int -> int, today: int)
    requires record.date.None? || record.date.value == 0
    ensures !Expired(record, dayOf, today)
  {
  }

  /** A load finds nothing after a delete, and a second delete changes
      nothing. */
  lemma DeleteThenLoad(files: map<string, Record>, chatId: Option<string>, dayOf: int -> int, today: int)
    ensures LoadResult(files - {StoreKey(chatId)}, chatId, dayOf, today) == None
    ensures (files - {StoreKey(chatId)}) - {StoreKey(chatId)} == files - {StoreKey(chatId)}
  {
  }

  /** Saving, deleting or loading for one chat leaves the file of every other
      chat, and of the global key when a chat is given, untouched. */
  lemma OtherChatsUntouched(files: map<string, Record>, record: Record, a: Option<string>, b: Option<string>,
                            dayOf: int -> int, today: int)
    requires TruthyString(a) != TruthyString(b) || (TruthyString(a) && TruthyString(b) && a != b)
    ensures var kb := StoreKey(b);
      && (kb in files[StoreKey(a) := record] <==> kb in files)
      && (kb in files ==> files[StoreKey(a) := record][kb] == files[kb])
      && (kb in files - {StoreKey(a)} <==> kb in files)
      && (kb in FilesAfterLoad(files, a, dayOf, today) <==> kb in files)
  {
    if TruthyString(a) && TruthyString(b) {
      StoreKeyInjective(a, b);
    }
  }

  // ---------------------------------------------------------------------------
  // capitalize

  /** The argument of `capitalize`: a string, or any other JavaScript value. */
  datatype JsValue = JsString(s: string) | NotString

  /** `s.toLowerCase()` with the case mapping `lower` of one character. */
  function LowerAll(s: string, lower: char -> char): (r: string)
    ensures |r| == |s|
    ensures forall k :: 0 <= k < |s| ==> r[k] == lower(s[k])
  {
    if |s| == 0 then "" else [lower(s[0])] + LowerAll(s[1..], lower)
  }

  /** `capitalize(str)`: "" for a non-string; for a string, its first
      character upper-cased and the rest lower-cased. Indexing an empty
      string gives `undefined`, whose `toUpperCase` throws. */
  function Capitalize(v: JsValue, upper: char -> char, lower: char -> char): (r: Result<string>)
    ensures v.NotString? ==> r == Success("")
    ensures v.JsString? && v.s == "" ==> r.Failure?
    ensures v.JsString? && v.s != "" ==>
      && r.Success? && |r.value| == |v.s|
      && r.value[0] == upper(v.s[0])
      && forall k :: 1 <= k < |v.s| ==> r.value[k] == lower(v.s[k])
  {
    match v
    case NotString => Success("")
    case JsString(s) =>
      if s == "" then Failure("TypeError: Cannot read properties of undefined (reading 'toUpperCase')")
      else Success([upper(s[0])] + LowerAll(s[1..], lower))
  }

  /** Capitalizing twice is capitalizing once when both case mappings are
      idempotent. */
  lemma CapitalizeIdempotent(s: string, upper: char -> char, lower: char -> char)
    requires s != ""
    requires forall c :: upper(upper(c)) == upper(c)
    requires forall c :: lower(lower(c)) == lower(c)
    ensures Capitalize(JsString(Capitalize(JsString(s), upper, lower).value), upper, lower)
         == Capitalize(JsString(s), upper, lower)
  {
    var once := Capitalize(JsString(s), upper, lower).value;
    assert once != "" && once[0] == upper(s[0]);
    var twice := Capitalize(JsString(once), upper, lower).value;
    assert |twice| == |once|;
    forall k | 0 <= k < |once| ensures twice[k] == once[k] {
      if k == 0 {
        assert twice[0] == upper(once[0]) == upper(upper(s[0]));
      } else {
        assert twice[k] == lower(once[k]) == lower(lower(s[k]));
      }
    }
    assert twice == once;
  }
}
