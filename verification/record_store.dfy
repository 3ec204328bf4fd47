/**
 The append-only record store of the third router version (`JsonSaveTool`): a single file
 holding a JSON array. Each run reads the whole array, appends one element and rewrites
 the file. The file is abstract state; encoding, indentation and the file name are not
 modelled.
 */
module RecordStore {
  import opened Options
  import opened JsonValues

  /**
   What opening and decoding the file finds: no file, a read error other than a missing
   file (permissions, invalid UTF-8), text that is not JSON (an empty file included), or
   a JSON value.
   */
  datatype StoredFile = Missing | Unreadable | Malformed | Holds(content: Json)

  /** `_load_existing_data()`: a JSON value, or an exception that propagates to `_run`. */
  datatype Loaded = Loaded(value: Json) | ReadFailed

  /** Whether opening the file for writing succeeds; a failure after the file is opened is not modelled. */
  datatype WriteOutcome = Written | OpenFailed

  /** The `tool_input` argument: a string to be decoded, or an already structured value. */
  datatype ToolInput = TextInput(text: string) | ValueInput(value: Json)

  /** Why a run did not save. */
  datatype Cause = ReadError | NotAList | WriteError

  /** The string `_run` returns: the success message, or an error message. */
  datatype Report = Saved | SaveFailed(cause: Cause)

  datatype RunResult = RunResult(file: StoredFile, report: Report)

  const SavedMessage: string := "Данные успешно сохранены в requests.json"
  const ErrorPrefix: string := "Ошибка при сохранении данных: "

  /** A missing or undecodable file loads as the empty list; any other read error is raised. */
  function LoadExisting(file: StoredFile): (r: Loaded)
    ensures (file.Missing? || file.Malformed?) ==> r == Loaded(JArray([]))
    ensures r.ReadFailed? <==> file.Unreadable?
    ensures file.Holds? ==> r == Loaded(file.content)
  {
    match file
    case Missing => Loaded(JArray([]))
    case Malformed => Loaded(JArray([]))
    case Unreadable => ReadFailed
    case Holds(content) => Loaded(content)
  }

  /** The list a run appends to, when the file loads as a list (only a list has `append`). */
  function ExistingList(file: StoredFile): (r: Option<seq<Json>>)
    ensures r.Some? <==> LoadExisting(file).Loaded? && LoadExisting(file).value.JArray?
    ensures r.Some? ==> LoadExisting(file) == Loaded(JArray(r.value))
  {
    match LoadExisting(file)
    case Loaded(JArray(items)) => Some(items)
    case _ => None
  }

  /** `_save_data(data)`: the file afterwards holds exactly `data`, unless opening it fails. */
  function SaveData(data: seq<Json>, write: WriteOutcome): (r: Option<StoredFile>)
    ensures r.Some? <==> write.Written?
    ensures r.Some? ==> ExistingList(r.value) == Some(data)
  {
    match write
    case Written => Some(Holds(JArray(data)))
    case OpenFailed => None
  }

  /**
   The element `_run` appends: a structured input as it is; a string decoded as JSON,
   and when it does not decode, the keyword arguments instead.
   */
  function RequestData(input: ToolInput, kwargs: map<string, Json>, decode: string -> Decoded): (j: Json)
    ensures input.ValueInput? ==> j == input.value
    ensures input.TextInput? && decode(input.text).Parsed? ==> j == decode(input.text).value
    ensures input.TextInput? && decode(input.text).NotJson? ==> j == JObject(kwargs)
  {
    match input
    case ValueInput(value) => value
    case TextInput(text) =>
      match decode(text)
      case Parsed(value) => value
      case NotJson => JObject(kwargs)
  }

  /**
   `_run`: load, append one element, save. It never raises: every failure is reported,
   and on a failure the file is left as it was.
   */
  function Run(file: StoredFile, input: ToolInput, kwargs: map<string, Json>,
               decode: string -> Decoded, write: WriteOutcome): (r: RunResult)
    ensures r.report.Saved? <==> ExistingList(file).Some? && write.Written?
    ensures r.report.Saved? ==>
      ExistingList(r.file) == Some(ExistingList(file).value + [RequestData(input, kwargs, decode)])
    ensures !r.report.Saved? ==> r.file == file
    ensures r.report == SaveFailed(ReadError) <==> file.Unreadable?
    ensures r.report == SaveFailed(NotAList) <==> file.Holds? && !file.content.JArray?
  {
    match LoadExisting(file)
    case ReadFailed => RunResult(file, SaveFailed(ReadError))
    case Loaded(existing) =>
      var item := RequestData(input, kwargs, decode);
      if !existing.JArray? then RunResult(file, SaveFailed(NotAList))
      else
        match SaveData(existing.items + [item], write)
        case Some(saved) => RunResult(saved, Saved)
        case None => RunResult(file, SaveFailed(WriteError))
  }

  /**
   The string `_run` returns for a report; `detail` stands for `str(e)` of the exception,
   whose wording is Python's.
   */
  function Message(report: Report, detail: string): (m: string)
    ensures report.Saved? ==> m == SavedMessage
    ensures report.SaveFailed? ==> |m| >= |ErrorPrefix| && m[..|ErrorPrefix|] == ErrorPrefix
    ensures report.SaveFailed? ==> m[|ErrorPrefix|..] == detail
  {
    match report
    case Saved => SavedMessage
    case SaveFailed(_) => ErrorPrefix + detail
  }

  /**
   A successful run keeps every earlier element in place and in order and adds exactly
   one element, at the end.
   */
  lemma AppendKeepsEarlierElements(file: StoredFile, input: ToolInput, kwargs: map<string, Json>,
                                   decode: string -> Decoded, write: WriteOutcome)
    requires Run(file, input, kwargs, decode, write).report.Saved?
    ensures var before := ExistingList(file).value;
      var after := ExistingList(Run(file, input, kwargs, decode, write).file).value;
      && |after| == |before| + 1
      && after[..|before|] == before
      && after[|before|] == RequestData(input, kwargs, decode)
  {
  }

  /** Appending to an undecodable file discards its content and leaves a one-element list. */
  lemma MalformedBecomesSingleton(input: ToolInput, kwargs: map<string, Json>, decode: string -> Decoded)
    ensures var r := Run(Malformed, input, kwargs, decode, Written);
      r.report.Saved? && ExistingList(r.file) == Some([RequestData(input, kwargs, decode)])
  {
    assert [] + [RequestData(input, kwargs, decode)] == [RequestData(input, kwargs, decode)];
  }

  /** Successive saved runs, in order: the store only ever grows at its end. */
  function RunAll(file: StoredFile, items: seq<Json>, decode: string -> Decoded): (r: StoredFile)
    requires ExistingList(file).Some?
    decreases |items|
  {
    if items == [] then file
    else RunAll(Run(file, ValueInput(items[0]), map[], decode, Written).file, items[1..], decode)
  }

  /**
   Starting from a store that loads as a list, a series of saved runs leaves exactly the
   old elements followed by the new ones in call order.
   */
  lemma {:induction false} RunAllAppends(file: StoredFile, items: seq<Json>, decode: string -> Decoded)
    requires ExistingList(file).Some?
    ensures ExistingList(RunAll(file, items, decode)) == Some(ExistingList(file).value + items)
    decreases |items|
  {
    if items == [] {
      assert ExistingList(file).value + items == ExistingList(file).value;
    } else {
      var next := Run(file, ValueInput(items[0]), map[], decode, Written).file;
      assert ExistingList(next) == Some(ExistingList(file).value + [items[0]]);
      RunAllAppends(next, items[1..], decode);
      assert ExistingList(file).value + [items[0]] + items[1..] == ExistingList(file).value + items;
    }
  }
}
