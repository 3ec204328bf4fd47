/**
 The third router version: classification as in the structured router, then the record
 is stored through the record store's `_run` on the success path and on the fallback
 path alike. `_run` never raises, so each call stores at most one record, and exactly one
 whenever the store can be appended to; a store failure is swallowed and the record is
 returned all the same.
 */
module PersistingRouter {
  import opened Options
  import opened JsonValues
  import opened Oracle
  import opened CitizenRequests
  import StructuredRouter
  import opened RecordStore

  datatype Classified = Classified(record: CitizenRequest, file: StoredFile)

  /** `classify_request`: interpret the reply, then `_run(result.model_dump())`, ignoring its report. */
  function ClassifyRequest(request: string, oracle: PromptArgs -> Reply, decode: string -> Decoded,
                           now: string, file: StoredFile, write: WriteOutcome): (c: Classified)
    ensures c.record.requestDate == now
    ensures c.record == StructuredRouter.ClassifyRequest(request, oracle, decode, now)
    ensures ExistingList(file).Some? && write.Written? ==>
      ExistingList(c.file) == Some(ExistingList(file).value + [Dump(c.record)])
    ensures !(ExistingList(file).Some? && write.Written?) ==> c.file == file
  {
    var record := StructuredRouter.Interpret(oracle(PromptFor(Structured, request)), decode, now);
    var stored := Run(file, ValueInput(Dump(record)), map[], decode, write);
    Classified(record, stored.file)
  }

  /**
   What the store holds after a call reads back as the returned record: the last element
   of the reloaded list validates to exactly that record, and all earlier ones are
   unchanged. This holds on the fallback path too.
   */
  lemma StoredRecordReadsBack(request: string, oracle: PromptArgs -> Reply, decode: string -> Decoded,
                              now: string, file: StoredFile)
    requires ExistingList(file).Some?
    ensures var c := ClassifyRequest(request, oracle, decode, now, file, Written);
      var before := ExistingList(file).value;
      var after := ExistingList(c.file).value;
      && |after| == |before| + 1
      && after[..|before|] == before
      && Load(after[|before|]) == Some(c.record)
  {
  }

  /** An oracle failure still leaves a trace: the fallback record is stored and returned. */
  lemma OracleFailureStoresFallback(request: string, oracle: PromptArgs -> Reply, decode: string -> Decoded,
                                    now: string, file: StoredFile)
    requires oracle(PromptFor(Structured, request)).Failure?
    requires ExistingList(file).Some?
    ensures var c := ClassifyRequest(request, oracle, decode, now, file, Written);
      && c.record == Fallback(now)
      && ExistingList(c.file) == Some(ExistingList(file).value + [Dump(Fallback(now))])
  {
  }

  /** A store that cannot be appended to does not stop classification: the record is returned. */
  lemma StoreFailureSwallowed(request: string, oracle: PromptArgs -> Reply, decode: string -> Decoded,
                              now: string, content: Json)
    requires !content.JArray?
    ensures var c := ClassifyRequest(request, oracle, decode, now, Holds(content), Written);
      && c.record == StructuredRouter.ClassifyRequest(request, oracle, decode, now)
      && c.file == Holds(content)
  {
  }
}
