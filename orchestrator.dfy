/**
 * The control skeleton of the job runner (`main` in index.js): the
 * validation gate, the strict-mode relaxation, the storage dispatch, the
 * teardown of the upload stream on failure, and the summary with its
 * optional log file. The stages it waits on (the storage connector, the
 * upload's completion, the log write) are inputs.
 */
module Orchestrator {
  import opened Js
  import opened Config

  /** What the runner does to the world, in order. */
  datatype Effect =
    | CreateUploadStream
    | CallStorage(kind: string)
    | DestroyUploadStream
    | WriteLogFile
    | ExitProcess

  /** How a run ends: the process exits on an invalid configuration, an error propagates, or the summary is returned. */
  datatype RunEnd =
    | ExitedInvalid(reason: Error)
    | Threw(error: Error)
    | Finished(summary: map<string, JsValue>)

  /**
   * The outcomes of the stages the runner awaits: the storage connector
   * (with the metadata it stores on success), the upload-complete event
   * (None when it arrives), the destination metadata the upload stage
   * stores by the time it completes, the log-file write, and the stage
   * timings.
   */
  datatype StageInputs = StageInputs(
    storageStage: Result<map<string, JsValue>, Error>,
    uploadWait: Option<Error>,
    uploadMeta: map<string, JsValue>,
    logWrite: Option<Error>,
    timing: JsValue)

  /** The condition under which strict imports are turned off: an event job, strict requested, no insert-id column. */
  predicate RelaxesStrict(recordType: string, options: map<string, JsValue>, mappings: JsValue) {
    && recordType == "event"
    && Truthy(Prop(options, "strict"))
    && GetProp(mappings, "insert_id_col").Some?
    && !Truthy(GetProp(mappings, "insert_id_col").value)
  }

  /**
   * The strict-mode adjustment: when it fires, strict becomes false and the
   * insert-id column is deleted from the mappings; otherwise nothing changes.
   * Reading the insert-id column of missing mappings throws, but only once
   * the first two conditions held.
   */
  function StrictRelaxation(recordType: string, options: map<string, JsValue>, mappings: JsValue)
    : (r: Result<(map<string, JsValue>, JsValue), Error>)
    ensures r.Err? <==>
      recordType == "event" && Truthy(Prop(options, "strict")) && (mappings.Undefined? || mappings.Null?)
    ensures r.Err? ==> r.error == TypeError
    ensures r.Ok? && RelaxesStrict(recordType, options, mappings) ==>
      r.value.0 == options["strict" := Bool(false)] && r.value.1 == DeleteProp(mappings, "insert_id_col")
    ensures r.Ok? && !RelaxesStrict(recordType, options, mappings) ==> r.value == (options, mappings)
  {
    if recordType == "event" && Truthy(Prop(options, "strict")) then
      match GetProp(mappings, "insert_id_col")
      case None => Err(TypeError)
      case Some(insertId) =>
        if !Truthy(insertId) then Ok((options["strict" := Bool(false)], DeleteProp(mappings, "insert_id_col")))
        else Ok((options, mappings))
    else
      Ok((options, mappings))
  }

  /** After the adjustment, an event job runs strict only with an insert-id column mapped. */
  lemma StrictNeedsInsertId(recordType: string, options: map<string, JsValue>, mappings: JsValue)
    requires recordType == "event"
    requires StrictRelaxation(recordType, options, mappings).Ok?
    ensures var (o, m) := StrictRelaxation(recordType, options, mappings).value;
      Truthy(Prop(o, "strict")) ==> GetProp(m, "insert_id_col").Some? && Truthy(GetProp(m, "insert_id_col").value)
  {
  }

  /** The adjustment is idempotent: a second pass changes nothing. */
  lemma StrictRelaxationIdempotent(recordType: string, options: map<string, JsValue>, mappings: JsValue)
    requires StrictRelaxation(recordType, options, mappings).Ok?
    ensures var (o, m) := StrictRelaxation(recordType, options, mappings).value;
      StrictRelaxation(recordType, o, m) == Ok((o, m))
  {
    var (o, m) := StrictRelaxation(recordType, options, mappings).value;
    if RelaxesStrict(recordType, options, mappings) {
      assert Prop(o, "strict") == Bool(false);
    }
  }

  /** A fresh event job with default options and no insert-id column has strict mode turned off. */
  lemma DefaultEventJobRelaxes(given: map<string, JsValue>, logFile: string, mappings: map<string, JsValue>)
    requires "strict" !in given
    requires "insert_id_col" !in mappings
    ensures var options := ObjDefault(given, DefaultImportOptions(logFile));
      RelaxesStrict("event", options, Obj(mappings))
      && StrictRelaxation("event", options, Obj(mappings)) == Ok((options["strict" := Bool(false)], Obj(mappings)))
  {
    assert Obj(mappings).fields - {"insert_id_col"} == mappings;
  }

  /** The configuration passed validation and the strict-mode adjustment did not throw. */
  predicate Admitted(mixpanel: map<string, JsValue>, options: map<string, JsValue>, mappings: JsValue) {
    && Validate(mixpanel).Ok?
    && RecordType(mixpanel).Some?
    && StrictRelaxation(RecordType(mixpanel).value, options, mappings).Ok?
  }

  /**
   * `main`, from the config's construction on. The type getter is read
   * before the validation gate; an invalid configuration exits the process
   * before any stream exists; only 'gcs' storage is dispatched; a storage
   * failure tears the upload stream down before it is rethrown; on success
   * the summary is returned, whether or not the log file could be written.
   */
  method Run(config: StorageConfig, stages: StageInputs) returns (end: RunEnd, trace: seq<Effect>)
    modifies config`options, config`mappings, config`cloudStore, config`mpStore
    ensures !end.Finished? ==> config.mpStore == old(config.mpStore)
    ensures RecordType(old(config.mixpanel)).None? ==> end == Threw(TypeError) && trace == []
    ensures RecordType(old(config.mixpanel)).Some? && Validate(old(config.mixpanel)).Err? ==>
      end == ExitedInvalid(Validate(old(config.mixpanel)).error) && trace == [ExitProcess]
    ensures !Admitted(old(config.mixpanel), old(config.options), old(config.mappings)) ==>
      !end.Finished? && config.cloudStore == old(config.cloudStore) && CreateUploadStream !in trace
      && config.options == old(config.options) && config.mappings == old(config.mappings)
    ensures (Validate(old(config.mixpanel)).Ok? &&
             !Admitted(old(config.mixpanel), old(config.options), old(config.mappings))) ==>
      end == Threw(TypeError) && trace == []
    ensures Admitted(old(config.mixpanel), old(config.options), old(config.mappings)) ==>
      var adjusted := StrictRelaxation(RecordType(old(config.mixpanel)).value, old(config.options), old(config.mappings));
      config.options == adjusted.value.0 && config.mappings == adjusted.value.1
    ensures Admitted(old(config.mixpanel), old(config.options), old(config.mappings)) && config.storage != "gcs" ==>
      end == Threw(MessageWithCause("unsupported storage", config.storage))
      && config.cloudStore == old(config.cloudStore)
      && trace == [CreateUploadStream, DestroyUploadStream, DestroyUploadStream]
    ensures (Admitted(old(config.mixpanel), old(config.options), old(config.mappings))
             && config.storage == "gcs" && stages.storageStage.Err?) ==>
      config.cloudStore == old(config.cloudStore)
      && end == Threw(stages.storageStage.error)
      && trace == [CreateUploadStream, CallStorage("gcs"), DestroyUploadStream]
    ensures (Admitted(old(config.mixpanel), old(config.options), old(config.mappings))
             && config.storage == "gcs" && stages.storageStage.Ok? && stages.uploadWait.Some?) ==>
      config.cloudStore == ObjDefault(old(config.cloudStore), stages.storageStage.value)
      && end == Threw(stages.uploadWait.value) && trace == [CreateUploadStream, CallStorage("gcs")]
    ensures (Admitted(old(config.mixpanel), old(config.options), old(config.mappings))
             && config.storage == "gcs" && stages.storageStage.Ok? && stages.uploadWait.None?) ==>
      config.cloudStore == ObjDefault(old(config.cloudStore), stages.storageStage.value)
      && config.mpStore == ObjDefault(old(config.mpStore), stages.uploadMeta)
      && end == Finished(Summary(config.storage, config.mpStore, config.cloudStore, stages.timing))
      && trace == [CreateUploadStream, CallStorage("gcs"), DestroyUploadStream]
                  + (if Truthy(Prop(config.options, "logFile")) then [WriteLogFile] else [])
    ensures end.Finished? <==>
      Admitted(old(config.mixpanel), old(config.options), old(config.mappings))
      && config.storage == "gcs" && stages.storageStage.Ok? && stages.uploadWait.None?
  {
    trace := [];
    var recordType := RecordType(config.mixpanel);
    if recordType.None? {
      return Threw(TypeError), trace;
    }
    var valid := Validate(config.mixpanel);
    if valid.Err? {
      return ExitedInvalid(valid.error), [ExitProcess];
    }
    var adjusted := StrictRelaxation(recordType.value, config.options, config.mappings);
    if adjusted.Err? {
      return Threw(adjusted.error), trace;
    }
    config.options, config.mappings := adjusted.value.0, adjusted.value.1;

    trace := trace + [CreateUploadStream];
    if config.storage == "gcs" {
      trace := trace + [CallStorage("gcs")];
      if stages.storageStage.Err? {
        trace := trace + [DestroyUploadStream];
        return Threw(stages.storageStage.error), trace;
      }
      config.Store(stages.storageStage.value, None);
    } else {
      // the default branch destroys the stream and throws; the catch destroys it again
      trace := trace + [DestroyUploadStream, DestroyUploadStream];
      return Threw(MessageWithCause("unsupported storage", config.storage)), trace;
    }

    if stages.uploadWait.Some? {
      return Threw(stages.uploadWait.value), trace;
    }
    // the upload stage has filled the destination metadata by the time it completes
    config.Store(stages.uploadMeta, Some("mp"));
    trace := trace + [DestroyUploadStream];

    var result := Summary(config.storage, config.mpStore, config.cloudStore, stages.timing);
    if Truthy(Prop(config.options, "logFile")) {
      // a failed write (stages.logWrite) is swallowed
      trace := trace + [WriteLogFile];
    }
    end := Finished(result);
  }
}
