/**
 * The job configuration of components/config.js: the object the constructor
 * fills with defaults, its byte counters and metadata stores (updated in
 * place), the record-type getter, the ordered validation rules, the records
 * it builds for the analytics client and the storage connector, and the
 * label padding of its progress display.
 */
module Config {
  import opened Js
  import opened Text

  /** The job parameters handed to the constructor; an absent key is None. */
  datatype JobSpec = JobSpec(
    storage: Option<string>,
    format: Option<string>,
    path: Option<string>,
    auth: Option<map<string, JsValue>>,
    mappings: JsValue,
    options: Option<map<string, JsValue>>,
    mixpanel: Option<map<string, JsValue>>,
    tags: Option<map<string, JsValue>>)

  /** The import options every job starts from; the log-file name comes from the clock. */
  function DefaultImportOptions(logFile: string): map<string, JsValue> {
    map[
      "logFile" := Str(logFile),
      "strict" := Bool(true),
      "compress" := Bool(true),
      "verbose" := Bool(true),
      "workers" := Num(10),
      "abridged" := Bool(true)]
  }

  const DefaultMixpanel: map<string, JsValue> := map["region" := Str("US"), "type" := Str("event")]

  /** `v?.toLowerCase() || fallback` for an optional string. */
  function LowerOr(v: Option<string>, fallback: string): (r: string)
    ensures v.None? || v.value == "" ==> r == fallback
    ensures v.Some? && v.value != "" ==> r == ToLower(v.value) && |r| == |v.value|
  {
    match v
    case None => fallback
    case Some(s) => if ToLower(s) == "" then fallback else ToLower(s)
  }

  /** `v || {}` for an optional object. */
  function OrEmpty(v: Option<map<string, JsValue>>): map<string, JsValue> {
    if v.Some? then v.value else map[]
  }

  class StorageConfig {
    var storage: string
    var format: string
    var path: string
    var auth: map<string, JsValue>
    var mappings: JsValue
    var options: map<string, JsValue>
    var mixpanel: map<string, JsValue>
    var tags: map<string, JsValue>
    var inBytes: int
    var outBytes: int
    var cloudStore: map<string, JsValue>
    var mpStore: map<string, JsValue>

    /**
     * Lower-cases storage and format (format defaulting to 'ndjson'), fills
     * the missing option and destination keys from the defaults while
     * keeping the caller's, and starts the counters and stores empty.
     */
    constructor (spec: JobSpec, defaultLogFile: string)
      ensures storage == LowerOr(spec.storage, "")
      ensures format == LowerOr(spec.format, "ndjson")
      ensures path == (if spec.path.Some? then spec.path.value else "")
      ensures auth == OrEmpty(spec.auth)
      ensures mappings == spec.mappings
      ensures options == ObjDefault(OrEmpty(spec.options), DefaultImportOptions(defaultLogFile))
      ensures mixpanel == ObjDefault(OrEmpty(spec.mixpanel), DefaultMixpanel)
      ensures tags == OrEmpty(spec.tags)
      ensures inBytes == 0 && outBytes == 0
      ensures cloudStore == map[] && mpStore == map[]
    {
      storage := LowerOr(spec.storage, "");
      format := LowerOr(spec.format, "ndjson");
      path := if spec.path.Some? then spec.path.value else "";
      auth := OrEmpty(spec.auth);
      mappings := spec.mappings;
      options := ObjDefault(OrEmpty(spec.options), DefaultImportOptions(defaultLogFile));
      mixpanel := ObjDefault(OrEmpty(spec.mixpanel), DefaultMixpanel);
      tags := OrEmpty(spec.tags);
      inBytes, outBytes := 0, 0;
      cloudStore, mpStore := map[], map[];
    }

    /** `got(num = 1)`: counts bytes read from storage. */
    method Got(num: Option<int>)
      modifies this`inBytes
      ensures num.None? ==> inBytes == old(inBytes) + 1
      ensures num.Some? ==> inBytes == old(inBytes) + num.value
    {
      var n := if num.Some? then num.value else 1;
      inBytes := inBytes + n;
    }

    /** `sent(num)`: counts bytes sent on; a missing or zero count adds one. */
    method Sent(num: Option<int>)
      modifies this`outBytes
      ensures num.None? || num.value == 0 ==> outBytes == old(outBytes) + 1
      ensures num.Some? && num.value != 0 ==> outBytes == old(outBytes) + num.value
    {
      var n := if num.Some? && num.value != 0 then num.value else 1;
      outBytes := outBytes + n;
    }

    /**
     * `store(data, where = 'storage')`: 'storage' fills the storage metadata,
     * 'mp' the destination metadata, from `data`; keys a store already has
     * are kept, and any other `where` changes nothing.
     */
    method Store(data: map<string, JsValue>, where: Option<string>)
      modifies this`cloudStore, this`mpStore
      ensures StoreTarget(where) == "storage" ==>
        cloudStore == ObjDefault(old(cloudStore), data) && mpStore == old(mpStore)
      ensures StoreTarget(where) == "mp" ==>
        mpStore == ObjDefault(old(mpStore), data) && cloudStore == old(cloudStore)
      ensures StoreTarget(where) !in {"storage", "mp"} ==>
        cloudStore == old(cloudStore) && mpStore == old(mpStore)
    {
      var target := StoreTarget(where);
      if target == "storage" {
        cloudStore := ObjDefault(cloudStore, data);
      } else if target == "mp" {
        mpStore := ObjDefault(mpStore, data);
      }
    }
  }

  /** The `where` argument of `store` after its default. */
  function StoreTarget(where: Option<string>): string {
    if where.None? then "storage" else where.value
  }

  /** The `type` getter: the destination record type, lower-cased; None where the getter throws. */
  function RecordType(mixpanel: map<string, JsValue>): (r: Option<string>)
    ensures r.Some? <==> Prop(mixpanel, "type").Str?
    ensures r.Some? ==> |r.value| == |Prop(mixpanel, "type").s|
    ensures r.Some? ==> forall i :: 0 <= i < |r.value| ==> !IsUpper(r.value[i])
    ensures r.Some? ==> r.value == ToLower(Prop(mixpanel, "type").s)
  {
    match Prop(mixpanel, "type")
    case Str(s) => Some(ToLower(s))
    case _ => None
  }

  /** A validation rule: record types it applies to, whether it is met, and what is thrown when not. */
  datatype Rule = Rule(types: set<string>, met: bool, message: string)

  predicate Broken(rule: Rule, recordType: string) {
    recordType in rule.types && !rule.met
  }

  /** The validation rules, in the order they are checked. */
  function Rules(mixpanel: map<string, JsValue>): seq<Rule> {
    [ Rule({"table"}, Truthy(Prop(mixpanel, "lookupTableId")), "missing lookup table id"),
      Rule({"user", "group"}, Truthy(Prop(mixpanel, "token")), "missing project token"),
      Rule({"group"}, Truthy(Prop(mixpanel, "groupKey")), "missing group key"),
      Rule({"event", "table"},
           Truthy(Prop(mixpanel, "api_secret")) || Truthy(Prop(mixpanel, "service_account")),
           "missing API secret or service account") ]
  }

  /** Fail-fast checking: the message of the first broken rule, or true. */
  function FirstBroken(rules: seq<Rule>, recordType: string): (r: Result<bool, Error>)
    ensures r.Ok? <==> forall i :: 0 <= i < |rules| ==> !Broken(rules[i], recordType)
    ensures r.Ok? ==> r == Ok(true)
    decreases |rules|
  {
    if rules == [] then Ok(true)
    else if Broken(rules[0], recordType) then Err(Message(rules[0].message))
    else FirstBroken(rules[1..], recordType)
  }

  /** Fail-fast checking throws the message of the earliest broken rule, and succeeds only when none is broken. */
  lemma {:induction false} FirstBrokenIsEarliest(rules: seq<Rule>, recordType: string)
    ensures FirstBroken(rules, recordType).Ok? <==>
      forall i :: 0 <= i < |rules| ==> !Broken(rules[i], recordType)
    ensures FirstBroken(rules, recordType).Err? ==>
      exists i :: 0 <= i < |rules| && Broken(rules[i], recordType)
        && FirstBroken(rules, recordType).error == Message(rules[i].message)
        && forall j :: 0 <= j < i ==> !Broken(rules[j], recordType)
    decreases |rules|
  {
    if rules != [] && !Broken(rules[0], recordType) {
      FirstBrokenIsEarliest(rules[1..], recordType);
      var r := FirstBroken(rules, recordType);
      if r.Err? {
        var i :| 0 <= i < |rules| - 1 && Broken(rules[1..][i], recordType)
          && r.error == Message(rules[1..][i].message)
          && forall j :: 0 <= j < i ==> !Broken(rules[1..][j], recordType);
        assert Broken(rules[i + 1], recordType);
        assert forall j :: 0 <= j < i + 1 ==> !Broken(rules[j], recordType) by {
          forall j | 0 <= j < i + 1 ensures !Broken(rules[j], recordType) {
            if j > 0 { assert rules[j] == rules[1..][j - 1]; }
          }
        }
      } else {
        forall i | 0 <= i < |rules| ensures !Broken(rules[i], recordType) {
          if i > 0 { assert rules[i] == rules[1..][i - 1]; }
        }
      }
    }
  }

  /**
   * `validate()`: the record type is read first (throwing when it is not a
   * string), then the rules are checked in order and the first broken one's
   * message is thrown; otherwise the result is true.
   */
  function Validate(mixpanel: map<string, JsValue>): (r: Result<bool, Error>)
    ensures RecordType(mixpanel).None? ==> r == Err(TypeError)
    ensures r.Err? ==> r.error == TypeError || r.error.Message?
    ensures r.Ok? ==> r == Ok(true)
  {
    match RecordType(mixpanel)
    case None => Err(TypeError)
    case Some(t) =>
      if t == "table" && !Truthy(Prop(mixpanel, "lookupTableId")) then
        Err(Message("missing lookup table id"))
      else if t == "user" && !Truthy(Prop(mixpanel, "token")) then
        Err(Message("missing project token"))
      else if t == "group" && !Truthy(Prop(mixpanel, "token")) then
        Err(Message("missing project token"))
      else if t == "group" && !Truthy(Prop(mixpanel, "groupKey")) then
        Err(Message("missing group key"))
      else if (t == "event" || t == "table")
              && (!Truthy(Prop(mixpanel, "api_secret")) && !Truthy(Prop(mixpanel, "service_account"))) then
        Err(Message("missing API secret or service account"))
      else
        Ok(true)
  }

  /** The if-chain of `validate` agrees with checking the rule list in order. */
  lemma ValidateFollowsRules(mixpanel: map<string, JsValue>)
    requires RecordType(mixpanel).Some?
    ensures Validate(mixpanel) == FirstBroken(Rules(mixpanel), RecordType(mixpanel).value)
  {
    var t := RecordType(mixpanel).value;
    var rs := Rules(mixpanel);
    assert rs[1..][1..][1..][1..] == [];
    assert FirstBroken(rs[1..][1..][1..], t)
      == if Broken(rs[3], t) then Err(Message(rs[3].message)) else Ok(true);
    assert FirstBroken(rs[1..][1..], t)
      == if Broken(rs[2], t) then Err(Message(rs[2].message)) else FirstBroken(rs[1..][1..][1..], t);
    assert FirstBroken(rs[1..], t)
      == if Broken(rs[1], t) then Err(Message(rs[1].message)) else FirstBroken(rs[1..][1..], t);
  }

  /** Validation passes exactly when the type is a string and no rule for it is broken. */
  lemma ValidateAcceptsIff(mixpanel: map<string, JsValue>)
    ensures Validate(mixpanel) == Ok(true) <==>
      RecordType(mixpanel).Some? &&
      forall i :: 0 <= i < |Rules(mixpanel)| ==> !Broken(Rules(mixpanel)[i], RecordType(mixpanel).value)
  {
    if RecordType(mixpanel).Some? {
      ValidateFollowsRules(mixpanel);
      FirstBrokenIsEarliest(Rules(mixpanel), RecordType(mixpanel).value);
    }
  }

  /** Lower-casing, letter by letter, of a known upper-case string. */
  lemma LowersTo(s: string, lower: string)
    requires |s| == |lower|
    requires forall i :: 0 <= i < |s| ==> LowerChar(s[i]) == lower[i]
    ensures ToLower(s) == lower
  {
  }

  /** A lookup-table job without a table id fails on that, whatever its secrets. */
  lemma TableIdCheckedFirst(mixpanel: map<string, JsValue>)
    requires RecordType(mixpanel) == Some("table")
    requires !Truthy(Prop(mixpanel, "lookupTableId"))
    ensures Validate(mixpanel) == Err(Message("missing lookup table id"))
  {
  }

  /** Profile jobs need a token; a group job with a token also needs a group key. */
  lemma ProfileJobsNeedToken(mixpanel: map<string, JsValue>)
    requires RecordType(mixpanel) == Some("user") || RecordType(mixpanel) == Some("group")
    ensures !Truthy(Prop(mixpanel, "token")) ==> Validate(mixpanel) == Err(Message("missing project token"))
    ensures RecordType(mixpanel) == Some("group") && Truthy(Prop(mixpanel, "token"))
      ==> (Validate(mixpanel) == Err(Message("missing group key")) <==> !Truthy(Prop(mixpanel, "groupKey")))
  {
  }

  /** Event and lookup-table jobs with their id need an API secret or a service account. */
  lemma SecretNeededForEventsAndTables(mixpanel: map<string, JsValue>)
    requires RecordType(mixpanel) == Some("event") ||
      (RecordType(mixpanel) == Some("table") && Truthy(Prop(mixpanel, "lookupTableId")))
    ensures Validate(mixpanel) == Ok(true) <==>
      Truthy(Prop(mixpanel, "api_secret")) || Truthy(Prop(mixpanel, "service_account"))
    ensures Validate(mixpanel) != Ok(true) ==>
      Validate(mixpanel) == Err(Message("missing API secret or service account"))
  {
  }

  /** Record types no rule names (anything but event, user, group, table) always pass. */
  lemma UnknownTypesPass(mixpanel: map<string, JsValue>)
    requires RecordType(mixpanel).Some?
    requires RecordType(mixpanel).value !in {"event", "user", "group", "table"}
    ensures Validate(mixpanel) == Ok(true)
  {
  }

  /** The type is compared lower-cased: 'TABLE' is checked as a lookup-table job. */
  lemma UpperCaseTypeIsLowered()
    ensures Validate(map["type" := Str("TABLE")]) == Err(Message("missing lookup table id"))
  {
    LowersTo("TABLE", "table");
  }

  /** A job with no destination settings is an event job and fails for want of a secret. */
  lemma BareJobNeedsSecret()
    ensures RecordType(ObjDefault(map[], DefaultMixpanel)) == Some("event")
    ensures Validate(ObjDefault(map[], DefaultMixpanel)) == Err(Message("missing API secret or service account"))
  {
    var mp := ObjDefault(map[], DefaultMixpanel);
    assert Prop(mp, "type") == Str("event");
    ToLowerFixesLower("event");
  }

  /** `mpAuth()`: the destination credentials under the client's names. */
  const AuthSources: map<string, string> := map[
    "acct" := "service_account",
    "pass" := "service_secret",
    "project" := "project_id",
    "token" := "token",
    "secret" := "api_secret",
    "lookupTableId" := "lookupTableId",
    "groupKey" := "groupKey"]

  function MpAuth(mixpanel: map<string, JsValue>): (r: map<string, JsValue>)
    ensures r.Keys == AuthSources.Keys
    ensures forall k :: k in AuthSources ==> r[k] == Prop(mixpanel, AuthSources[k])
  {
    map[
      "acct" := Prop(mixpanel, "service_account"),
      "pass" := Prop(mixpanel, "service_secret"),
      "project" := Prop(mixpanel, "project_id"),
      "token" := Prop(mixpanel, "token"),
      "secret" := Prop(mixpanel, "api_secret"),
      "lookupTableId" := Prop(mixpanel, "lookupTableId"),
      "groupKey" := Prop(mixpanel, "groupKey")]
  }

  /** The option keys `mpOpts` copies unchanged from the job options. */
  const CopiedOptions: set<string> := {"compress", "strict", "workers", "abridged"}

  const MpOptsKeys: set<string> := {
    "recordType", "region", "streamFormat", "compress", "strict", "logs",
    "fixData", "verbose", "workers", "forceStream", "recordsPerBatch", "abridged"}

  /**
   * `mpOpts()`: the analytics client's options. Batches hold 200 records
   * exactly when the raw, not lower-cased, type is 'group', else 2000.
   */
  function MpOpts(mixpanel: map<string, JsValue>, options: map<string, JsValue>): (r: map<string, JsValue>)
    ensures r.Keys == MpOptsKeys
    ensures r["recordType"] == Prop(mixpanel, "type") && r["region"] == Prop(mixpanel, "region")
    ensures forall k :: k in CopiedOptions ==> r[k] == Prop(options, k)
    ensures r["streamFormat"] == Str("jsonl") && r["forceStream"] == Bool(true)
    ensures r["logs"] == Bool(false) && r["fixData"] == Bool(false) && r["verbose"] == Bool(false)
    ensures r["recordsPerBatch"] == Num(200) <==> Prop(mixpanel, "type") == Str("group")
    ensures r["recordsPerBatch"] == Num(200) || r["recordsPerBatch"] == Num(2000)
  {
    map[
      "recordType" := Prop(mixpanel, "type"),
      "region" := Prop(mixpanel, "region"),
      "streamFormat" := Str("jsonl"),
      "compress" := Prop(options, "compress"),
      "strict" := Prop(options, "strict"),
      "logs" := Bool(false),
      "fixData" := Bool(false),
      "verbose" := Bool(false),
      "workers" := Prop(options, "workers"),
      "forceStream" := Bool(true),
      "recordsPerBatch" := if Prop(mixpanel, "type") == Str("group") then Num(200) else Num(2000),
      "abridged" := Prop(options, "abridged")]
  }

  /** 'GROUP' is validated as a group job, yet its batches are sized like event batches. */
  lemma UpperCaseGroupBatchesLikeEvents(mixpanel: map<string, JsValue>)
    requires Prop(mixpanel, "type") == Str("GROUP")
    ensures RecordType(mixpanel) == Some("group")
    ensures MpOpts(mixpanel, map[])["recordsPerBatch"] == Num(2000)
  {
    LowersTo("GROUP", "group");
  }

  /** The service-account fields the gcs connector receives from the storage credentials. */
  const GcsCredentialKeys: set<string> := {
    "project_id", "private_key", "client_email", "type", "private_key_id", "client_id",
    "client_x509_cert_url", "auth_uri", "token_uri", "auth_provider_x509_cert_url"}

  /**
   * `storageAuth()`: for 'gcs', the path, the format and the service-account
   * fields (other credential keys are dropped); for any other storage, the
   * path followed by every credential, so a credential named 'path' wins.
   */
  function StorageAuth(storage: string, path: string, format: string, auth: map<string, JsValue>): (r: map<string, JsValue>)
    ensures storage == "gcs" ==> r.Keys == GcsCredentialKeys + {"path", "format"}
    ensures storage == "gcs" ==> r["path"] == Str(path) && r["format"] == Str(format)
    ensures storage == "gcs" ==> forall k :: k in GcsCredentialKeys ==> r[k] == Prop(auth, k)
    ensures storage != "gcs" ==> r.Keys == auth.Keys + {"path"}
    ensures storage != "gcs" ==> forall k :: k in auth ==> r[k] == auth[k]
    ensures storage != "gcs" && "path" !in auth ==> r["path"] == Str(path)
  {
    if storage == "gcs" then
      map["path" := Str(path), "format" := Str(format)]
        + map k | k in GcsCredentialKeys :: Prop(auth, k)
    else
      map["path" := Str(path)] + auth
  }

  /**
   * `summary()`: the destination metadata under 'mixpanel', the storage
   * metadata under the storage's name, and the stage timings under 'time'.
   * Later keys of the literal win, so a storage named 'mixpanel' hides the
   * destination metadata and one named 'time' is hidden by the timings.
   */
  function Summary(storage: string, mpStore: map<string, JsValue>, cloudStore: map<string, JsValue>,
                   timing: JsValue): (r: map<string, JsValue>)
    ensures r.Keys == {"mixpanel", storage, "time"}
    ensures r["time"] == timing
    ensures storage != "time" ==> r[storage] == Obj(cloudStore)
    ensures storage != "mixpanel" ==> r["mixpanel"] == Obj(mpStore)
    ensures storage == "mixpanel" ==> r["mixpanel"] == Obj(cloudStore)
  {
    map["mixpanel" := Obj(mpStore)][storage := Obj(cloudStore)]["time" := timing]
  }

  /**
   * The label padding in `progress`: the shorter of the storage name and
   * 'mixpanel' is padded with spaces until both have the same length.
   */
  method PadLabels(storage: string) returns (storageLabel: string, mixpanelLabel: string)
    ensures |storageLabel| == |mixpanelLabel| == Max(|storage|, |"mixpanel"|)
    ensures storageLabel == storage + Spaces(|storageLabel| - |storage|)
    ensures mixpanelLabel == "mixpanel" + Spaces(|mixpanelLabel| - |"mixpanel"|)
  {
    storageLabel := storage;
    mixpanelLabel := "mixpanel";
    var width := Max(|storage|, |"mixpanel"|);
    while |storageLabel| != |mixpanelLabel|
      invariant |storage| <= |storageLabel| <= width
      invariant |"mixpanel"| <= |mixpanelLabel| <= width
      invariant |storageLabel| == |storage| || |mixpanelLabel| == |"mixpanel"|
      invariant storageLabel == storage + Spaces(|storageLabel| - |storage|)
      invariant mixpanelLabel == "mixpanel" + Spaces(|mixpanelLabel| - |"mixpanel"|)
      decreases 2 * width - |storageLabel| - |mixpanelLabel|
    {
      if |storageLabel| > |mixpanelLabel| {
        mixpanelLabel := mixpanelLabel + " ";
      } else {
        storageLabel := storageLabel + " ";
      }
    }
  }
}
