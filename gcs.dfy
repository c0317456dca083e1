/**
 * The bucket arithmetic of the cloud-storage connector (middleware/gcs.js):
 * the bucket name taken from the job's URI, and the listing metadata (object
 * names and total size) it records in the job configuration.
 */
module Gcs {
  import opened Js
  import opened Text
  import Config

  /**
   * `path.replace("gs://", "").split("/")[0]`: the first '/'-separated piece
   * of the path once its first "gs://" is removed.
   */
  function BucketName(path: string): (r: string)
    ensures '/' !in r
    ensures var rest := ReplaceFirst(path, "gs://", "");
      |r| <= |rest| && r == rest[..|r|] && (|r| < |rest| ==> rest[|r|] == '/')
  {
    var rest := ReplaceFirst(path, "gs://", "");
    FirstPiece(rest, '/');
    Split(rest, '/')[0]
  }

  /** A gs:// URI names its bucket: everything after the bucket is ignored. */
  lemma BucketOfGsUri(bucket: string, objectPath: string)
    requires '/' !in bucket
    ensures BucketName("gs://" + bucket + "/" + objectPath) == bucket
  {
    var s := "gs://" + bucket + "/" + objectPath;
    assert OccursAt(s, "gs://", 0);
    assert s[5..] == bucket + ['/'] + objectPath;
    assert ReplaceFirst(s, "gs://", "") == s[5..];
    SplitConcat(bucket, objectPath, '/');
    SplitNoSep(bucket, '/');
  }

  /** Only the first "gs://" is removed: a doubled scheme leaves "gs:" as the bucket. */
  lemma OnlyFirstSchemeRemoved()
    ensures BucketName("gs://gs://b/x") == "gs:"
  {
    var s := "gs://gs://b/x";
    assert OccursAt(s, "gs://", 0);
    assert s[5..] == "gs:" + ['/'] + "/b/x";
    assert ReplaceFirst(s, "gs://", "") == s[5..];
    SplitConcat("gs:", "/b/x", '/');
    SplitNoSep("gs:", '/');
  }

  /** A listed object: its name and its size in bytes (`Number(f.metadata.size)`). */
  datatype RemoteFile = RemoteFile(name: string, size: int)

  /** The reference total: the sum of a list of sizes. */
  function Sum(xs: seq<int>): int {
    if xs == [] then 0 else xs[0] + Sum(xs[1..])
  }

  /** The left fold `reduce` runs once it has taken its first element as the accumulator. */
  function FoldAdd(acc: int, xs: seq<int>): int
    decreases |xs|
  {
    if xs == [] then acc else FoldAdd(acc + xs[0], xs[1..])
  }

  lemma {:induction false} FoldAddIsSum(acc: int, xs: seq<int>)
    ensures FoldAdd(acc, xs) == acc + Sum(xs)
    decreases |xs|
  {
    if xs != [] {
      FoldAddIsSum(acc + xs[0], xs[1..]);
    }
  }

  /** `xs.reduce((t, i) => t + i)` without an initial value: throws on an empty list, else the exact sum. */
  function ReduceAdd(xs: seq<int>): (r: Result<int, Error>)
    ensures xs == [] ==> r == Err(TypeError)
    ensures xs != [] ==> r == Ok(Sum(xs))
  {
    if xs == [] then Err(TypeError)
    else
      FoldAddIsSum(xs[0], xs[1..]);
      Ok(FoldAdd(xs[0], xs[1..]))
  }

  lemma {:induction false} SumAppend(a: seq<int>, b: seq<int>)
    ensures Sum(a + b) == Sum(a) + Sum(b)
  {
    if a == [] {
      assert a + b == b;
    } else {
      assert (a + b)[1..] == a[1..] + b;
      SumAppend(a[1..], b);
    }
  }

  function Sizes(files: seq<RemoteFile>): (r: seq<int>)
    ensures |r| == |files|
    ensures forall i :: 0 <= i < |files| ==> r[i] == files[i].size
  {
    seq(|files|, i requires 0 <= i < |files| => files[i].size)
  }

  function FileNames(files: seq<RemoteFile>): (r: seq<JsValue>)
    ensures |r| == |files|
    ensures forall i :: 0 <= i < |files| ==> r[i] == Str(files[i].name)
  {
    seq(|files|, i requires 0 <= i < |files| => Str(files[i].name))
  }

  /**
   * What the connector records after listing the whole bucket: every object
   * name in listing order under 'files', and the total size of every object
   * (empty ones included) under 'rows'. An empty listing throws.
   */
  function Listing(files: seq<RemoteFile>): (r: Result<map<string, JsValue>, Error>)
    ensures files == [] <==> r == Err(TypeError)
    ensures r.Ok? ==> r.value.Keys == {"rows", "files"}
    ensures r.Ok? ==> r.value["rows"] == Num(Sum(Sizes(files)))
    ensures r.Ok? ==> r.value["files"] == Arr(FileNames(files))
  {
    match ReduceAdd(Sizes(files))
    case Err(e) => Err(e)
    case Ok(total) => Ok(map["rows" := Num(total), "files" := Arr(FileNames(files))])
  }

  /** An empty object still adds its name to the listing, and nothing to the total. */
  lemma EmptyObjectsAreListed(files: seq<RemoteFile>, name: string)
    requires files != []
    ensures Listing(files + [RemoteFile(name, 0)]).Ok?
    ensures Listing(files + [RemoteFile(name, 0)]).value["rows"] == Listing(files).value["rows"]
    ensures Listing(files + [RemoteFile(name, 0)]).value["files"].items ==
      Listing(files).value["files"].items + [Str(name)]
  {
    var more := files + [RemoteFile(name, 0)];
    assert Sizes(more) == Sizes(files) + [0];
    SumAppend(Sizes(files), [0]);
    assert FileNames(more) == FileNames(files) + [Str(name)];
  }

  /** The listing metadata is recorded with `config.store(...)`, i.e. into the storage metadata. */
  method RecordListing(config: Config.StorageConfig, files: seq<RemoteFile>) returns (r: Result<map<string, JsValue>, Error>)
    modifies config`cloudStore, config`mpStore
    ensures r == Listing(files)
    ensures r.Ok? ==> config.cloudStore == ObjDefault(old(config.cloudStore), r.value)
    ensures r.Err? ==> config.cloudStore == old(config.cloudStore)
    ensures config.mpStore == old(config.mpStore)
  {
    r := Listing(files);
    if r.Ok? {
      config.Store(r.value, None);
    }
  }
}
