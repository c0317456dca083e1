/**
 * The format parser of components/parsers.js: a dispatch on the format tag,
 * newline-delimited JSON decoded line by line, and plain JSON decoded whole.
 * `JSON.parse` is the parameter `decode`: a partial function from text to a
 * value, None where it would throw.
 */
module Parsers {
  import opened Js
  import opened Text

  /** The segments `filter(a => a)` keeps: every piece that is not the empty string. */
  function NonEmpty(pieces: seq<string>): (r: seq<string>)
    ensures |r| <= |pieces|
    ensures forall i :: 0 <= i < |r| ==> r[i] != ""
    ensures forall i :: 0 <= i < |r| ==> r[i] in pieces
    ensures forall i :: 0 <= i < |pieces| && pieces[i] != "" ==> pieces[i] in r
  {
    if pieces == [] then []
    else if pieces[0] == "" then NonEmpty(pieces[1..])
    else [pieces[0]] + NonEmpty(pieces[1..])
  }

  /** The lines of a newline-delimited buffer that reach the decoder, in buffer order. */
  function Lines(data: string): (r: seq<string>)
    ensures forall i :: 0 <= i < |r| ==> r[i] != "" && '\n' !in r[i]
    ensures forall i :: 0 <= i < |Split(data, '\n')| && Split(data, '\n')[i] != "" ==> Split(data, '\n')[i] in r
  {
    NonEmpty(Split(data, '\n'))
  }

  /**
   * `lines.map(JSON.parse)`: every line decoded, in order, or nothing at all
   * as soon as one line is rejected.
   */
  function DecodeAll(lines: seq<string>, decode: string -> Option<JsValue>): (r: Option<seq<JsValue>>)
    ensures r.Some? <==> forall i :: 0 <= i < |lines| ==> decode(lines[i]).Some?
    ensures r.Some? ==> |r.value| == |lines|
    ensures r.Some? ==> forall i :: 0 <= i < |lines| ==> r.value[i] == decode(lines[i]).value
  {
    if lines == [] then Some([])
    else
      match decode(lines[0])
      case None => None
      case Some(v) =>
        match DecodeAll(lines[1..], decode)
        case None => None
        case Some(vs) => Some([v] + vs)
  }

  /** `parseJSONL`: one record per non-empty line; a rejected line fails the whole call. */
  function ParseJsonl(data: string, decode: string -> Option<JsValue>): (r: Result<JsValue, Error>)
    ensures r.Ok? <==> forall i :: 0 <= i < |Lines(data)| ==> decode(Lines(data)[i]).Some?
    ensures r.Err? ==> r.error == SyntaxError
    ensures r.Ok? ==> r.value.Arr? && |r.value.items| == |Lines(data)|
    ensures r.Ok? ==> forall i :: 0 <= i < |Lines(data)| ==> r.value.items[i] == decode(Lines(data)[i]).value
  {
    match DecodeAll(Lines(data), decode)
    case None => Err(SyntaxError)
    case Some(records) => Ok(Arr(records))
  }

  /** `parseJSON`: the whole buffer decoded as one value. */
  function ParseJson(data: string, decode: string -> Option<JsValue>): (r: Result<JsValue, Error>)
    ensures r.Ok? <==> decode(data).Some?
    ensures r.Ok? ==> r.value == decode(data).value
    ensures r.Err? ==> r.error == SyntaxError
  {
    match decode(data)
    case None => Err(SyntaxError)
    case Some(v) => Ok(v)
  }

  /**
   * `parser(type = "ndjson", data)`: 'ndjson' and 'jsonl' decode line by
   * line, 'json' decodes the whole buffer, and every other tag (including
   * 'csv' and upper-case spellings) yields undefined without throwing.
   */
  function Parse(format: Option<string>, data: string, decode: string -> Option<JsValue>): (r: Result<JsValue, Error>)
    ensures format.None? ==> r == ParseJsonl(data, decode)
    ensures format == Some("ndjson") || format == Some("jsonl") ==> r == ParseJsonl(data, decode)
    ensures format == Some("json") ==> r == ParseJson(data, decode)
    ensures format.Some? && format.value !in {"ndjson", "jsonl", "json"} ==> r == Ok(Undefined)
  {
    var tag := if format.None? then "ndjson" else format.value;
    if tag == "ndjson" then ParseJsonl(data, decode)
    else if tag == "jsonl" then ParseJsonl(data, decode)
    else if tag == "json" then ParseJson(data, decode)
    else Ok(Undefined)
  }

  /** An omitted tag behaves exactly like 'ndjson', and 'jsonl' exactly like 'ndjson'. */
  lemma DefaultTagIsNdjson(data: string, decode: string -> Option<JsValue>)
    ensures Parse(None, data, decode) == Parse(Some("ndjson"), data, decode)
    ensures Parse(Some("jsonl"), data, decode) == Parse(Some("ndjson"), data, decode)
  {
  }

  /** Keeping the non-empty pieces of a concatenation keeps those of each part, in order. */
  lemma {:induction false} NonEmptyConcat(a: seq<string>, b: seq<string>)
    ensures NonEmpty(a + b) == NonEmpty(a) + NonEmpty(b)
    decreases |a|
  {
    if a != [] {
      assert (a + b)[1..] == a[1..] + b;
      NonEmptyConcat(a[1..], b);
    } else {
      assert a + b == b;
    }
  }

  /** Decoding a concatenation succeeds exactly when both parts do, and concatenates the records. */
  lemma {:induction false} DecodeAllConcat(a: seq<string>, b: seq<string>, decode: string -> Option<JsValue>)
    ensures DecodeAll(a + b, decode).Some? <==> DecodeAll(a, decode).Some? && DecodeAll(b, decode).Some?
    ensures DecodeAll(a + b, decode).Some? ==>
      DecodeAll(a + b, decode).value == DecodeAll(a, decode).value + DecodeAll(b, decode).value
    decreases |a|
  {
    if a != [] {
      assert (a + b)[1..] == a[1..] + b;
      DecodeAllConcat(a[1..], b, decode);
    } else {
      assert a + b == b;
    }
  }

  /** A trailing newline adds no record and changes nothing else. */
  lemma TrailingNewlineAddsNothing(data: string, decode: string -> Option<JsValue>)
    ensures Lines(data + "\n") == Lines(data)
    ensures ParseJsonl(data + "\n", decode) == ParseJsonl(data, decode)
  {
    SplitConcat(data, "", '\n');
    assert data + ['\n'] + "" == data + "\n";
    NonEmptyConcat(Split(data, '\n'), [""]);
  }

  /**
   * Two buffers joined by a newline parse to the records of the first
   * followed by those of the second; either one failing fails the whole.
   */
  lemma ConcatenatedBuffers(a: string, b: string, decode: string -> Option<JsValue>)
    ensures Lines(a + "\n" + b) == Lines(a) + Lines(b)
    ensures ParseJsonl(a + "\n" + b, decode).Ok? <==>
      ParseJsonl(a, decode).Ok? && ParseJsonl(b, decode).Ok?
    ensures ParseJsonl(a + "\n" + b, decode).Ok? ==>
      ParseJsonl(a + "\n" + b, decode).value.items ==
        ParseJsonl(a, decode).value.items + ParseJsonl(b, decode).value.items
  {
    assert a + "\n" + b == a + ['\n'] + b;
    SplitConcat(a, b, '\n');
    NonEmptyConcat(Split(a, '\n'), Split(b, '\n'));
    DecodeAllConcat(Lines(a), Lines(b), decode);
  }

  /**
   * Only exactly-empty pieces are dropped: a blank line holding a carriage
   * return still reaches the decoder, so a decoder that rejects it fails the
   * whole buffer.
   */
  lemma CarriageReturnLineReachesDecoder(decode: string -> Option<JsValue>)
    requires decode("\r") == None
    ensures "\r" in Lines("{}\n\r\n")
    ensures ParseJsonl("{}\n\r\n", decode) == Err(SyntaxError)
  {
    assert "{}\n\r\n" == "{}" + ['\n'] + "\r\n";
    assert "\r\n" == "\r" + ['\n'] + "";
    SplitConcat("{}", "\r\n", '\n');
    SplitConcat("\r", "", '\n');
    SplitNoSep("{}", '\n');
    SplitNoSep("\r", '\n');
    assert Split("{}\n\r\n", '\n') == ["{}", "\r", ""];
    assert Lines("{}\n\r\n") == ["{}", "\r"];
  }
}
