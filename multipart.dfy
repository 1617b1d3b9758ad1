/**
 * The `multipart/form-data` body of an upload (RFC 7578): one part per parameter,
 * an optional `cover` part, an optional file part, and the closing delimiter of
 * section 5.1.1 of RFC 2046. The body is built by appending UTF-8 text and raw
 * bytes to a growable byte buffer.
 */
module Multipart {
  import opened Wrappers
  import opened Text
  import opened Utf8
  import opened Media

  const CRLF: string := "\r\n"

  /** A request parameter's value: a String or some other value (a number, a flag, ...). */
  datatype ParamValue = Str(text: string) | NonString(description: string)

  /** The parameters, in the order the dictionary yields them. */
  type Params = seq<(string, ParamValue)>

  /** Every value is a String, as the forced cast in the serialiser demands. */
  predicate AllStrings(ps: Params) {
    forall i :: 0 <= i < |ps| ==> ps[i].1.Str?
  }

  /** The keys and string values of `ps`. */
  function StringPairs(ps: Params): (r: seq<(string, string)>)
    requires AllStrings(ps)
    ensures |r| == |ps|
    ensures forall i :: 0 <= i < |ps| ==> r[i] == (ps[i].0, ps[i].1.text)
  {
    if ps == [] then [] else [(ps[0].0, ps[0].1.text)] + StringPairs(ps[1..])
  }

  function Delimiter(boundary: string): string { "--" + boundary + CRLF }

  const DispositionPrefix: string := "Content-Disposition: form-data; name=\""

  /** One form field: delimiter, Content-Disposition header (RFC 7578 section 4.2), blank line, value. */
  function ParamPart(key: string, value: string, boundary: string): string {
    Delimiter(boundary) + (DispositionPrefix + key + "\"" + CRLF + CRLF) + (value + CRLF)
  }

  function ParamsText(ps: seq<(string, string)>, boundary: string): string {
    if ps == [] then [] else ParamPart(ps[0].0, ps[0].1, boundary) + ParamsText(ps[1..], boundary)
  }

  /** The `cover` field; Swift renders the Bool `true` as the text `true`. */
  function CoverPart(boundary: string): string {
    Delimiter(boundary) + (DispositionPrefix + "cover\"" + CRLF + CRLF) + ("true" + CRLF)
  }

  /** The headers of the file part, up to the blank line before the raw bytes. */
  function MediaHeader(m: Media, boundary: string): string {
    Delimiter(boundary)
      + (DispositionPrefix + m.key + "\"; filename=\"" + m.filename + "\"" + CRLF)
      + ("Content-Type: " + m.mimeType + CRLF + CRLF)
  }

  function CloseDelimiter(boundary: string): string { "--" + boundary + "--" + CRLF }

  /** The bytes of the form fields, one per parameter in iteration order. */
  function FieldsBytes(params: Option<Params>, boundary: string): seq<Byte>
    requires params.Some? ==> AllStrings(params.value)
  {
    if params.Some? then Encode(ParamsText(StringPairs(params.value), boundary)) else []
  }

  /** The bytes of the `cover` field, present only for cover media. */
  function CoverBytes(media: Option<Media>, boundary: string): seq<Byte> {
    if media.Some? && media.value.isCover then Encode(CoverPart(boundary)) else []
  }

  /** The bytes of the file part: headers, raw data, CRLF. */
  function FileBytes(media: Option<Media>, boundary: string): seq<Byte> {
    if media.Some? then Encode(MediaHeader(media.value, boundary)) + media.value.data + Encode(CRLF) else []
  }

  /** The whole body: parameters, then the cover flag and the file if there is media, then the close. */
  function MultipartBody(params: Option<Params>, media: Option<Media>, boundary: string): seq<Byte>
    requires params.Some? ==> AllStrings(params.value)
  {
    FieldsBytes(params, boundary) + CoverBytes(media, boundary) + FileBytes(media, boundary)
      + Encode(CloseDelimiter(boundary))
  }

  lemma {:induction false} ParamsTextSnoc(ps: seq<(string, string)>, p: (string, string), boundary: string)
    ensures ParamsText(ps + [p], boundary) == ParamsText(ps, boundary) + ParamPart(p.0, p.1, boundary)
  {
    if ps == [] {
      assert ps + [p] == [p];
      assert [p][1..] == [];
    } else {
      assert (ps + [p])[0] == ps[0];
      assert (ps + [p])[1..] == ps[1..] + [p];
      ParamsTextSnoc(ps[1..], p, boundary);
    }
  }

  /** The body always ends with the closing delimiter `--boundary--` and CRLF. */
  lemma BodyEndsWithCloseDelimiter(params: Option<Params>, media: Option<Media>, boundary: string)
    requires params.Some? ==> AllStrings(params.value)
    ensures var body := MultipartBody(params, media, boundary);
      var close := Encode(CloseDelimiter(boundary));
      |close| <= |body| && body[|body| - |close|..] == close
  {
  }

  /** With no parameters and no media the body is the closing delimiter alone. */
  lemma EmptyBodyIsCloseDelimiter(params: Option<Params>, boundary: string)
    requires params.Some? ==> params.value == []
    ensures MultipartBody(params, None, boundary) == Encode(CloseDelimiter(boundary))
  {
  }

  /**
   * The text of `t` before the first `c`, provided `terminator` starts there, and
   * what follows the terminator.
   */
  function ReadUntil(t: string, c: char, terminator: string): (r: Option<(string, string)>)
    requires terminator != []
    ensures r.Some? ==> |r.value.1| < |t|
  {
    match IndexOf(t, c)
    case None => None
    case Some(k) =>
      if terminator <= t[k..] then Some((t[..k], t[k..][|terminator|..])) else None
  }

  lemma ReadUntilAppend(a: string, c: char, terminator: string, rest: string)
    requires c !in a && terminator != [] && terminator[0] == c
    ensures ReadUntil(a + (terminator + rest), c, terminator) == Some((a, rest))
  {
    IndexOfAppend(a, terminator + rest, c);
    DropPrefix(a, terminator + rest);
    DropPrefix(terminator, rest);
  }

  /** What ends the name and the header block of a field. */
  const NameEnd: string := "\"" + CRLF + CRLF

  /**
   * Reads one form field off the front of `t`: a delimiter, the disposition header up
   * to the closing quote of the name, a blank line, and the value up to the next CRLF.
   * Gives the key, the value and what follows the field.
   */
  function ParseField(t: string, boundary: string): (r: Option<(string, string, string)>)
    ensures r.Some? ==> |r.value.2| < |t|
  {
    var head := Delimiter(boundary) + DispositionPrefix;
    if !(head <= t) then None
    else match ReadUntil(t[|head|..], '"', NameEnd)
      case None => None
      case Some((key, afterKey)) =>
        match ReadUntil(afterKey, '\r', CRLF)
        case None => None
        case Some((value, rest)) => Some((key, value, rest))
  }

  /** Reads all form fields back from the parameter section: the partner of ParamsText. */
  function ParseParams(t: string, boundary: string): Option<seq<(string, string)>>
    decreases |t|
  {
    if t == [] then Some([])
    else match ParseField(t, boundary)
      case None => None
      case Some((key, value, rest)) =>
        match ParseParams(rest, boundary)
        case None => None
        case Some(fields) => Some([(key, value)] + fields)
  }

  /** Keys without a double quote and values without a carriage return. */
  predicate Unambiguous(ps: seq<(string, string)>) {
    forall i :: 0 <= i < |ps| ==> '"' !in ps[i].0 && '\r' !in ps[i].1
  }

  lemma DropPrefix(a: string, b: string)
    ensures a <= a + b && (a + b)[|a|..] == b && (a + b)[..|a|] == a
  {
  }

  lemma ParsePart(key: string, value: string, boundary: string, rest: string)
    requires '"' !in key && '\r' !in value
    ensures ParseField(ParamPart(key, value, boundary) + rest, boundary) == Some((key, value, rest))
  {
    var head := Delimiter(boundary) + DispositionPrefix;
    var afterKey := value + (CRLF + rest);
    var afterHead := key + (NameEnd + afterKey);
    assert ParamPart(key, value, boundary) + rest == head + afterHead;
    DropPrefix(head, afterHead);
    ReadUntilAppend(key, '"', NameEnd, afterKey);
    ReadUntilAppend(value, '\r', CRLF, rest);
  }

  /** Round trip: unambiguous parameters are read back exactly, in order. */
  lemma {:induction false} ParseParamsText(ps: seq<(string, string)>, boundary: string)
    requires Unambiguous(ps)
    ensures ParseParams(ParamsText(ps, boundary), boundary) == Some(ps)
  {
    if ps != [] {
      ParseParamsText(ps[1..], boundary);
      ParsePart(ps[0].0, ps[0].1, boundary, ParamsText(ps[1..], boundary));
      assert ParamsText(ps, boundary) != [];
      assert [ps[0]] + ps[1..] == ps;
    }
  }

  /** The bytes of a field are those of its three appended pieces. */
  lemma ParamPartBytes(key: string, value: string, boundary: string)
    ensures Encode(ParamPart(key, value, boundary))
      == Encode("--" + boundary + CRLF) + Encode(DispositionPrefix + key + "\"" + CRLF + CRLF) + Encode(value + CRLF)
  {
    assert ParamPart(key, value, boundary) == ("--" + boundary + CRLF) + ((DispositionPrefix + key + "\"" + CRLF + CRLF) + (value + CRLF));
    EncodeAppend(Delimiter(boundary), (DispositionPrefix + key + "\"" + CRLF + CRLF) + (value + CRLF));
    EncodeAppend(DispositionPrefix + key + "\"" + CRLF + CRLF, value + CRLF);
  }

  lemma CoverPartBytes(boundary: string)
    ensures Encode(CoverPart(boundary))
      == Encode("--" + boundary + CRLF) + Encode(DispositionPrefix + "cover\"" + CRLF + CRLF) + Encode("true" + CRLF)
  {
    assert CoverPart(boundary) == ("--" + boundary + CRLF) + ((DispositionPrefix + "cover\"" + CRLF + CRLF) + ("true" + CRLF));
    EncodeAppend(Delimiter(boundary), (DispositionPrefix + "cover\"" + CRLF + CRLF) + ("true" + CRLF));
    EncodeAppend(DispositionPrefix + "cover\"" + CRLF + CRLF, "true" + CRLF);
  }

  lemma MediaHeaderBytes(m: Media, boundary: string)
    ensures Encode(MediaHeader(m, boundary))
      == Encode("--" + boundary + CRLF)
        + Encode(DispositionPrefix + m.key + "\"; filename=\"" + m.filename + "\"" + CRLF)
        + Encode("Content-Type: " + m.mimeType + CRLF + CRLF)
  {
    assert MediaHeader(m, boundary) == ("--" + boundary + CRLF)
      + ((DispositionPrefix + m.key + "\"; filename=\"" + m.filename + "\"" + CRLF) + ("Content-Type: " + m.mimeType + CRLF + CRLF));
    EncodeAppend(Delimiter(boundary),
      (DispositionPrefix + m.key + "\"; filename=\"" + m.filename + "\"" + CRLF) + ("Content-Type: " + m.mimeType + CRLF + CRLF));
    EncodeAppend(DispositionPrefix + m.key + "\"; filename=\"" + m.filename + "\"" + CRLF, "Content-Type: " + m.mimeType + CRLF + CRLF);
  }

  /** Appending the three pieces of field `i` extends the text of the first `i` fields by one. */
  lemma FieldAppended(pairs: seq<(string, string)>, i: nat, boundary: string, before: seq<Byte>, after: seq<Byte>)
    requires i < |pairs|
    requires before == Encode(ParamsText(pairs[..i], boundary))
    requires after == before + Encode("--" + boundary + CRLF)
      + Encode(DispositionPrefix + pairs[i].0 + "\"" + CRLF + CRLF) + Encode(pairs[i].1 + CRLF)
    ensures after == Encode(ParamsText(pairs[..i + 1], boundary))
  {
    var (key, value) := pairs[i];
    var done := ParamsText(pairs[..i], boundary);
    var part := ParamPart(key, value, boundary);
    ParamPartBytes(key, value, boundary);
    assert after == before + Encode(part);
    EncodeAppend(done, part);
    assert pairs[..i + 1] == pairs[..i] + [pairs[i]];
    ParamsTextSnoc(pairs[..i], pairs[i], boundary);
    assert ParamsText(pairs[..i + 1], boundary) == done + part;
  }

  /** Appending the three pieces of the cover field adds the bytes of CoverPart. */
  lemma CoverAppended(before: seq<Byte>, after: seq<Byte>, boundary: string)
    requires after == before + Encode("--" + boundary + CRLF)
      + Encode(DispositionPrefix + "cover\"" + CRLF + CRLF) + Encode("true" + CRLF)
    ensures after == before + Encode(CoverPart(boundary))
  {
    CoverPartBytes(boundary);
  }

  /** Appending the headers, the raw bytes and CRLF adds the file part. */
  lemma FileAppended(before: seq<Byte>, after: seq<Byte>, m: Media, boundary: string)
    requires after == before + Encode("--" + boundary + CRLF)
      + Encode(DispositionPrefix + m.key + "\"; filename=\"" + m.filename + "\"" + CRLF)
      + Encode("Content-Type: " + m.mimeType + CRLF + CRLF) + m.data + Encode(CRLF)
    ensures after == before + Encode(MediaHeader(m, boundary)) + m.data + Encode(CRLF)
  {
    MediaHeaderBytes(m, boundary);
  }

  /** The buffer after the parameter loop holds the field bytes. */
  lemma FieldsDone(params: Option<Params>, boundary: string, fields: seq<Byte>)
    requires params.Some? ==> AllStrings(params.value)
    requires params.Some? ==> fields == Encode(ParamsText(StringPairs(params.value), boundary))
    requires params.None? ==> fields == []
    ensures fields == FieldsBytes(params, boundary)
  {
  }

  /** The buffer after the cover step holds the cover bytes after the fields. */
  lemma CoverDone(media: Option<Media>, boundary: string, fields: seq<Byte>, withCover: seq<Byte>)
    requires media.Some? && media.value.isCover ==> withCover == fields + Encode(CoverPart(boundary))
    requires !(media.Some? && media.value.isCover) ==> withCover == fields
    ensures withCover == fields + CoverBytes(media, boundary)
  {
    if !(media.Some? && media.value.isCover) {
      assert fields + [] == fields;
    }
  }

  /** The buffer after the media step holds the file bytes after the cover. */
  lemma FileDone(media: Option<Media>, boundary: string, withCover: seq<Byte>, withFile: seq<Byte>)
    requires media.Some? ==> withFile == withCover + Encode(MediaHeader(media.value, boundary)) + media.value.data + Encode(CRLF)
    requires media.None? ==> withFile == withCover
    ensures withFile == withCover + FileBytes(media, boundary)
  {
    if media.None? {
      assert withCover + [] == withCover;
    }
  }

  /** The finished buffer is the body. */
  lemma BodyDone(params: Option<Params>, media: Option<Media>, boundary: string,
                 fields: seq<Byte>, withCover: seq<Byte>, withFile: seq<Byte>, body: seq<Byte>)
    requires params.Some? ==> AllStrings(params.value)
    requires fields == FieldsBytes(params, boundary)
    requires withCover == fields + CoverBytes(media, boundary)
    requires withFile == withCover + FileBytes(media, boundary)
    requires body == withFile + Encode(CloseDelimiter(boundary))
    ensures body == MultipartBody(params, media, boundary)
  {
  }

  /** A growable byte buffer (`NSMutableData`). */
  class MutableData {
    var bytes: seq<Byte>

    constructor ()
      ensures bytes == []
    {
      bytes := [];
    }

    /** Appends the UTF-8 bytes of `s`; the conversion of a Swift String never fails. */
    method AppendString(s: string)
      modifies this
      ensures bytes == old(bytes) + Encode(s)
    {
      bytes := bytes + Encode(s);
    }

    method AppendData(d: seq<Byte>)
      modifies this
      ensures bytes == old(bytes) + d
    {
      bytes := bytes + d;
    }
  }

  /**
   * `createDataBody`. Every parameter value must be a String: the source force-casts
   * it and traps otherwise.
   */
  method CreateDataBody(params: Option<Params>, media: Option<Media>, boundary: string) returns (body: seq<Byte>)
    requires params.Some? ==> AllStrings(params.value)
    ensures body == MultipartBody(params, media, boundary)
  {
    var lineBreak := CRLF;
    var data := new MutableData();
    if params.Some? {
      var ps := params.value;
      ghost var pairs := StringPairs(ps);
      for i := 0 to |ps|
        invariant data.bytes == Encode(ParamsText(pairs[..i], boundary))
      {
        var (key, value) := ps[i];
        ghost var before := data.bytes;
        data.AppendString("--" + boundary + lineBreak);
        data.AppendString(DispositionPrefix + key + "\"" + lineBreak + lineBreak);
        data.AppendString(value.text + lineBreak);
        FieldAppended(pairs, i, boundary, before, data.bytes);
      }
      assert pairs[..|ps|] == pairs;
    }
    ghost var fields := data.bytes;
    FieldsDone(params, boundary, fields);

    if media.Some? && media.value.isCover {
      data.AppendString("--" + boundary + lineBreak);
      data.AppendString(DispositionPrefix + "cover\"" + lineBreak + lineBreak);
      data.AppendString("true" + lineBreak);
      CoverAppended(fields, data.bytes, boundary);
    }
    ghost var withCover := data.bytes;
    CoverDone(media, boundary, fields, withCover);

    if media.Some? {
      var m := media.value;
      data.AppendString("--" + boundary + lineBreak);
      data.AppendString(DispositionPrefix + m.key + "\"; filename=\"" + m.filename + "\"" + lineBreak);
      data.AppendString("Content-Type: " + m.mimeType + lineBreak + lineBreak);
      data.AppendData(m.data);
      data.AppendString(lineBreak);
      FileAppended(withCover, data.bytes, m, boundary);
    }
    ghost var withFile := data.bytes;
    FileDone(media, boundary, withCover, withFile);

    data.AppendString("--" + boundary + "--" + lineBreak);
    body := data.bytes;
    BodyDone(params, media, boundary, fields, withCover, withFile, body);
  }
}
