/**
 * `Krang.Ajax._encode_params`: before a request is sent, every parameter
 * value is Base64-encoded unless the installation's character set is
 * UTF-8, so that the request stays neutral to the page's encoding; the
 * flag `base64=1` tells the server to decode. The request functions then
 * add `ajax=1`, which is never encoded.
 *
 * A parameter object maps names to a value or, for several inputs of the
 * same name, to an array of values. Values are strings or numbers; the
 * encoder reads a number as a string without a `length`, so it encodes a
 * number to the empty string.
 */
module Params {
  import opened Wrappers
  import opened Base64
  import opened Base64Properties

  datatype Scalar = Text(text: string) | Number(number: int)

  /** A parameter: one value, or an array of values (`typeof == 'object'`). */
  datatype Param = Single(value: Scalar) | Several(items: seq<Scalar>)

  type ParamMap = map<string, Param>

  const Base64Flag := "base64"
  const AjaxFlag := "ajax"

  /** `Krang.config().charset` is `'utf-8'` or `'UTF-8'`; a missing
      configuration entry is `None`. */
  predicate IsUtf8(charset: Option<string>) {
    charset == Some("utf-8") || charset == Some("UTF-8")
  }

  /** `Krang.Base64.encode` applied to one value. */
  function EncodeScalar(x: Scalar): (r: Scalar)
    ensures r.Text?
  {
    match x
    case Text(s) => Text(Encoded(s))
    case Number(_) => Text("")
  }

  function EncodeItems(items: seq<Scalar>): (r: seq<Scalar>)
    ensures |r| == |items|
  {
    seq(|items|, i requires 0 <= i < |items| => EncodeScalar(items[i]))
  }

  function EncodeParam(p: Param): Param {
    match p
    case Single(x) => Single(EncodeScalar(x))
    case Several(items) => Several(EncodeItems(items))
  }

  /** The parameters after `_encode_params`. */
  function EncodedParams(params: ParamMap, charset: Option<string>): ParamMap {
    if IsUtf8(charset) then params
    else (map n | n in params :: EncodeParam(params[n]))[Base64Flag := Single(Number(1))]
  }

  /** The parameters a request sends: encoded, then `ajax=1`. */
  function RequestParams(params: ParamMap, charset: Option<string>): ParamMap {
    EncodedParams(params, charset)[AjaxFlag := Single(Number(1))]
  }

  // ---------------------------------------------------------------------
  // The in-place encoder

  /** `Krang.Base64.encode(x)` for a string or a number. */
  method EncodeValue(x: Scalar) returns (r: Scalar)
    ensures r == EncodeScalar(x)
  {
    match x
    case Text(s) =>
      var e := Encode(s);
      r := Text(e);
    case Number(_) =>
      r := Text("");
  }

  /** The inner loop: `list[i] = Krang.Base64.encode(list[i])` for each i. */
  method EncodeList(list: seq<Scalar>) returns (r: seq<Scalar>)
    ensures r == EncodeItems(list)
  {
    r := list;
    for i := 0 to |list|
      invariant |r| == |list|
      invariant forall j :: 0 <= j < i ==> r[j] == EncodeScalar(list[j])
      invariant r[i..] == list[i..]
    {
      assert r[i] == list[i];
      var e := EncodeValue(r[i]);
      r := r[i := e];
    }
  }

  /** A request's parameter object (`args.params`), which the request
      functions change in place. */
  class ParamObject {
    var entries: ParamMap

    constructor(entries: ParamMap)
      ensures this.entries == entries
    {
      this.entries := entries;
    }

    /** `Krang.Ajax._encode_params(params)`. */
    method EncodeParams(charset: Option<string>)
      modifies this
      ensures entries == EncodedParams(old(entries), charset)
    {
      if IsUtf8(charset) {
        return;
      }
      ghost var original := entries;
      var pending := entries.Keys;
      ghost var done: set<string> := {};
      while pending != {}
        invariant pending !! done && pending + done == original.Keys
        invariant entries.Keys == original.Keys
        invariant forall n :: n in done ==> entries[n] == EncodeParam(original[n])
        invariant forall n :: n in pending ==> entries[n] == original[n]
        decreases pending
      {
        var n :| n in pending;
        if entries[n].Several? {
          var encoded := EncodeList(entries[n].items);
          entries := entries[n := Several(encoded)];
        } else {
          var e := EncodeValue(entries[n].value);
          entries := entries[n := Single(e)];
        }
        pending := pending - {n};
        done := done + {n};
      }
      entries := entries[Base64Flag := Single(Number(1))];
    }

    /** What `Krang.Ajax.request` and `Krang.Ajax.update` do to the
        parameters before sending them. */
    method PrepareRequest(charset: Option<string>)
      modifies this
      ensures entries == RequestParams(old(entries), charset)
    {
      EncodeParams(charset);
      entries := entries[AjaxFlag := Single(Number(1))];
    }
  }

  // ---------------------------------------------------------------------
  // Properties

  /** Decoding what the encoder wrote. */
  function DecodeScalar(x: Scalar): Scalar {
    match x
    case Text(s) => Text(Decoded(s))
    case Number(n) => Number(n)
  }

  function DecodeParam(p: Param): Param {
    match p
    case Single(x) => Single(DecodeScalar(x))
    case Several(items) => Several(seq(|items|, i requires 0 <= i < |items| => DecodeScalar(items[i])))
  }

  /** A value that is text of code units below 256 (numbers excluded). */
  predicate Latin1Text(x: Scalar) {
    x.Text? && Latin1(x.text)
  }

  predicate Latin1Param(p: Param) {
    match p
    case Single(x) => Latin1Text(x)
    case Several(items) => forall i :: 0 <= i < |items| ==> Latin1Text(items[i])
  }

  lemma ScalarRoundTrip(x: Scalar)
    requires Latin1Text(x)
    ensures DecodeScalar(EncodeScalar(x)) == x
  {
    RoundTrip(x.text);
  }

  /** Decoding an encoded text parameter gives it back. */
  lemma ParamRoundTrip(p: Param)
    requires Latin1Param(p)
    ensures DecodeParam(EncodeParam(p)) == p
  {
    match p
    case Single(x) =>
      ScalarRoundTrip(x);
    case Several(items) =>
      var e := EncodeItems(items);
      forall i | 0 <= i < |items|
        ensures DecodeScalar(e[i]) == items[i]
      {
        ScalarRoundTrip(items[i]);
      }
  }

  /** With a character set other than UTF-8, the server, decoding every
      parameter but the flags, gets the page's text parameters back; the
      flags are `base64=1` and `ajax=1`, whatever the page had put under
      those names. With UTF-8 the parameters go as they are. */
  lemma RequestParamsDecode(params: ParamMap, charset: Option<string>)
    ensures var sent := RequestParams(params, charset);
      sent.Keys == params.Keys + {AjaxFlag} + (if IsUtf8(charset) then {} else {Base64Flag})
      && sent[AjaxFlag] == Single(Number(1))
      && (!IsUtf8(charset) ==> sent[Base64Flag] == Single(Number(1)))
      && (forall n :: n in params && n != AjaxFlag && n != Base64Flag ==>
            if IsUtf8(charset) then sent[n] == params[n]
            else (Latin1Param(params[n]) ==> DecodeParam(sent[n]) == params[n]))
  {
    var sent := RequestParams(params, charset);
    forall n | n in params && n != AjaxFlag && n != Base64Flag && !IsUtf8(charset) && Latin1Param(params[n])
      ensures DecodeParam(sent[n]) == params[n]
    {
      assert sent[n] == EncodeParam(params[n]);
      ParamRoundTrip(params[n]);
    }
  }

  /** A number is sent as the empty string when the parameters are encoded:
      `Krang.Base64.encode` sees no `length` on it. */
  lemma NumberSentBlank(params: ParamMap, charset: Option<string>, n: string, k: int)
    requires n in params && params[n] == Single(Number(k)) && n != AjaxFlag && n != Base64Flag
    requires !IsUtf8(charset)
    ensures RequestParams(params, charset)[n] == Single(Text(""))
  {
  }
}
