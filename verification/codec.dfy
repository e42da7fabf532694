/**
 * image_ai_utils/common/utils.py: images travel as `data:` URLs (section 3
 * of RFC 2397) whose payload is standard Base64 (section 4 of RFC 4648,
 * alphabet `A-Z a-z 0-9 + /` with `=` padding). An image is represented by
 * the bytes PIL writes when it saves it (`image.save(buffer, format=...)`);
 * producing and parsing those bytes is PIL's work and is not modelled.
 */
module Codec {
  import opened Wrappers
  import opened Text

  type byte = x: int | 0 <= x < 256
  type Bytes = seq<byte>

  /** The ways the two conversions can raise. */
  datatype CodecError =
    | UnknownExtension(ext: string)  // KeyError from `mimetypes.types_map[...]`
    | UnpackError(pieces: nat)       // ValueError: `_, data = source.split(b',')` needs exactly two pieces
    | Base64Error                    // binascii.Error from `b64decode`

  // ---------------------------------------------------------------------------
  // Base64, section 4 of RFC 4648

  /** The character that encodes the 6-bit value `v`. */
  function Sextet(v: int): (c: char)
    requires 0 <= v < 64
  {
    if v < 26 then (65 + v) as char
    else if v < 52 then (71 + v) as char
    else if v < 62 then (v - 4) as char
    else if v == 62 then '+'
    else '/'
  }

  /** The 6-bit value a character stands for, if it is in the alphabet. */
  function SextetValue(c: char): (v: Option<int>)
    ensures v.Some? ==> 0 <= v.value < 64
  {
    if 'A' <= c <= 'Z' then Some(c as int - 65)
    else if 'a' <= c <= 'z' then Some(c as int - 71)
    else if '0' <= c <= '9' then Some(c as int + 4)
    else if c == '+' then Some(62)
    else if c == '/' then Some(63)
    else None
  }

  predicate IsBase64Char(c: char) {
    SextetValue(c).Some?
  }

  /** Each 6-bit value has its own character, which decodes back to it. */
  lemma SextetRoundTrip(v: int)
    requires 0 <= v < 64
    ensures SextetValue(Sextet(v)) == Some(v)
  {
  }

  /** The table is that of the standard, not the URL-safe `-` and `_` of its section 5. */
  lemma StandardAlphabet()
    ensures Sextet(0) == 'A' && Sextet(25) == 'Z' && Sextet(26) == 'a' && Sextet(51) == 'z'
    ensures Sextet(52) == '0' && Sextet(61) == '9' && Sextet(62) == '+' && Sextet(63) == '/'
    ensures !IsBase64Char('-') && !IsBase64Char('_') && !IsBase64Char('=') && !IsBase64Char(',')
  {
  }

  /** Every character of the alphabet decodes to its own position. */
  lemma {:induction false} SextetValueInverse(c: char)
    requires IsBase64Char(c)
    ensures Sextet(SextetValue(c).value) == c
  {
  }

  function EncodeGroup(a: byte, b: byte, c: byte): (r: string)
    ensures |r| == 4
  {
    [Sextet(a / 4), Sextet((a % 4) * 16 + b / 16), Sextet((b % 16) * 4 + c / 64), Sextet(c % 64)]
  }

  /** `b64encode`: three bytes to four characters, `=` padding the last group. */
  function Encode(d: Bytes): (r: string)
    ensures |r| == 4 * ((|d| + 2) / 3)
    decreases |d|
  {
    if |d| == 0 then ""
    else if |d| == 1 then [Sextet(d[0] / 4), Sextet((d[0] % 4) * 16), '=', '=']
    else if |d| == 2 then
      [Sextet(d[0] / 4), Sextet((d[0] % 4) * 16 + d[1] / 16), Sextet((d[1] % 16) * 4), '=']
    else EncodeGroup(d[0], d[1], d[2]) + Encode(d[3..])
  }

  /** One group of four characters; padding is accepted only in the last group. */
  function DecodeQuad(q: string, last: bool): (r: Option<Bytes>)
    requires |q| == 4
    ensures r.Some? ==> 1 <= |r.value| <= 3
    ensures r.Some? && !last ==> |r.value| == 3
  {
    var v0, v1 := SextetValue(q[0]), SextetValue(q[1]);
    if v0.None? || v1.None? then None
    else
      var a := v0.value * 4 + v1.value / 16;
      if q[2] == '=' && q[3] == '=' then
        if last then Some([a]) else None
      else
        var v2 := SextetValue(q[2]);
        if v2.None? then None
        else
          var b := (v1.value % 16) * 16 + v2.value / 4;
          if q[3] == '=' then
            if last then Some([a, b]) else None
          else
            var v3 := SextetValue(q[3]);
            if v3.None? then None
            else Some([a, b, (v2.value % 4) * 64 + v3.value])
  }

  /** `b64decode`: four characters to (up to) three bytes; None is binascii.Error. */
  function Decode(t: string): (r: Option<Bytes>)
    ensures r.Some? ==> |t| % 4 == 0
    ensures r.Some? ==> |r.value| <= |t| / 4 * 3
    ensures r.Some? && |t| > 0 ==> |t| / 4 * 3 - 2 <= |r.value|
    decreases |t|
  {
    if |t| == 0 then Some([])
    else if |t| < 4 then None
    else
      match DecodeQuad(t[..4], |t| == 4)
      case None => None
      case Some(group) =>
        match Decode(t[4..])
        case None => None
        case Some(rest) => Some(group + rest)
  }

  lemma Recover0(a: byte, b: byte)
    ensures (a / 4) * 4 + ((a % 4) * 16 + b / 16) / 16 == a
  {
    var x, y := a % 4, b / 16;
    assert 0 <= y < 16;
    assert (x * 16 + y) / 16 == x;
  }

  lemma Recover1(a: byte, b: byte, c: byte)
    ensures (((a % 4) * 16 + b / 16) % 16) * 16 + ((b % 16) * 4 + c / 64) / 4 == b
  {
    var y, z, w := b / 16, b % 16, c / 64;
    assert 0 <= w < 4 && 0 <= y < 16;
    assert ((a % 4) * 16 + y) % 16 == y;
    assert (z * 4 + w) / 4 == z;
  }

  lemma Recover2(b: byte, c: byte)
    ensures (((b % 16) * 4 + c / 64) % 4) * 64 + c % 64 == c
  {
    var w := c / 64;
    assert 0 <= w < 4;
    assert ((b % 16) * 4 + w) % 4 == w;
  }

  lemma GroupRoundTrip(a: byte, b: byte, c: byte, last: bool)
    ensures DecodeQuad(EncodeGroup(a, b, c), last) == Some([a, b, c])
  {
    SextetRoundTrip(a / 4);
    SextetRoundTrip((a % 4) * 16 + b / 16);
    SextetRoundTrip((b % 16) * 4 + c / 64);
    SextetRoundTrip(c % 64);
    Recover0(a, b);
    Recover1(a, b, c);
    Recover2(b, c);
  }

  /** A final single byte: two characters and two pads. */
  lemma RoundTripOne(a: byte)
    ensures Decode(Encode([a])) == Some([a])
  {
    SextetRoundTrip(a / 4);
    SextetRoundTrip((a % 4) * 16);
    Recover0(a, 0);
    var e := Encode([a]);
    assert e[..4] == e && e[4..] == "";
    assert DecodeQuad(e[..4], |e| == 4) == Some([a]);
    assert Decode(e[4..]) == Some([]);
    assert [a] + [] == [a];
  }

  /** A final pair of bytes: three characters and one pad. */
  lemma RoundTripTwo(a: byte, b: byte)
    ensures Decode(Encode([a, b])) == Some([a, b])
  {
    SextetRoundTrip(a / 4);
    SextetRoundTrip((a % 4) * 16 + b / 16);
    SextetRoundTrip((b % 16) * 4);
    Recover0(a, b);
    Recover1(a, b, 0);
    var e := Encode([a, b]);
    assert e[..4] == e && e[4..] == "";
    assert DecodeQuad(e[..4], |e| == 4) == Some([a, b]);
    assert Decode(e[4..]) == Some([]);
    assert [a, b] + [] == [a, b];
  }

  /** A well-formed leading group followed by a decodable rest decodes to the concatenation. */
  lemma DecodeStep(g: string, rest: string, group: Bytes, tail: Bytes)
    requires |g| == 4
    requires DecodeQuad(g, |rest| == 0) == Some(group)
    requires Decode(rest) == Some(tail)
    ensures Decode(g + rest) == Some(group + tail)
  {
    var t := g + rest;
    assert t[..4] == g && t[4..] == rest;
  }

  /** A leading group of three bytes survives the round trip whenever the rest does. */
  lemma RoundTripGroup(d: Bytes)
    requires |d| >= 3
    requires Decode(Encode(d[3..])) == Some(d[3..])
    ensures Decode(Encode(d)) == Some(d)
  {
    var g := EncodeGroup(d[0], d[1], d[2]);
    var rest := Encode(d[3..]);
    var head: Bytes := [d[0], d[1], d[2]];
    SplitHead(d);
    EncodeCons(d);
    GroupRoundTrip(d[0], d[1], d[2], |rest| == 0);
    DecodeStep(g, rest, head, d[3..]);
  }

  lemma SplitHead(d: Bytes)
    requires |d| >= 3
    ensures [d[0], d[1], d[2]] + d[3..] == d
  {
  }

  lemma EncodeCons(d: Bytes)
    requires |d| >= 3
    ensures Encode(d) == EncodeGroup(d[0], d[1], d[2]) + Encode(d[3..])
  {
  }

  /** Decoding what was encoded gives back the same bytes. */
  lemma {:induction false} Base64RoundTrip(d: Bytes)
    ensures Decode(Encode(d)) == Some(d)
    decreases |d|
  {
    if |d| == 1 {
      assert d == [d[0]];
      RoundTripOne(d[0]);
    } else if |d| == 2 {
      assert d == [d[0], d[1]];
      RoundTripTwo(d[0], d[1]);
    } else if |d| >= 3 {
      Base64RoundTrip(d[3..]);
      RoundTripGroup(d);
    }
  }

  /** Every character of an encoding is in the alphabet or is the pad `=`. */
  lemma {:induction false} EncodeAlphabet(d: Bytes)
    ensures forall i :: 0 <= i < |Encode(d)| ==> IsBase64Char(Encode(d)[i]) || Encode(d)[i] == '='
    decreases |d|
  {
    var e := Encode(d);
    if |d| == 1 {
      SextetRoundTrip(d[0] / 4);
      SextetRoundTrip((d[0] % 4) * 16);
    } else if |d| == 2 {
      SextetRoundTrip(d[0] / 4);
      SextetRoundTrip((d[0] % 4) * 16 + d[1] / 16);
      SextetRoundTrip((d[1] % 16) * 4);
    } else if |d| >= 3 {
      var a, b, c := d[0], d[1], d[2];
      SextetRoundTrip(a / 4);
      SextetRoundTrip((a % 4) * 16 + b / 16);
      SextetRoundTrip((b % 16) * 4 + c / 64);
      SextetRoundTrip(c % 64);
      var g := EncodeGroup(a, b, c);
      var rest := Encode(d[3..]);
      EncodeAlphabet(d[3..]);
      assert e == g + rest;
      forall i | 0 <= i < |e|
        ensures IsBase64Char(e[i]) || e[i] == '='
      {
        if i >= 4 {
          assert e[i] == rest[i - 4];
        }
      }
    }
  }

  /** The payload never contains the comma that ends the data-URL header. */
  lemma EncodeHasNoComma(d: Bytes)
    ensures ',' !in Encode(d)
  {
    var e := Encode(d);
    EncodeAlphabet(d);
    assert forall i :: 0 <= i < |e| ==> e[i] != ',';
  }

  // ---------------------------------------------------------------------------
  // data: URLs, section 3 of RFC 2397

  /** Eight of the image entries of Python's built-in `mimetypes.types_map`. */
  const MimeTypes: map<string, string> := map[
    ".png" := "image/png",
    ".jpg" := "image/jpeg",
    ".jpeg" := "image/jpeg",
    ".gif" := "image/gif",
    ".bmp" := "image/bmp",
    ".tif" := "image/tiff",
    ".tiff" := "image/tiff",
    ".ico" := "image/vnd.microsoft.icon"
  ]

  /** The `data:<mime>;base64,` header for an output format, looked up as `'.' + format.lower()`. */
  function DataHeader(format: string): Result<string, CodecError> {
    var ext := "." + Lower(format);
    if ext in MimeTypes then Ok("data:" + MimeTypes[ext] + ";base64,")
    else Err(UnknownExtension(ext))
  }

  /** `image_to_base64url(image, output_format)`, given the bytes PIL saved. */
  function ImageToDataUrl(saved: Bytes, format: string): (r: Result<string, CodecError>)
    ensures r.Ok? <==> "." + Lower(format) in MimeTypes
    ensures r.Ok? ==> r.value == "data:" + MimeTypes["." + Lower(format)] + ";base64," + Encode(saved)
    ensures r.Err? ==> r.error == UnknownExtension("." + Lower(format))
  {
    var header :- DataHeader(format);
    Ok(header + Encode(saved))
  }

  /** `base64url_to_image(source)`, up to the bytes handed to `Image.open`. */
  function DataUrlToImage(source: string): (r: Result<Bytes, CodecError>)
    ensures r.Ok? ==> CountChar(source, ',') == 1
    ensures r.Err? && r.error.UnpackError? ==> CountChar(source, ',') != 1 && r.error.pieces == CountChar(source, ',') + 1
  {
    SplitCount(source, ',');
    var pieces := Split(source, ',');
    if |pieces| != 2 then Err(UnpackError(|pieces|))
    else
      match Decode(pieces[1])
      case None => Err(Base64Error)
      case Some(d) => Ok(d)
  }

  lemma MimeTypesHaveNoComma(ext: string)
    requires ext in MimeTypes
    ensures ',' !in MimeTypes[ext]
  {
  }

  /** Decoding an encoded image yields the bytes that were encoded. */
  lemma ImageRoundTrip(saved: Bytes, format: string)
    requires ImageToDataUrl(saved, format).Ok?
    ensures DataUrlToImage(ImageToDataUrl(saved, format).value) == Ok(saved)
  {
    var ext := "." + Lower(format);
    MimeTypesHaveNoComma(ext);
    var head := "data:" + MimeTypes[ext] + ";base64";
    var payload := Encode(saved);
    EncodeHasNoComma(saved);
    assert ',' !in head;
    assert ImageToDataUrl(saved, format).value == head + [','] + payload;
    SplitAroundOne(head, payload, ',');
    Base64RoundTrip(saved);
  }

  /** Decoding succeeds only on text with exactly one comma, as the tuple unpacking demands. */
  lemma DecodeNeedsOneComma(source: string)
    ensures CountChar(source, ',') != 1 ==> DataUrlToImage(source).Err?
    ensures DataUrlToImage(source).Err? && CountChar(source, ',') != 1 ==>
      DataUrlToImage(source).error == UnpackError(CountChar(source, ',') + 1)
  {
    SplitCount(source, ',');
  }

  /** A one-comma text decodes exactly when the part after the comma is Base64. */
  lemma {:induction false} DecodeOneComma(head: string, payload: string)
    requires ',' !in head && ',' !in payload
    ensures DataUrlToImage(head + [','] + payload) ==
      (match Decode(payload) case None => Err(Base64Error) case Some(d) => Ok(d))
  {
    SplitAroundOne(head, payload, ',');
  }

  // ---------------------------------------------------------------------------
  // get_ui_file_path

  /** `posixpath.join(a, b)`: an absolute `b` replaces `a`; otherwise one `/` separates them. */
  function PathJoin(a: string, b: string): (r: string)
    ensures EndsWith(r, b)
  {
    assert (a + b)[|a|..] == b;
    assert (a + "/" + b)[|a + "/"|..] == b;
    if StartsWith(b, "/") then b
    else if a == "" || EndsWith(a, "/") then a + b
    else a + "/" + b
  }

  /** `get_ui_file_path(filename)` where `moduleDir` is `dirname(realpath(__file__))`. */
  function UiFilePath(moduleDir: string, filename: string): (r: string)
    ensures EndsWith(r, filename)
  {
    PathJoin(PathJoin(moduleDir, "ui"), filename)
  }

  /** A relative file name lands in the `ui` directory beside the module. */
  lemma UiFilePathRelative(moduleDir: string, filename: string)
    requires moduleDir != "" && !EndsWith(moduleDir, "/")
    requires !StartsWith(filename, "/")
    ensures UiFilePath(moduleDir, filename) == moduleDir + "/ui/" + filename
  {
    var ui := moduleDir + "/" + "ui";
    assert !StartsWith("ui", "/");
    assert ui[|ui| - 1..] == "i";
  }

  /** An absolute file name is returned unchanged, whatever the module directory. */
  lemma UiFilePathAbsolute(moduleDir: string, filename: string)
    requires StartsWith(filename, "/")
    ensures UiFilePath(moduleDir, filename) == filename
  {
  }
}
