/**
 * image_ai_utils/common/client.py: the client of the inference server.
 * Long generation calls go over a WebSocket: the client sends a credentials
 * frame, then the request frame, then reads JSON frames whose `status` is
 * `progress` (reported to a callback) until the server closes; the last
 * frame must be `finished`. Upscaling and face restoration are single HTTP
 * POSTs. The network is an input: a WebSocket session is the list of frames
 * the server sends and how the connection ends, an HTTP call is the reply
 * (or the exception httpx raised).
 */
module Client {
  import opened Wrappers
  import opened Text
  import opened Json
  import Codec

  type Bytes = Codec.Bytes

  // ---------------------------------------------------------------------------
  // Enumerations sent on the wire as their string values

  datatype ScalingMode = Shrink | Grow

  function ScalingModeValue(m: ScalingMode): string {
    match m
    case Shrink => "shrink"
    case Grow => "grow"
  }

  /**
   * ESRGANModel. ESRNET_X4_PLUS is declared with the value of X4_PLUS, so
   * Python's Enum makes it an alias of that member, not a seventh member.
   */
  datatype EsrganModel = GeneralX4V3 | X4Plus | X2Plus | OfficialX4 | X4PlusAnime6B | AnimeVideoV3

  const EsrnetX4Plus: EsrganModel := X4Plus

  function EsrganValue(m: EsrganModel): string {
    match m
    case GeneralX4V3 => "general_x4_v3"
    case X4Plus => "x4_plus"
    case X2Plus => "x2_plus"
    case OfficialX4 => "official_x4"
    case X4PlusAnime6B => "x4_plus_anime_6b"
    case AnimeVideoV3 => "anime_video_v3"
  }

  /** `ESRGANModel(value)`: the member with that value, if any. */
  function EsrganFromValue(v: string): Option<EsrganModel> {
    if v == "general_x4_v3" then Some(GeneralX4V3)
    else if v == "x4_plus" then Some(X4Plus)
    else if v == "x2_plus" then Some(X2Plus)
    else if v == "official_x4" then Some(OfficialX4)
    else if v == "x4_plus_anime_6b" then Some(X4PlusAnime6B)
    else if v == "anime_video_v3" then Some(AnimeVideoV3)
    else None
  }

  /** Every member is found again from its value, so no two members share one; the alias is X4_PLUS. */
  lemma EsrganValuesIdentify(m: EsrganModel)
    ensures EsrganFromValue(EsrganValue(m)) == Some(m)
    ensures EsrganValue(EsrnetX4Plus) == EsrganValue(X4Plus) == "x4_plus"
  {
  }

  datatype GfpganModel = V1_3 | V1_2 | V1

  function GfpganValue(m: GfpganModel): string {
    match m
    case V1_3 => "V1.3"
    case V1_2 => "V1.2"
    case V1 => "V1"
  }

  // ---------------------------------------------------------------------------
  // Errors

  datatype ClientError =
    | WebSocketError(message: string)   // WebSocketException(message)
    | TypeError(message: string)
    | KeyError(key: string)
    | AttributeError(name: string)
    | HttpStatusError(status: int)       // httpx.HTTPStatusError from raise_for_status
    | HttpFailure(typeName: string)      // any exception httpx raised
    | JsonError                          // `response.json()` on a body that is not JSON
    | ImageError(cause: Codec.CodecError)

  // ---------------------------------------------------------------------------
  // Base URLs

  /** `base_url` with `/` appended if missing, then every `http://` and then every `https://` deleted. */
  function Remainder(baseUrl: string): string {
    var withSlash := if EndsWith(baseUrl, "/") then baseUrl else baseUrl + "/";
    ReplaceAll(ReplaceAll(withSlash, "http://", ""), "https://", "")
  }

  function HttpScheme(useTls: bool): string {
    if useTls then "https://" else "http://"
  }

  function WebSocketScheme(useTls: bool): string {
    if useTls then "wss://" else "ws://"
  }

  /** `https://` and `wss://` exactly with TLS; the two URLs differ only in their scheme. */
  lemma SchemesFollowTls(baseUrl: string, useTls: bool)
    ensures StartsWith(HttpScheme(useTls) + Remainder(baseUrl), "https://") <==> useTls
    ensures StartsWith(WebSocketScheme(useTls) + Remainder(baseUrl), "wss://") <==> useTls
  {
    var r := Remainder(baseUrl);
    if !useTls {
      assert ("http://" + r)[4] == ':';
      assert ("ws://" + r)[2] == ':';
    }
  }

  /** A host with neither scheme in it. */
  predicate Clean(h: string) {
    !Contains(h, "http://") && !Contains(h, "https://")
  }

  lemma {:induction false} NoHttpInsideHttps(x: string)
    requires !Contains(x, "http://")
    ensures !Contains("https://" + x, "http://")
  {
    var s := "https://" + x;
    forall i | 0 <= i ensures !OccursAt(s, "http://", i) {
      if OccursAt(x, "http://", i - 8) {
        OccursContains(x, "http://", i - 8);
      }
      if i + 7 <= |s| {
        if i >= 8 {
          assert s[8..] == x;
          assert s[i..i + 7] == s[8..][i - 8..i - 1];
        } else if i == 0 {
          assert s[i..i + 7][4] == 's';
        } else {
          assert s[i..i + 7][0] == s[i] != 'h';
        }
      }
    }
    ContainsIffOccurs(s, "http://");
  }

  lemma {:induction false} StripLeading(p: string, x: string)
    requires |p| > 0
    requires !Contains(x, p)
    ensures ReplaceAll(p + x, p, "") == x
  {
    assert (p + x)[..|p|] == p;
    assert (p + x)[|p|..] == x;
    ReplaceAllAbsent(x, p, "");
  }

  /** A string not starting with the pattern's first character keeps that character. */
  lemma ReplaceAllStep(s: string, p: string, r: string)
    requires |p| > 0 && |s| > 0 && s[0] != p[0]
    ensures ReplaceAll(s, p, r) == [s[0]] + ReplaceAll(s[1..], p, r)
  {
    if |s| >= |p| {
      assert s[..|p|][0] != p[0];
    }
  }

  /**
   * A server address typed with `http://`, with `https://` or with no scheme
   * at all normalises to the same remainder: the host with one trailing `/`.
   */
  lemma SchemeIsDropped(scheme: string, host: string)
    requires scheme == "" || scheme == "http://" || scheme == "https://"
    requires host != ""
    requires Clean(if EndsWith(host, "/") then host else host + "/")
    ensures Remainder(scheme + host) == if EndsWith(host, "/") then host else host + "/"
  {
    var h := if EndsWith(host, "/") then host else host + "/";
    assert EndsWith(scheme + host, "/") <==> EndsWith(host, "/") by {
      assert (scheme + host)[|scheme + host| - 1] == host[|host| - 1];
    }
    assert (if EndsWith(scheme + host, "/") then scheme + host else scheme + host + "/") == scheme + h;
    if scheme == "" {
      assert scheme + h == h;
      ReplaceAllAbsent(h, "http://", "");
      ReplaceAllAbsent(h, "https://", "");
    } else if scheme == "http://" {
      StripLeading("http://", h);
      ReplaceAllAbsent(h, "https://", "");
    } else {
      NoHttpInsideHttps(h);
      ReplaceAllAbsent(scheme + h, "http://", "");
      StripLeading("https://", h);
    }
  }

  /** Not only a leading scheme goes: one buried in the path is deleted too. */
  lemma InnerSchemeRemoved()
    ensures Remainder("proxy/http://host") == "proxy/host/"
  {
    assert EndsWith("proxy/http://host", "t");
    assert "proxy/http://host" + "/" == "proxy/http://host/";
    InnerHttpRemoved();
    NoHttpsInResult();
    ReplaceAllAbsent("proxy/host/", "https://", "");
  }

  /**
   * One pass of deletion can join the text around an occurrence into a new
   * one, so no general "no `http://` is left" holds: this address normalises
   * to a remainder that is itself a scheme.
   */
  lemma SchemeCanReappear()
    ensures Remainder("hthttp://tp://") == "http://"
  {
    assert EndsWith("hthttp://tp://", "/");
    JoinedScheme();
    NotContainsShort("http://", "https://");
    ReplaceAllAbsent("http://", "https://", "");
  }

  /** The deletion behind SchemeCanReappear: `h`, then `t` before the scheme, then `tp://` after it. */
  lemma JoinedScheme()
    ensures ReplaceAll("hthttp://tp://", "http://", "") == "http://"
  {
    var p, b := "http://", "tp://";
    assert "hthttp://tp://" == "h" + ("t" + p + b);
    assert "h" + "t" + b == p;
    NotContainsShort(b, p);
    DeleteInside("h", "t", p, b);
  }

  /** Deleting `p` from `h + t + p + b` rejoins `h + t + b`, which is `p` again. */
  lemma DeleteInside(h: string, t: string, p: string, b: string)
    requires |h| == 1 && |t| == 1 && 2 < |p| && t[0] != p[0] && p[0] != p[2]
    requires !Contains(b, p) && h + t + b == p
    ensures ReplaceAll(h + (t + p + b), p, "") == p
  {
    var inner := t + p + b;
    assert inner[1] == p[0];
    KeptBeforeScheme(h, inner, p);
    DeleteOne(t, p, b);
    assert h + (t + b) == h + t + b;
  }

  /** A leading character is kept when the pattern does not match there, here at its third character. */
  lemma KeptBeforeScheme(h: string, x: string, p: string)
    requires |h| == 1 && 2 < |p| <= |x| + 1 && x[1] != p[2]
    ensures ReplaceAll(h + x, p, "") == h + ReplaceAll(x, p, "")
  {
    assert (h + x)[..|p|][2] == x[1];
    assert (h + x)[1..] == x;
  }

  /** Deleting `p` from `a + p + b` leaves `a + b` when `a` never starts a match and `b` holds none. */
  lemma {:induction false} DeleteOne(a: string, p: string, b: string)
    requires |p| > 0
    requires forall i :: 0 <= i < |a| ==> a[i] != p[0]
    requires !Contains(b, p)
    ensures ReplaceAll(a + p + b, p, "") == a + b
    decreases |a|
  {
    if |a| == 0 {
      assert a + p + b == p + b;
      StripLeading(p, b);
    } else {
      ReplaceAllStep(a + p + b, p, "");
      assert (a + p + b)[1..] == a[1..] + p + b;
      DeleteOne(a[1..], p, b);
      assert a + b == [a[0]] + (a[1..] + b);
    }
  }

  lemma InnerHttpRemoved()
    ensures ReplaceAll("proxy/http://host/", "http://", "") == "proxy/host/"
  {
    NotContainsShort("host/", "http://");
    DeleteOne("proxy/", "http://", "host/");
    assert "proxy/" + "http://" + "host/" == "proxy/http://host/";
    assert "proxy/" + "host/" == "proxy/host/";
  }

  lemma NoHttpsInResult()
    ensures !Contains("proxy/host/", "https://")
  {
    var t := "proxy/host/";
    NotContainsShort(t[4..], "https://");
    var k := 4;
    while k > 0
      invariant 0 <= k <= 4
      invariant !Contains(t[k..], "https://")
    {
      assert t[k - 1..][..8][0] == t[k - 1] != 'h';
      assert t[k - 1..][1..] == t[k..];
      k := k - 1;
    }
  }

  // ---------------------------------------------------------------------------
  // The WebSocket exchange

  /** Close code 1000, `websocket.STATUS_NORMAL`. */
  const StatusNormal: int := 1000

  /** A frame from the server: its text and what `json.loads` made of it (None: JSONDecodeError). */
  datatype Frame = Frame(raw: string, parsed: Option<Value>)

  datatype Ending =
    | Closed(code: int, message: string) // the server closed the socket; `on_close` runs
    | Dropped                            // WebSocketConnectionClosedException reaches `on_error`

  /** What the network does with one `run_forever`. */
  datatype Transport =
    | Refused                                    // ConnectionRefusedError: `on_open` never runs
    | Session(frames: seq<Frame>, ending: Ending)

  /** What `on_message` leaves behind: the new `response`, and the value passed to the callback. */
  datatype Handled = Handled(response: Value, reported: Option<Value>)

  /** `on_message` for one frame; an Err is the exception it raises. */
  function OnMessage(f: Frame, hasCallback: bool): (r: Result<Handled, ClientError>)
    ensures r.Ok? ==> f.parsed == Some(r.value.response)
    ensures r.Ok? ==> r.value.response.Obj? && "status" in r.value.response.fields
    ensures r.Ok? ==> (r.value.reported.Some? <==> r.value.response.fields["status"] == Str("progress"))
    ensures f.parsed.None? ==> r.Err? && r.error.WebSocketError?
    ensures f.parsed.Some? && f.parsed.value.Obj? && "status" !in f.parsed.value.fields ==>
      r.Err? && r.error.WebSocketError?
  {
    match f.parsed
    case None => Err(WebSocketError("Client received message that is not in json format:\n" + f.raw))
    case Some(v) =>
      match v
      case Obj(m) =>
        if "status" !in m then Err(WebSocketError("Wrong response format:\n" + f.raw))
        else if m["status"] != Str("progress") then Ok(Handled(v, None))
        else if "progress" !in m then Err(KeyError("progress"))
        else if !hasCallback then Err(TypeError("'NoneType' object is not callable"))
        else Ok(Handled(v, Some(m["progress"])))
      // `'status' not in s` is a substring test on a str and a membership test on a list
      case Str(s) =>
        if Contains(s, "status") then Err(TypeError("string indices must be integers"))
        else Err(WebSocketError("Wrong response format:\n" + f.raw))
      case Arr(items) =>
        if Str("status") in items then Err(TypeError("list indices must be integers or slices, not str"))
        else Err(WebSocketError("Wrong response format:\n" + f.raw))
      case _ => Err(TypeError("argument of type is not iterable"))
  }

  /** The state `_websocket_request` carries between frames. */
  datatype Pump = Pump(response: Option<Value>, reported: seq<Value>, error: Option<ClientError>)

  const Start: Pump := Pump(None, [], None)

  /** Feeding frames one at a time; the first exception ends the exchange. */
  function Feed(st: Pump, frames: seq<Frame>, hasCallback: bool): (r: Pump)
    ensures st.error.Some? ==> r == st
    decreases |frames|
  {
    if |frames| == 0 || st.error.Some? then st
    else
      match OnMessage(frames[0], hasCallback)
      case Err(e) => Pump(st.response, st.reported, Some(e))
      case Ok(h) =>
        var reported := if h.reported.Some? then st.reported + [h.reported.value] else st.reported;
        Feed(Pump(Some(h.response), reported, None), frames[1..], hasCallback)
  }

  /** Values once handed to the callback stay reported: later frames only append. */
  lemma {:induction false} FeedKeepsReports(st: Pump, frames: seq<Frame>, hasCallback: bool)
    ensures st.reported <= Feed(st, frames, hasCallback).reported
    decreases |frames|
  {
    if |frames| > 0 && st.error.None? {
      match OnMessage(frames[0], hasCallback)
      case Err(_) =>
      case Ok(h) =>
        var reported := if h.reported.Some? then st.reported + [h.reported.value] else st.reported;
        FeedKeepsReports(Pump(Some(h.response), reported, None), frames[1..], hasCallback);
    }
  }

  /** `not response or response.get('status') != 'finished'` fails for this response. */
  predicate IsFinished(response: Option<Value>) {
    response.Some? && response.value.Obj? && "status" in response.value.fields
    && response.value.fields["status"] == Str("finished")
  }

  /** `on_close` */
  function OnClose(response: Option<Value>, code: int, message: string): (r: Result<Body, ClientError>)
    ensures r.Ok? <==> code == StatusNormal && IsFinished(response)
    ensures code != StatusNormal ==> r == Err(WebSocketError(message))
    ensures r.Ok? ==> response == Some(Obj(r.value))
  {
    if code != StatusNormal then Err(WebSocketError(message))
    else if !IsFinished(response) then Err(WebSocketError("Haven't received "))
    else Ok(response.value.fields)
  }

  /** The callback values and the outcome of one exchange. */
  datatype Exchanged = Exchanged(reported: seq<Value>, result: Result<Body, ClientError>)

  function Exchange(t: Transport, hasCallback: bool): (r: Exchanged)
    ensures t.Refused? ==> r == Exchanged([], Err(WebSocketError("Couldn't connect to server")))
    ensures r.result.Ok? ==> t.Session? && t.ending.Closed? && t.ending.code == StatusNormal
  {
    match t
    case Refused => Exchanged([], Err(WebSocketError("Couldn't connect to server")))
    case Session(frames, ending) =>
      var st := Feed(Start, frames, hasCallback);
      if st.error.Some? then Exchanged(st.reported, Err(st.error.value))
      else
        match ending
        case Dropped =>
          Exchanged(st.reported, Err(WebSocketError("Connection to server closed unexpectedly. See server logs for details")))
        case Closed(code, message) => Exchanged(st.reported, OnClose(st.response, code, message))
  }

  /** The frame `on_open` sends first. */
  function Credentials(username: string, password: string): Value {
    Obj(map["username" := Str(username), "password" := Str(password)])
  }

  /** An independent account of the callback values: the `progress` of each progress frame, in order. */
  function ProgressValues(frames: seq<Frame>): seq<Value>
    decreases |frames|
  {
    if |frames| == 0 then []
    else
      var f := frames[0];
      var rest := ProgressValues(frames[1..]);
      if f.parsed.Some? && f.parsed.value.Obj? && "status" in f.parsed.value.fields
         && f.parsed.value.fields["status"] == Str("progress") && "progress" in f.parsed.value.fields
      then [f.parsed.value.fields["progress"]] + rest
      else rest
  }

  /** Every frame is handled without raising. */
  predicate AllHandled(frames: seq<Frame>, hasCallback: bool) {
    forall i :: 0 <= i < |frames| ==> OnMessage(frames[i], hasCallback).Ok?
  }

  lemma {:induction false} FeedClean(st: Pump, frames: seq<Frame>, hasCallback: bool)
    requires st.error.None?
    ensures Feed(st, frames, hasCallback).error.None? <==> AllHandled(frames, hasCallback)
    ensures AllHandled(frames, hasCallback) ==>
      Feed(st, frames, hasCallback).reported == st.reported + ProgressValues(frames)
    ensures AllHandled(frames, hasCallback) && |frames| > 0 ==>
      Feed(st, frames, hasCallback).response == frames[|frames| - 1].parsed
    ensures AllHandled(frames, hasCallback) && |frames| == 0 ==>
      Feed(st, frames, hasCallback).response == st.response
    decreases |frames|
  {
    if |frames| > 0 {
      var h := OnMessage(frames[0], hasCallback);
      assert AllHandled(frames, hasCallback) ==> AllHandled(frames[1..], hasCallback) by {
        if AllHandled(frames, hasCallback) {
          forall i | 0 <= i < |frames[1..]| ensures OnMessage(frames[1..][i], hasCallback).Ok? {
            assert frames[1..][i] == frames[i + 1];
          }
        }
      }
      if h.Ok? {
        var reported := if h.value.reported.Some? then st.reported + [h.value.reported.value] else st.reported;
        var next := Pump(Some(h.value.response), reported, None);
        FeedClean(next, frames[1..], hasCallback);
        if AllHandled(frames[1..], hasCallback) {
          forall i | 0 <= i < |frames| ensures OnMessage(frames[i], hasCallback).Ok? {
            if i > 0 {
              assert frames[i] == frames[1..][i - 1];
            }
          }
        }
        if |frames| > 1 {
          assert frames[1..][|frames[1..]| - 1] == frames[|frames| - 1];
        }
      } else {
        assert !AllHandled(frames, hasCallback);
      }
    }
  }

  /**
   * The exchange succeeds exactly when the server accepted the connection,
   * every frame was handled, the socket closed normally and the last frame
   * says `finished`; the body returned is that last frame, and the callback
   * saw every progress value in arrival order.
   */
  lemma ExchangeSucceeds(t: Transport, hasCallback: bool)
    ensures Exchange(t, hasCallback).result.Ok? <==>
      && t.Session?
      && AllHandled(t.frames, hasCallback)
      && t.ending.Closed? && t.ending.code == StatusNormal
      && |t.frames| > 0 && IsFinished(t.frames[|t.frames| - 1].parsed)
    ensures Exchange(t, hasCallback).result.Ok? ==>
      && Some(Obj(Exchange(t, hasCallback).result.value)) == t.frames[|t.frames| - 1].parsed
      && Exchange(t, hasCallback).reported == ProgressValues(t.frames)
  {
    if t.Session? {
      FeedClean(Start, t.frames, hasCallback);
    }
  }

  /** A socket closed with any code but 1000 fails with the close message, whatever was received. */
  lemma AbnormalCloseFails(frames: seq<Frame>, code: int, message: string, hasCallback: bool)
    requires code != StatusNormal
    requires AllHandled(frames, hasCallback)
    ensures Exchange(Session(frames, Closed(code, message)), hasCallback).result == Err(WebSocketError(message))
  {
    FeedClean(Start, frames, hasCallback);
  }

  /** A normal close with nothing received fails: no `finished` frame came. */
  lemma SilentServerFails(code: int, message: string, hasCallback: bool)
    ensures Exchange(Session([], Closed(code, message)), hasCallback).result.Err?
  {
  }

  // ---------------------------------------------------------------------------
  // Request bodies

  /** The keys `do_diffusion_request` writes itself. */
  const DiffusionKeys: set<string> :=
    {"prompt", "num_inference_steps", "guidance_scale", "num_variants", "output_format", "scaling_mode", "seed"}

  /** The named parameters of `do_diffusion_request`, which Python keeps out of `**kwargs`. */
  const DiffusionParameters: set<string> :=
    {"request", "prompt", "num_variants", "num_inference_steps", "guidance_scale", "seed", "progress_callback",
     "scaling_mode"}

  /**
   * The body `do_diffusion_request` sends: the fixed keys, then `kwargs`, then
   * `seed` if given. A keyword argument can only override `output_format`.
   */
  function DiffusionBody(prompt: string, numVariants: int, numInferenceSteps: int, guidanceScale: real,
                         seed: OptInt, scalingMode: ScalingMode, kwargs: Body): (r: Body)
    requires forall k :: k in kwargs ==> k !in DiffusionParameters
    ensures "seed" in r <==> seed.SomeInt?
    ensures seed.SomeInt? ==> "seed" in r && r["seed"] == Int(seed.n)
    ensures "prompt" in r && r["prompt"] == Str(prompt)
    ensures "num_variants" in r && r["num_variants"] == Int(numVariants)
    ensures "num_inference_steps" in r && r["num_inference_steps"] == Int(numInferenceSteps)
    ensures "guidance_scale" in r && r["guidance_scale"] == Num(guidanceScale)
    ensures "scaling_mode" in r && r["scaling_mode"] == Str(ScalingModeValue(scalingMode))
    ensures "output_format" !in kwargs ==> "output_format" in r && r["output_format"] == Str("PNG")
    ensures forall k :: k in kwargs ==> k in r && r[k] == kwargs[k]
    ensures forall k :: k in r ==> k in kwargs || k in DiffusionKeys
  {
    var base := map[
      "prompt" := Str(prompt),
      "num_inference_steps" := Int(numInferenceSteps),
      "guidance_scale" := Num(guidanceScale),
      "num_variants" := Int(numVariants),
      "output_format" := Str("PNG"),
      "scaling_mode" := Str(ScalingModeValue(scalingMode))
    ];
    WithSeed(Update(base, kwargs), seed)
  }

  /** The `PNG` output format names a file extension with a known MIME type. */
  lemma PngIsKnown()
    ensures "." + Lower("PNG") == ".png"
    ensures ".png" in Codec.MimeTypes && Codec.MimeTypes[".png"] == "image/png"
  {
    assert Lower("PNG") == "png";
  }

  /** Saving as `PNG` gives the `image/png` header followed by the Base64 of the bytes. */
  lemma PngUrl(saved: Bytes)
    ensures Codec.ImageToDataUrl(saved, "PNG") == Ok("data:image/png;base64," + Codec.Encode(saved))
  {
    PngIsKnown();
    assert "data:" + "image/png" + ";base64," == "data:image/png;base64,";
  }

  /** `image_to_base64url(image).decode()` for the PNG bytes PIL saved. */
  function PngDataUrl(saved: Bytes): (r: string)
    ensures Codec.DataUrlToImage(r) == Ok(saved)
    ensures StartsWith(r, "data:image/png;base64,")
  {
    PngUrl(saved);
    Codec.ImageRoundTrip(saved, "PNG");
    var head := "data:image/png;base64,";
    var r := head + Codec.Encode(saved);
    assert r[..|head|] == head;
    r
  }

  /**
   * What `for image in images` walks over: the items of a list, or the
   * one-character strings of a string. A dict yields its keys; the model
   * keeps no key order, so only the empty dict is iterated here. Numbers,
   * booleans and null are not iterable.
   */
  function Entries(v: Value): (r: Option<seq<Value>>)
    ensures v.Arr? ==> r == Some(v.items)
    ensures v.Str? ==> r.Some? && |r.value| == |v.s| && forall i :: 0 <= i < |v.s| ==> r.value[i] == Str([v.s[i]])
    ensures v == Obj(map[]) ==> r == Some([])
    ensures r.Some? <==> v.Arr? || v.Str? || v == Obj(map[])
  {
    match v
    case Arr(items) => Some(items)
    case Str(s) => Some(seq(|s|, i requires 0 <= i < |s| => Str([s[i]])))
    case Obj(m) => if m == map[] then Some([]) else None
    case _ => None
  }

  /** `[base64url_to_image(image.encode()) for image in images]`: one image per entry, in order. */
  function DecodeImages(items: seq<Value>): (r: Result<seq<Bytes>, ClientError>)
    ensures r.Ok? ==> |r.value| == |items|
    ensures r.Ok? ==> forall i :: 0 <= i < |items| ==>
      items[i].Str? && Codec.DataUrlToImage(items[i].s) == Ok(r.value[i])
    ensures r.Err? ==> exists i :: 0 <= i < |items| && (!items[i].Str? || Codec.DataUrlToImage(items[i].s).Err?)
    decreases |items|
  {
    if |items| == 0 then Ok([])
    else
      var first :- DecodeImage(items[0]);
      var rest :- DecodeImages(items[1..]);
      assert forall i :: 1 <= i < |items| ==> items[i] == items[1..][i - 1];
      Ok([first] + rest)
  }

  /** `base64url_to_image(value.encode())` for one JSON value. */
  function DecodeImage(v: Value): (r: Result<Bytes, ClientError>)
    ensures r.Ok? <==> v.Str? && Codec.DataUrlToImage(v.s).Ok?
    ensures r.Ok? ==> r.value == Codec.DataUrlToImage(v.s).value
  {
    if !v.Str? then Err(AttributeError("encode"))
    else
      match Codec.DataUrlToImage(v.s)
      case Err(e) => Err(ImageError(e))
      case Ok(d) => Ok(d)
  }

  /** `response['result'][key]`. */
  function ResultEntry(response: Body, key: string): (r: Result<Value, ClientError>)
    ensures r.Ok? <==> "result" in response && response["result"].Obj? && key in response["result"].fields
    ensures r.Ok? ==> r.value == response["result"].fields[key]
  {
    if "result" !in response then Err(KeyError("result"))
    else
      match response["result"]
      case Obj(m) => if key in m then Ok(m[key]) else Err(KeyError(key))
      case _ => Err(TypeError("indices must be integers"))
  }

  /** The images of a finished diffusion exchange. */
  function ResultImages(response: Body): (r: Result<seq<Bytes>, ClientError>)
    ensures r.Ok? ==> "result" in response && response["result"].Obj? && "images" in response["result"].fields
    ensures r.Ok? ==> Entries(response["result"].fields["images"]).Some?
    ensures r.Ok? ==> |r.value| == |Entries(response["result"].fields["images"]).value|
    ensures r.Ok? ==> forall i :: 0 <= i < |r.value| ==>
      DecodeImage(Entries(response["result"].fields["images"]).value[i]) == Ok(r.value[i])
  {
    var images :- ResultEntry(response, "images");
    IteratedImages(images)
  }

  /** The list comprehension over whatever `images` holds; a value that is not iterable raises TypeError. */
  function IteratedImages(images: Value): (r: Result<seq<Bytes>, ClientError>)
    ensures images.Arr? ==> r == DecodeImages(images.items)
    ensures Entries(images).None? ==> r.Err? && r.error.TypeError?
  {
    match Entries(images)
    case None => Err(TypeError("object is not iterable"))
    case Some(items) => DecodeImages(items)
  }

  /**
   * Iterating an empty string or an empty dict gives no images at all, while
   * a non-empty string fails on its first character unless that is a comma.
   */
  lemma StringImages(s: string)
    ensures s == "" ==> IteratedImages(Str(s)) == Ok([])
    ensures IteratedImages(Obj(map[])) == Ok([])
    ensures s != "" && s[0] != ',' ==> IteratedImages(Str(s)).Err?
  {
    if s != "" && s[0] != ',' {
      var first := [s[0]];
      assert first[1..] == [];
      assert CountChar(first, ',') == 0;
      assert Entries(Str(s)).value[0] == Str(first);
      assert Codec.DataUrlToImage(first).Err?;
    }
  }

  // ---------------------------------------------------------------------------
  // HTTP

  /** The outcome of one httpx call. `body` is None when the text is not JSON. */
  datatype HttpReply =
    | Response(status: int, text: string, body: Option<Value>)
    | Raised(typeName: string)  // the exception's `type(e)`, as an f-string renders it

  /** A POST as httpx sends it: URL, JSON body and basic-auth credentials. */
  datatype Post = Post(url: string, body: Body, username: string, password: string)

  /** `raise_for_status()` followed by `response.json()['image']` and decoding. */
  function PostedImage(reply: HttpReply): (r: Result<Bytes, ClientError>)
    ensures r.Ok? ==> reply.Response? && 200 <= reply.status < 300
    ensures reply.Response? && !(200 <= reply.status < 300) ==> r == Err(HttpStatusError(reply.status))
    ensures (reply.Response? && 200 <= reply.status < 300 && reply.body.Some? && reply.body.value.Obj?
             && "image" in reply.body.value.fields) ==> r == DecodeImage(reply.body.value.fields["image"])
  {
    match reply
    case Raised(t) => Err(HttpFailure(t))
    case Response(status, _, body) =>
      if !(200 <= status < 300) then Err(HttpStatusError(status))
      else if body.None? then Err(JsonError)
      else if !body.value.Obj? then Err(TypeError("indices must be integers"))
      else if "image" !in body.value.fields then Err(KeyError("image"))
      else DecodeImage(body.value.fields["image"])
  }

  // ---------------------------------------------------------------------------
  // The client object

  class ImageAIUtilsClient {
    var baseHttpUrl: string
    var baseWebSocketUrl: string
    var username: string
    var password: string

    /** `__init__`: both base URLs share the normalised remainder; TLS picks the schemes. */
    constructor (baseUrl: string, username: string, password: string, useTls: bool)
      ensures baseHttpUrl == HttpScheme(useTls) + Remainder(baseUrl)
      ensures baseWebSocketUrl == WebSocketScheme(useTls) + Remainder(baseUrl)
      ensures this.username == username && this.password == password
    {
      var url := baseUrl;
      if !EndsWith(url, "/") {
        url := url + "/";
      }
      url := ReplaceAll(url, "http://", "");
      url := ReplaceAll(url, "https://", "");
      if useTls {
        baseHttpUrl := "https://" + url;
        baseWebSocketUrl := "wss://" + url;
      } else {
        baseHttpUrl := "http://" + url;
        baseWebSocketUrl := "ws://" + url;
      }
      this.username := username;
      this.password := password;
    }

    /**
     * `_websocket_request`: the frames sent (credentials first, then the
     * request), the values handed to the callback, and the last frame
     * received or the exception raised.
     */
    method WebSocketRequest(request: string, body: Body, hasCallback: bool, transport: Transport)
      returns (url: string, sent: seq<Value>, reported: seq<Value>, result: Result<Body, ClientError>)
      ensures url == baseWebSocketUrl + request
      ensures transport.Refused? ==> sent == []
      ensures transport.Session? ==> sent == [Credentials(username, password), Obj(body)]
      ensures Exchanged(reported, result) == Exchange(transport, hasCallback)
    {
      url := baseWebSocketUrl + request;
      if transport.Refused? {
        return url, [], [], Err(WebSocketError("Couldn't connect to server"));
      }
      // on_open
      sent := [Credentials(username, password)];
      sent := sent + [Obj(body)];

      var frames := transport.frames;
      var response: Option<Value> := None;
      reported := [];
      var i := 0;
      while i < |frames|
        invariant 0 <= i <= |frames|
        invariant Feed(Start, frames, hasCallback) == Feed(Pump(response, reported, None), frames[i..], hasCallback)
      {
        var handled := OnMessage(frames[i], hasCallback);
        if handled.Err? {
          assert Feed(Start, frames, hasCallback) == Pump(response, reported, Some(handled.error));
          return url, sent, reported, Err(handled.error);
        }
        response := Some(handled.value.response);
        if handled.value.reported.Some? {
          reported := reported + [handled.value.reported.value];
        }
        assert frames[i..][1..] == frames[i + 1..];
        i := i + 1;
      }
      match transport.ending
      case Dropped =>
        result := Err(WebSocketError("Connection to server closed unexpectedly. See server logs for details"));
      case Closed(code, message) =>
        result := OnClose(response, code, message);
    }

    /**
     * `do_diffusion_request`: build the body, run the exchange on endpoint
     * `request`, and decode `result.images`.
     */
    method DoDiffusionRequest(request: string, prompt: string, numVariants: int, numInferenceSteps: int,
                              guidanceScale: real, seed: OptInt, hasCallback: bool, scalingMode: ScalingMode,
                              kwargs: Body, transport: Transport)
      returns (url: string, sent: seq<Value>, reported: seq<Value>, images: Result<seq<Bytes>, ClientError>)
      requires forall k :: k in kwargs ==> k !in DiffusionParameters
      ensures url == baseWebSocketUrl + request
      ensures transport.Session? ==>
        sent == [Credentials(username, password),
                 Obj(DiffusionBody(prompt, numVariants, numInferenceSteps, guidanceScale, seed, scalingMode, kwargs))]
      ensures reported == Exchange(transport, hasCallback).reported
      ensures Exchange(transport, hasCallback).result.Err? ==> images == Err(Exchange(transport, hasCallback).result.error)
      ensures Exchange(transport, hasCallback).result.Ok? ==> images == ResultImages(Exchange(transport, hasCallback).result.value)
    {
      var body := DiffusionBody(prompt, numVariants, numInferenceSteps, guidanceScale, seed, scalingMode, kwargs);
      var response;
      url, sent, reported, response := WebSocketRequest(request, body, hasCallback, transport);
      if response.Err? {
        return url, sent, reported, Err(response.error);
      }
      images := ResultImages(response.value);
    }

    /** `text_to_image`: endpoint `text_to_image`, with `aspect_ratio` added to the body. */
    method TextToImage(prompt: string, aspectRatio: real, numVariants: int, numInferenceSteps: int,
                       guidanceScale: real, seed: OptInt, hasCallback: bool, scalingMode: ScalingMode,
                       transport: Transport)
      returns (url: string, sent: seq<Value>, reported: seq<Value>, images: Result<seq<Bytes>, ClientError>)
      ensures url == baseWebSocketUrl + "text_to_image"
      ensures transport.Session? ==> (|sent| == 2 && sent[1].Obj?
        && sent[1].fields == DiffusionBody(prompt, numVariants, numInferenceSteps, guidanceScale, seed, scalingMode,
                                           map["aspect_ratio" := Num(aspectRatio)]))
      ensures reported == Exchange(transport, hasCallback).reported
      ensures Exchange(transport, hasCallback).result.Err? ==> images == Err(Exchange(transport, hasCallback).result.error)
      ensures Exchange(transport, hasCallback).result.Ok? ==> images == ResultImages(Exchange(transport, hasCallback).result.value)
    {
      KeywordsAreNotParameters();
      url, sent, reported, images := DoDiffusionRequest("text_to_image", prompt, numVariants, numInferenceSteps,
        guidanceScale, seed, hasCallback, scalingMode, map["aspect_ratio" := Num(aspectRatio)], transport);
    }

    /** `image_to_image`: endpoint `image_to_image`; the source travels as a PNG data URL. */
    method ImageToImage(prompt: string, source: Bytes, strength: real, numVariants: int, numInferenceSteps: int,
                        guidanceScale: real, seed: OptInt, hasCallback: bool, scalingMode: ScalingMode,
                        transport: Transport)
      returns (url: string, sent: seq<Value>, reported: seq<Value>, images: Result<seq<Bytes>, ClientError>)
      ensures url == baseWebSocketUrl + "image_to_image"
      ensures transport.Session? ==> (|sent| == 2 && sent[1].Obj?
        && sent[1].fields == DiffusionBody(prompt, numVariants, numInferenceSteps, guidanceScale, seed, scalingMode,
                                           ImageKwargs(source, strength, None)))
      ensures reported == Exchange(transport, hasCallback).reported
      ensures Exchange(transport, hasCallback).result.Err? ==> images == Err(Exchange(transport, hasCallback).result.error)
      ensures Exchange(transport, hasCallback).result.Ok? ==> images == ResultImages(Exchange(transport, hasCallback).result.value)
    {
      var kwargs := ImageKwargs(source, strength, None);
      url, sent, reported, images := DoDiffusionRequest("image_to_image", prompt, numVariants, numInferenceSteps,
        guidanceScale, seed, hasCallback, scalingMode, kwargs, transport);
    }

    /** `inpaint`: endpoint `inpainting`; `mask` is sent only when a mask is given. */
    method Inpaint(prompt: string, source: Bytes, mask: Option<Bytes>, strength: real, numVariants: int,
                   numInferenceSteps: int, guidanceScale: real, seed: OptInt, hasCallback: bool,
                   scalingMode: ScalingMode, transport: Transport)
      returns (url: string, sent: seq<Value>, reported: seq<Value>, images: Result<seq<Bytes>, ClientError>)
      ensures url == baseWebSocketUrl + "inpainting"
      ensures transport.Session? ==> (|sent| == 2 && sent[1].Obj?
        && sent[1].fields == DiffusionBody(prompt, numVariants, numInferenceSteps, guidanceScale, seed, scalingMode,
                                           ImageKwargs(source, strength, mask)))
      ensures reported == Exchange(transport, hasCallback).reported
      ensures Exchange(transport, hasCallback).result.Err? ==> images == Err(Exchange(transport, hasCallback).result.error)
      ensures Exchange(transport, hasCallback).result.Ok? ==> images == ResultImages(Exchange(transport, hasCallback).result.value)
    {
      var kwargs := ImageKwargs(source, strength, mask);
      url, sent, reported, images := DoDiffusionRequest("inpainting", prompt, numVariants, numInferenceSteps,
        guidanceScale, seed, hasCallback, scalingMode, kwargs, transport);
    }

    /** `gobig`: endpoint `gobig`; `seed` is always sent (JSON null when None); one image comes back. */
    method Gobig(prompt: string, source: Bytes, targetWidth: int, targetHeight: int, useRealEsrgan: bool,
                 esrganModel: EsrganModel, maximize: bool, overlap: int, strength: real,
                 numInferenceSteps: int, guidanceScale: real, seed: OptInt, hasCallback: bool,
                 transport: Transport)
      returns (url: string, sent: seq<Value>, reported: seq<Value>, image: Result<Bytes, ClientError>)
      ensures url == baseWebSocketUrl + "gobig"
      ensures transport.Session? ==> (|sent| == 2 && sent[1].Obj?
        && sent[1].fields == GobigBody(prompt, source, targetWidth, targetHeight, useRealEsrgan, esrganModel,
                                       maximize, overlap, strength, numInferenceSteps, guidanceScale, seed))
      ensures reported == Exchange(transport, hasCallback).reported
      ensures image.Ok? ==> Exchange(transport, hasCallback).result.Ok?
      ensures Exchange(transport, hasCallback).result.Err? ==> image == Err(Exchange(transport, hasCallback).result.error)
      ensures Exchange(transport, hasCallback).result.Ok? ==>
        var entry := ResultEntry(Exchange(transport, hasCallback).result.value, "image");
        image == if entry.Ok? then DecodeImage(entry.value) else Err(entry.error)
    {
      var body := GobigBody(prompt, source, targetWidth, targetHeight, useRealEsrgan, esrganModel,
                            maximize, overlap, strength, numInferenceSteps, guidanceScale, seed);
      var response;
      url, sent, reported, response := WebSocketRequest("gobig", body, hasCallback, transport);
      if response.Err? {
        return url, sent, reported, Err(response.error);
      }
      var entry := ResultEntry(response.value, "image");
      if entry.Err? {
        return url, sent, reported, Err(entry.error);
      }
      image := DecodeImage(entry.value);
    }

    /** `upscale`: one authenticated POST to `upscale`; a non-2xx status raises. */
    method Upscale(source: Bytes, targetWidth: int, targetHeight: int, esrganModel: EsrganModel, maximize: bool,
                   reply: HttpReply)
      returns (post: Post, image: Result<Bytes, ClientError>)
      ensures post.url == baseHttpUrl + "upscale"
      ensures post.username == username && post.password == password
      ensures post.body == map[
        "image" := Str(PngDataUrl(source)),
        "target_width" := Int(targetWidth),
        "target_height" := Int(targetHeight),
        "model" := Str(EsrganValue(esrganModel)),
        "maximize" := Bool(maximize)]
      ensures image == PostedImage(reply)
    {
      var body := map[
        "image" := Str(PngDataUrl(source)),
        "target_width" := Int(targetWidth),
        "target_height" := Int(targetHeight),
        "model" := Str(EsrganValue(esrganModel)),
        "maximize" := Bool(maximize)];
      post := Post(baseHttpUrl + "upscale", body, username, password);
      image := PostedImage(reply);
    }

    /** `restore_face`: one authenticated POST to `restore_face`; a non-2xx status raises. */
    method RestoreFace(source: Bytes, modelType: GfpganModel, useRealEsrgan: bool, bgTile: int, upscale: int,
                       aligned: bool, onlyCenterFace: bool, reply: HttpReply)
      returns (post: Post, image: Result<Bytes, ClientError>)
      ensures post.url == baseHttpUrl + "restore_face"
      ensures post.username == username && post.password == password
      ensures post.body == map[
        "image" := Str(PngDataUrl(source)),
        "use_real_esrgan" := Bool(useRealEsrgan),
        "bg_tile" := Int(bgTile),
        "upscale" := Int(upscale),
        "aligned" := Bool(aligned),
        "only_center_face" := Bool(onlyCenterFace),
        "model_type" := Str(GfpganValue(modelType))]
      ensures Codec.DataUrlToImage(post.body["image"].s) == Ok(source)
      ensures image == PostedImage(reply)
    {
      var body := map[
        "image" := Str(PngDataUrl(source)),
        "use_real_esrgan" := Bool(useRealEsrgan),
        "bg_tile" := Int(bgTile),
        "upscale" := Int(upscale),
        "aligned" := Bool(aligned),
        "only_center_face" := Bool(onlyCenterFace),
        "model_type" := Str(GfpganValue(modelType))];
      post := Post(baseHttpUrl + "restore_face", body, username, password);
      image := PostedImage(reply);
    }

    /**
     * `test_connection` as written: the comparison on the success path is
     * evaluated and dropped, so the method returns None (no tuple) unless
     * httpx raised.
     */
    method TestConnection(reply: HttpReply) returns (url: string, r: Option<(bool, string)>)
      ensures url == baseHttpUrl + "ping"
      ensures reply.Response? ==> r == None
      ensures reply.Raised? ==> r == Some((false, "Exception: " + reply.typeName))
    {
      url := baseHttpUrl + "ping";
      match reply
      case Response(_, _, _) => r := None;
      case Raised(t) => r := Some((false, "Exception: " + t));
    }
  }

  /** The keyword arguments image-to-image and inpainting add: source, strength, and a mask if given. */
  function ImageKwargs(source: Bytes, strength: real, mask: Option<Bytes>): (r: Body)
    ensures "mask" in r <==> mask.Some?
    ensures mask.Some? ==> "mask" in r && r["mask"] == Str(PngDataUrl(mask.value))
    ensures "source_image" in r && r["source_image"] == Str(PngDataUrl(source))
    ensures "strength" in r && r["strength"] == Num(strength)
    ensures "seed" !in r && "output_format" !in r && "prompt" !in r
    ensures forall k :: k in r ==> k !in DiffusionParameters
    ensures r.Keys <= {"source_image", "strength", "mask"}
  {
    KeywordsAreNotParameters();
    var extra := map["source_image" := Str(PngDataUrl(source)), "strength" := Num(strength)];
    if mask.Some? then extra["mask" := Str(PngDataUrl(mask.value))] else extra
  }

  /** The keyword arguments the request methods pass are none of `do_diffusion_request`'s named parameters. */
  lemma KeywordsAreNotParameters()
    ensures "source_image" !in DiffusionParameters && "strength" !in DiffusionParameters
    ensures "mask" !in DiffusionParameters && "aspect_ratio" !in DiffusionParameters
    ensures "mask" !in DiffusionKeys
  {
  }

  /** The dict of `gobig` (client.py:245-259), with the source already encoded as a data URL. */
  function GobigFields(prompt: string, image: string, targetWidth: int, targetHeight: int, useRealEsrgan: bool,
                       esrganModel: EsrganModel, maximize: bool, overlap: int, strength: real,
                       numInferenceSteps: int, guidanceScale: real, seed: OptInt): (r: Body)
    ensures "prompt" in r && r["prompt"] == Str(prompt)
    ensures "image" in r && r["image"] == Str(image)
    ensures "num_inference_steps" in r && r["num_inference_steps"] == Int(numInferenceSteps)
    ensures "guidance_scale" in r && r["guidance_scale"] == Num(guidanceScale)
    ensures "strength" in r && r["strength"] == Num(strength)
    ensures "overlap" in r && r["overlap"] == Int(overlap)
    ensures "target_width" in r && r["target_width"] == Int(targetWidth)
    ensures "target_height" in r && r["target_height"] == Int(targetHeight)
    ensures "use_real_esrgan" in r && r["use_real_esrgan"] == Bool(useRealEsrgan)
    ensures "maximize" in r && r["maximize"] == Bool(maximize)
    ensures "esrgan_model" in r && r["esrgan_model"] == Str(EsrganValue(esrganModel))
    ensures "output_format" in r && r["output_format"] == Str("PNG")
    ensures "seed" in r && r["seed"] == (if seed.SomeInt? then Int(seed.n) else Null)
    ensures r.Keys == {"prompt", "num_inference_steps", "guidance_scale", "use_real_esrgan", "maximize", "strength",
                       "target_width", "target_height", "overlap", "esrgan_model", "output_format", "seed", "image"}
  {
    map[
      "prompt" := Str(prompt),
      "num_inference_steps" := Int(numInferenceSteps),
      "guidance_scale" := Num(guidanceScale),
      "use_real_esrgan" := Bool(useRealEsrgan),
      "maximize" := Bool(maximize),
      "strength" := Num(strength),
      "target_width" := Int(targetWidth),
      "target_height" := Int(targetHeight),
      "overlap" := Int(overlap),
      "esrgan_model" := Str(EsrganValue(esrganModel)),
      "output_format" := Str("PNG"),
      "seed" := OptIntValue(seed),
      "image" := Str(image)
    ]
  }

  /** The body `gobig` sends: every argument as given, `seed` always present, and the source as a PNG data URL. */
  function GobigBody(prompt: string, source: Bytes, targetWidth: int, targetHeight: int, useRealEsrgan: bool,
                     esrganModel: EsrganModel, maximize: bool, overlap: int, strength: real,
                     numInferenceSteps: int, guidanceScale: real, seed: OptInt): (r: Body)
    ensures r == GobigFields(prompt, PngDataUrl(source), targetWidth, targetHeight, useRealEsrgan, esrganModel,
                             maximize, overlap, strength, numInferenceSteps, guidanceScale, seed)
    ensures "image" in r && r["image"].Str? && Codec.DataUrlToImage(r["image"].s) == Ok(source)
  {
    var image := PngDataUrl(source);
    GobigFields(prompt, image, targetWidth, targetHeight, useRealEsrgan, esrganModel, maximize, overlap, strength,
                numInferenceSteps, guidanceScale, seed)
  }


  /** Diffusion requests carry `seed` exactly when one is given, and always ask for PNG. */
  lemma SeedOnlyWhenGiven(prompt: string, source: Bytes, strength: real, mask: Option<Bytes>, numVariants: int,
                          numInferenceSteps: int, guidanceScale: real, seed: OptInt, scalingMode: ScalingMode)
    ensures var body := DiffusionBody(prompt, numVariants, numInferenceSteps, guidanceScale, seed, scalingMode,
                                      ImageKwargs(source, strength, mask));
      && ("seed" in body <==> seed.SomeInt?)
      && body["output_format"] == Str("PNG")
      && ("mask" in body <==> mask.Some?)
  {
    var kwargs := ImageKwargs(source, strength, mask);
    var body := DiffusionBody(prompt, numVariants, numInferenceSteps, guidanceScale, seed, scalingMode, kwargs);
    KeywordsAreNotParameters();
    assert "mask" in body ==> "mask" in kwargs;
  }

  // ---------------------------------------------------------------------------
  // The class-level cache behind `ImageAIUtilsClient.client()`

  /**
   * The loaded settings. The Settings class of this package declares no
   * USE_TLS field; `useTls` is None when the attribute is missing.
   */
  datatype Settings = Settings(username: string, password: string, serverUrl: string, useTls: Option<bool>)

  class ClientCache {
    var cached: ImageAIUtilsClient?

    constructor ()
      ensures cached == null
    {
      cached := null;
    }

    /**
     * `client()`: the cached client if there is one; None without caching
     * when there are no settings; otherwise a new client built from the
     * settings, cached and returned. Reading a missing `USE_TLS` raises.
     */
    method Get(settings: Option<Settings>) returns (r: Result<ImageAIUtilsClient?, ClientError>)
      modifies this
      ensures old(cached) != null ==> r == Ok(old(cached)) && cached == old(cached)
      ensures old(cached) == null && settings.None? ==> r == Ok(null) && cached == null
      ensures old(cached) == null && settings.Some? && settings.value.useTls.None? ==>
        r == Err(AttributeError("USE_TLS")) && cached == null
      ensures old(cached) == null && settings.Some? && settings.value.useTls.Some? ==>
        && r.Ok? && r.value != null && fresh(r.value) && cached == r.value
        && r.value.baseHttpUrl == HttpScheme(settings.value.useTls.value) + Remainder(settings.value.serverUrl)
        && r.value.baseWebSocketUrl == WebSocketScheme(settings.value.useTls.value) + Remainder(settings.value.serverUrl)
        && r.value.username == settings.value.username && r.value.password == settings.value.password
    {
      if cached != null {
        return Ok(cached);
      }
      if settings.None? {
        return Ok(null);
      }
      var s := settings.value;
      if s.useTls.None? {
        return Err(AttributeError("USE_TLS"));
      }
      var c := new ImageAIUtilsClient(s.serverUrl, s.username, s.password, s.useTls.value);
      cached := c;
      r := Ok(c);
    }

    /**
     * `refresh_credentials`: the (possibly just built) cached client takes
     * the settings' credentials; with a cached client but no settings,
     * reading `USERNAME` of None raises.
     */
    method RefreshCredentials(settings: Option<Settings>) returns (r: Result<(), ClientError>)
      modifies this, cached
      ensures old(cached) != null ==> cached == old(cached)
      ensures old(cached) != null ==>
        cached.baseHttpUrl == old(cached.baseHttpUrl) && cached.baseWebSocketUrl == old(cached.baseWebSocketUrl)
      ensures settings.None? ==> cached == old(cached)
      ensures settings.None? ==> (r.Ok? <==> old(cached) == null)
      ensures settings.None? && old(cached) != null ==> r == Err(AttributeError("USERNAME"))
      ensures r.Ok? && cached != null ==>
        settings.Some? && cached.username == settings.value.username && cached.password == settings.value.password
    {
      var c := Get(settings);
      if c.Err? {
        return Err(c.error);
      }
      if c.value != null {
        if settings.None? {
          return Err(AttributeError("USERNAME"));
        }
        c.value.username := settings.value.username;
        c.value.password := settings.value.password;
      }
      r := Ok(());
    }
  }
}
