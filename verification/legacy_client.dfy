/**
 * image_ai_utils/client.py: the older HTTP-only client. Every generation is
 * one authenticated POST whose JSON reply carries `images`; there is no
 * status check, so only the reply's body decides the outcome.
 */
module LegacyClient {
  import opened Wrappers
  import opened Text
  import opened Json
  import Client

  type Bytes = Client.Bytes
  type HttpReply = Client.HttpReply
  type Post = Client.Post
  type ClientError = Client.ClientError

  /** `base_url` with `/` appended unless it already ends with one. */
  function WithSlash(u: string): (r: string)
    ensures EndsWith(r, "/")
    ensures EndsWith(u, "/") ==> r == u
    ensures !EndsWith(u, "/") ==> r == u + "/"
  {
    if EndsWith(u, "/") then u else u + "/"
  }

  predicate HasScheme(u: string) {
    StartsWith(u, "http://") || StartsWith(u, "https://")
  }

  /** `__init__`: slash first, then `http://` in front unless a scheme is already there. */
  function NormalizedBase(baseUrl: string): (r: string)
    ensures EndsWith(r, "/") && HasScheme(r)
    ensures HasScheme(WithSlash(baseUrl)) ==> r == WithSlash(baseUrl)
    ensures !HasScheme(WithSlash(baseUrl)) ==> r == "http://" + WithSlash(baseUrl)
  {
    var u := WithSlash(baseUrl);
    if HasScheme(u) then u
    else
      assert EndsWith("http://" + u, "/") by {
        assert ("http://" + u)[|"http://" + u| - 1] == u[|u| - 1];
      }
      assert ("http://" + u)[..7] == "http://";
      "http://" + u
  }

  /** Normalising twice changes nothing more than normalising once. */
  lemma NormalizedBaseIdempotent(baseUrl: string)
    ensures NormalizedBase(NormalizedBase(baseUrl)) == NormalizedBase(baseUrl)
  {
    var r := NormalizedBase(baseUrl);
    assert WithSlash(r) == r;
  }

  /** The scheme is only ever added, never replaced: an `https://` address keeps TLS. */
  lemma HttpsKept(baseUrl: string)
    requires StartsWith(baseUrl, "https://")
    ensures StartsWith(NormalizedBase(baseUrl), "https://")
  {
    var u := WithSlash(baseUrl);
    assert u[..8] == baseUrl[..8];
  }

  /** The fields every generation request may carry besides its own. */
  const CommonKeys: set<string> := {"prompt", "num_inference_steps", "guidance_scale", "num_variants", "output_format", "seed"}

  /** The five fields every generation body holds, with the given values and PNG output. */
  function CommonFields(prompt: string, numVariants: int, numInferenceSteps: int, guidanceScale: real): (r: Body)
    ensures r.Keys == CommonKeys - {"seed"}
    ensures r["prompt"] == Str(prompt) && r["num_variants"] == Int(numVariants)
    ensures r["num_inference_steps"] == Int(numInferenceSteps) && r["guidance_scale"] == Num(guidanceScale)
    ensures r["output_format"] == Str("PNG")
  {
    map[
      "prompt" := Str(prompt),
      "num_inference_steps" := Int(numInferenceSteps),
      "guidance_scale" := Num(guidanceScale),
      "num_variants" := Int(numVariants),
      "output_format" := Str("PNG")
    ]
  }

  /** The fields every generation body holds, plus `seed` exactly when one is given. */
  function WithCommon(extra: Body, prompt: string, numVariants: int, numInferenceSteps: int,
                      guidanceScale: real, seed: OptInt): (r: Body)
    requires "seed" !in extra
    ensures "seed" in r <==> seed.SomeInt?
    ensures seed.SomeInt? ==> "seed" in r && r["seed"] == Int(seed.n)
    ensures "output_format" in r && r["output_format"] == Str("PNG")
    ensures "prompt" in r && r["prompt"] == Str(prompt)
    ensures "num_variants" in r && r["num_variants"] == Int(numVariants)
    ensures "num_inference_steps" in r && r["num_inference_steps"] == Int(numInferenceSteps)
    ensures "guidance_scale" in r && r["guidance_scale"] == Num(guidanceScale)
    ensures forall k :: k in extra ==> k in r
    ensures forall k :: k in extra && k !in CommonKeys ==> r[k] == extra[k]
    ensures r.Keys == extra.Keys + (CommonKeys - {"seed"}) + (if seed.SomeInt? then {"seed"} else {})
    ensures forall k :: k in r ==> k in extra || k in CommonKeys
  {
    var base := CommonFields(prompt, numVariants, numInferenceSteps, guidanceScale);
    var body := extra + base;
    assert body.Keys == extra.Keys + base.Keys;
    WithSeed(body, seed)
  }

  /** The body of `text_to_image`. */
  function TextToImageBody(prompt: string, aspectRatio: real, numVariants: int, numInferenceSteps: int,
                           guidanceScale: real, seed: OptInt): (r: Body)
    ensures "seed" in r <==> seed.SomeInt?
    ensures seed.SomeInt? ==> "seed" in r && r["seed"] == Int(seed.n)
    ensures r.Keys == {"aspect_ratio"} + (CommonKeys - {"seed"}) + (if seed.SomeInt? then {"seed"} else {})
    ensures r["prompt"] == Str(prompt) && r["num_variants"] == Int(numVariants)
    ensures r["num_inference_steps"] == Int(numInferenceSteps) && r["guidance_scale"] == Num(guidanceScale)
    ensures r["output_format"] == Str("PNG")
    ensures r["aspect_ratio"] == Num(aspectRatio)
  {
    var extra := map["aspect_ratio" := Num(aspectRatio)];
    assert "aspect_ratio" !in CommonKeys;
    WithCommon(extra, prompt, numVariants, numInferenceSteps, guidanceScale, seed)
  }

  /** The image fields of `image_to_image` and `inpaint`, with the images already encoded as data URLs. */
  function ImageFields(sourceUrl: string, maskUrl: Option<string>, strength: real): (r: Body)
    ensures r.Keys == {"source_image", "strength"} + (if maskUrl.Some? then {"mask"} else {})
    ensures r["source_image"] == Str(sourceUrl) && r["strength"] == Num(strength)
    ensures "mask" in r <==> maskUrl.Some?
    ensures maskUrl.Some? ==> "mask" in r && r["mask"] == Str(maskUrl.value)
  {
    var images := map["source_image" := Str(sourceUrl), "strength" := Num(strength)];
    if maskUrl.Some? then images["mask" := Str(maskUrl.value)] else images
  }

  /** The body of `image_to_image`, and of `inpaint` when `mask` is given. */
  function ImageBody(prompt: string, source: Bytes, mask: Option<Bytes>, strength: real, numVariants: int,
                     numInferenceSteps: int, guidanceScale: real, seed: OptInt): (r: Body)
    ensures "seed" in r <==> seed.SomeInt?
    ensures seed.SomeInt? ==> "seed" in r && r["seed"] == Int(seed.n)
    ensures "prompt" in r && r["prompt"] == Str(prompt)
    ensures "num_variants" in r && r["num_variants"] == Int(numVariants)
    ensures "num_inference_steps" in r && r["num_inference_steps"] == Int(numInferenceSteps)
    ensures "guidance_scale" in r && r["guidance_scale"] == Num(guidanceScale)
    ensures "output_format" in r && r["output_format"] == Str("PNG")
    ensures "source_image" in r && r["source_image"] == Str(Client.PngDataUrl(source))
    ensures "strength" in r && r["strength"] == Num(strength)
    ensures "mask" in r <==> mask.Some?
    ensures mask.Some? ==> "mask" in r && r["mask"] == Str(Client.PngDataUrl(mask.value))
    ensures r.Keys == {"source_image", "strength"} + (if mask.Some? then {"mask"} else {}) + (CommonKeys - {"seed"})
                      + (if seed.SomeInt? then {"seed"} else {})
  {
    var sourceUrl := Client.PngDataUrl(source);
    var maskUrl := if mask.Some? then Some(Client.PngDataUrl(mask.value)) else None;
    var extra := ImageFields(sourceUrl, maskUrl, strength);
    assert "source_image" !in CommonKeys && "strength" !in CommonKeys && "mask" !in CommonKeys;
    WithCommon(extra, prompt, numVariants, numInferenceSteps, guidanceScale, seed)
  }

  /** `response.json()[key]` on a reply that is not checked for its status. */
  function ReplyEntry(reply: HttpReply, key: string): (r: Result<Value, ClientError>)
    ensures r.Ok? <==> reply.Response? && reply.body.Some? && reply.body.value.Obj? && key in reply.body.value.fields
    ensures r.Ok? ==> r.value == reply.body.value.fields[key]
  {
    match reply
    case Raised(t) => Err(Client.HttpFailure(t))
    case Response(_, _, body) =>
      if body.None? then Err(Client.JsonError)
      else if !body.value.Obj? then Err(Client.TypeError("indices must be integers"))
      else if key !in body.value.fields then Err(Client.KeyError(key))
      else Ok(body.value.fields[key])
  }

  /** The images of a generation reply: one per entry `for image in images` walks over, in order, whatever the status code. */
  function ReplyImages(reply: HttpReply): (r: Result<seq<Bytes>, ClientError>)
    ensures r.Ok? ==> ReplyEntry(reply, "images").Ok? && Client.Entries(ReplyEntry(reply, "images").value).Some?
    ensures r.Ok? ==> |r.value| == |Client.Entries(ReplyEntry(reply, "images").value).value|
    ensures r.Ok? ==> forall i :: 0 <= i < |r.value| ==>
      Client.DecodeImage(Client.Entries(ReplyEntry(reply, "images").value).value[i]) == Ok(r.value[i])
  {
    var images :- ReplyEntry(reply, "images");
    Client.IteratedImages(images)
  }

  class ImageAIUtilsClient {
    var baseUrl: string
    var username: string
    var password: string

    constructor (baseUrl: string, username: string, password: string)
      ensures this.baseUrl == NormalizedBase(baseUrl)
      ensures this.username == username && this.password == password
    {
      var u := baseUrl;
      if !EndsWith(u, "/") {
        u := u + "/";
      }
      if !(StartsWith(u, "http://") || StartsWith(u, "https://")) {
        u := "http://" + u;
      }
      this.baseUrl := u;
      this.username := username;
      this.password := password;
    }

    /** `text_to_image`: POST to `text_to_image`. */
    method TextToImage(prompt: string, aspectRatio: real, numVariants: int, numInferenceSteps: int,
                       guidanceScale: real, seed: OptInt, reply: HttpReply)
      returns (post: Post, images: Result<seq<Bytes>, ClientError>)
      ensures post == Client.Post(baseUrl + "text_to_image",
        TextToImageBody(prompt, aspectRatio, numVariants, numInferenceSteps, guidanceScale, seed), username, password)
      ensures images == ReplyImages(reply)
    {
      var body := TextToImageBody(prompt, aspectRatio, numVariants, numInferenceSteps, guidanceScale, seed);
      post := Client.Post(baseUrl + "text_to_image", body, username, password);
      images := ReplyImages(reply);
    }

    /** `image_to_image`: POST to `image_to_image`. */
    method ImageToImage(prompt: string, source: Bytes, strength: real, numVariants: int, numInferenceSteps: int,
                        guidanceScale: real, seed: OptInt, reply: HttpReply)
      returns (post: Post, images: Result<seq<Bytes>, ClientError>)
      ensures post == Client.Post(baseUrl + "image_to_image",
        ImageBody(prompt, source, None, strength, numVariants, numInferenceSteps, guidanceScale, seed), username, password)
      ensures "mask" !in post.body
      ensures images == ReplyImages(reply)
    {
      var body := ImageBody(prompt, source, None, strength, numVariants, numInferenceSteps, guidanceScale, seed);
      post := Client.Post(baseUrl + "image_to_image", body, username, password);
      images := ReplyImages(reply);
    }

    /** `inpaint`: the same endpoint as image-to-image, with the mask added to the body. */
    method Inpaint(prompt: string, source: Bytes, mask: Bytes, strength: real, numVariants: int,
                   numInferenceSteps: int, guidanceScale: real, seed: OptInt, reply: HttpReply)
      returns (post: Post, images: Result<seq<Bytes>, ClientError>)
      ensures post.url == baseUrl + "image_to_image"
      ensures post.body == ImageBody(prompt, source, Some(mask), strength, numVariants, numInferenceSteps,
                                     guidanceScale, seed)
      ensures "mask" in post.body
      ensures images == ReplyImages(reply)
    {
      var body := ImageBody(prompt, source, Some(mask), strength, numVariants, numInferenceSteps, guidanceScale, seed);
      post := Client.Post(baseUrl + "image_to_image", body, username, password);
      images := ReplyImages(reply);
    }

    /** `upscale`: POST to `upscale`; the reply's `image` is decoded. */
    method Upscale(source: Bytes, targetWidth: int, targetHeight: int, reply: HttpReply)
      returns (post: Post, image: Result<Bytes, ClientError>)
      ensures post.url == baseUrl + "upscale"
      ensures post.body == map["image" := Str(Client.PngDataUrl(source)),
                               "target_width" := Int(targetWidth), "target_height" := Int(targetHeight)]
      ensures ReplyEntry(reply, "image").Err? ==> image == Err(ReplyEntry(reply, "image").error)
      ensures ReplyEntry(reply, "image").Ok? ==> image == Client.DecodeImage(ReplyEntry(reply, "image").value)
    {
      var body := map["image" := Str(Client.PngDataUrl(source)),
                      "target_width" := Int(targetWidth), "target_height" := Int(targetHeight)];
      post := Client.Post(baseUrl + "upscale", body, username, password);
      var entry := ReplyEntry(reply, "image");
      if entry.Err? {
        return post, Err(entry.error);
      }
      image := Client.DecodeImage(entry.value);
    }

    /** `test_connection`: `(status == 200, body text)`, or `(False, 'Exception: <type>')`. */
    method TestConnection(reply: HttpReply) returns (url: string, r: (bool, string))
      ensures url == baseUrl + "ping"
      ensures reply.Response? ==> r == (reply.status == 200, reply.text)
      ensures reply.Raised? ==> r == (false, "Exception: " + reply.typeName)
      ensures r.0 ==> reply.Response? && reply.status == 200
    {
      url := baseUrl + "ping";
      match reply
      case Response(status, text, _) => r := (status == 200, text);
      case Raised(t) => r := (false, "Exception: " + t);
    }
  }

  datatype Settings = Settings(username: string, password: string, serverUrl: string)

  /**
   * What `Settings.settings()` does. The Settings class this module imports
   * (image_ai_utils/settings.py) defines no `settings` classmethod, so the
   * call raises AttributeError; `Accessor` is a Settings class that has it.
   */
  datatype SettingsSource = NoAccessor | Accessor(current: Option<Settings>)

  class ClientCache {
    var cached: ImageAIUtilsClient?

    constructor ()
      ensures cached == null
    {
      cached := null;
    }

    /** `client()`: the cached client; else None without caching when there are no settings; else a new cached client. */
    method Get(source: SettingsSource) returns (r: Result<ImageAIUtilsClient?, ClientError>)
      modifies this
      ensures old(cached) != null ==> r == Ok(old(cached)) && cached == old(cached)
      ensures old(cached) == null && source.NoAccessor? ==> r == Err(Client.AttributeError("settings")) && cached == null
      ensures old(cached) == null && source == Accessor(None) ==> r == Ok(null) && cached == null
      ensures old(cached) == null && source.Accessor? && source.current.Some? ==>
        && r.Ok? && r.value != null && fresh(r.value) && cached == r.value
        && r.value.baseUrl == NormalizedBase(source.current.value.serverUrl)
        && r.value.username == source.current.value.username
        && r.value.password == source.current.value.password
    {
      if cached != null {
        return Ok(cached);
      }
      if source.NoAccessor? {
        return Err(Client.AttributeError("settings"));
      }
      if source.current.None? {
        return Ok(null);
      }
      var s := source.current.value;
      var c := new ImageAIUtilsClient(s.serverUrl, s.username, s.password);
      cached := c;
      r := Ok(c);
    }
  }
}
