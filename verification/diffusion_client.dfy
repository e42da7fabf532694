/**
 * diffusion_tools/client.py: the first client, used by the legacy dialog.
 * It posts text-to-image requests without credentials to a base URL taken
 * verbatim from the environment; image-to-image is an empty stub.
 */
module DiffusionClient {
  import opened Wrappers
  import opened Json
  import Client
  import LegacyClient

  type Bytes = Client.Bytes

  /** A POST without authentication. */
  datatype Request = Request(url: string, body: Body)

  /** The environment variable naming the server, and the address used without it. */
  const UrlVariable: string := "AI_IMAGE_UTILS_URL"
  const DefaultUrl: string := "http://localhost:8000/"

  /**
   * The text-to-image body holds exactly the six fixed fields, plus `seed`
   * when one is given (the same body the older HTTP client sends).
   */
  lemma TextToImageBodyKeys(prompt: string, aspectRatio: real, numVariants: int, numInferenceSteps: int,
                            guidanceScale: real, seed: OptInt)
    ensures var r := LegacyClient.TextToImageBody(prompt, aspectRatio, numVariants, numInferenceSteps, guidanceScale, seed);
      forall k :: k in r <==>
        (k == "prompt" || k == "num_inference_steps" || k == "guidance_scale" || k == "num_variants"
         || k == "output_format" || k == "aspect_ratio" || (k == "seed" && seed.SomeInt?))
  {
  }

  class DiffusionClient {
    var baseUrl: string

    /** `__init__` keeps the base URL as given: no slash is added and no scheme is checked. */
    constructor (baseUrl: string)
      ensures this.baseUrl == baseUrl
    {
      this.baseUrl := baseUrl;
    }

    /** `text_to_image`: POST to the base URL followed directly by `text_to_image`. */
    method TextToImage(prompt: string, aspectRatio: real, numVariants: int, numInferenceSteps: int,
                       guidanceScale: real, seed: OptInt, reply: Client.HttpReply)
      returns (request: Request, images: Result<seq<Bytes>, Client.ClientError>)
      ensures request.url == baseUrl + "text_to_image"
      ensures request.body == LegacyClient.TextToImageBody(prompt, aspectRatio, numVariants, numInferenceSteps,
                                                           guidanceScale, seed)
      ensures "seed" in request.body <==> seed.SomeInt?
      ensures images == LegacyClient.ReplyImages(reply)
    {
      var body := LegacyClient.TextToImageBody(prompt, aspectRatio, numVariants, numInferenceSteps, guidanceScale, seed);
      request := Request(baseUrl + "text_to_image", body);
      images := LegacyClient.ReplyImages(reply);
    }

    /** `image_to_image` has no body beyond `pass`: nothing is sent and None comes back. */
    method ImageToImage(prompt: string, source: Bytes, numVariants: int, numInferenceSteps: int,
                        guidanceScale: real, seed: OptInt)
      returns (request: Option<Request>, images: Option<seq<Bytes>>)
      ensures request == None && images == None
    {
      request, images := None, None;
    }
  }

  /** The module-level `diffusion_client`, built from the environment. */
  method ModuleClient(environment: map<string, string>) returns (c: DiffusionClient)
    ensures fresh(c)
    ensures UrlVariable in environment ==> c.baseUrl == environment[UrlVariable]
    ensures UrlVariable !in environment ==> c.baseUrl == DefaultUrl
  {
    var url := if UrlVariable in environment then environment[UrlVariable] else DefaultUrl;
    c := new DiffusionClient(url);
  }
}
