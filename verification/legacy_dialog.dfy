/**
 * diffusion_tools/ui/diffusion_dialog.py: the first version of the
 * diffusion dialog. It calls the module-level `diffusion_client`
 * synchronously, knows three modes, and drives both buttons from "any
 * variant selected".
 */
module LegacyDialog {
  import opened Wrappers
  import opened Selection
  import Dialog

  type Image = Dialog.Image
  type Arg = Dialog.Arg

  datatype DiffusionMode = TextToImage | ImageToImage | Inpaint

  /** What the dialog's widgets hold when Generate is pressed. */
  datatype Form = Form(
    prompt: string,
    inferenceSteps: int,
    guidanceScale: real,
    variants: int,
    useRandomSeed: bool,
    seed: int,
    strength: real)

  datatype PyError =
    | ZeroDivisionError            // `self._target_width / self._target_height` with a zero height
    | UnexpectedKeyword(name: string) // TypeError: `DiffusionClient.image_to_image` takes no such keyword
    | ClientRaised(message: string)   // the HTTP call of `text_to_image` raised; nothing catches it

  datatype Outcome = NoRequest | Raised(error: PyError) | Succeeded

  /**
   * The request of `generate`. The seed test reads `isChecked` without
   * calling it: a bound method is truthy, so `not ...` is always False and
   * `seed` is never added, whatever the check box shows.
   */
  function LegacyRequest(form: Form): (r: map<string, Arg>)
    ensures "seed" !in r
    ensures r.Keys == {"prompt", "num_inference_steps", "guidance_scale", "num_variants"}
    ensures r["prompt"] == Dialog.Text(form.prompt) && r["num_variants"] == Dialog.Whole(form.variants)
    ensures r["num_inference_steps"] == Dialog.Whole(form.inferenceSteps)
    ensures r["guidance_scale"] == Dialog.Number(form.guidanceScale)
  {
    var base := map[
      "prompt" := Dialog.Text(form.prompt),
      "num_inference_steps" := Dialog.Whole(form.inferenceSteps),
      "guidance_scale" := Dialog.Number(form.guidanceScale),
      "num_variants" := Dialog.Whole(form.variants)
    ];
    var isCheckedIsTruthy := true;
    if !isCheckedIsTruthy then base["seed" := Dialog.Whole(form.seed)] else base
  }

  /**
   * The two dialogs part ways on the same widgets: with the random-seed box
   * unchecked the common dialog sends the typed seed, this one does not,
   * and the requests agree on every key this one sends.
   */
  lemma SeedNeverSent(form: Form, common: Dialog.Form)
    requires !form.useRandomSeed
    requires common.prompt == form.prompt && common.inferenceSteps == form.inferenceSteps
    requires common.guidanceScale == form.guidanceScale && common.variants == form.variants
    requires common.useRandomSeed == form.useRandomSeed && common.seed == form.seed
    ensures "seed" !in LegacyRequest(form)
    ensures "seed" in Dialog.BaseRequest(common) && Dialog.BaseRequest(common)["seed"] == Dialog.Whole(form.seed)
    ensures forall k :: k in LegacyRequest(form) ==> k in Dialog.BaseRequest(common) && Dialog.BaseRequest(common)[k] == LegacyRequest(form)[k]
  {
    var legacy, base := LegacyRequest(form), Dialog.BaseRequest(common);
    assert legacy.Keys == {"prompt", "num_inference_steps", "guidance_scale", "num_variants"};
    assert legacy["num_inference_steps"] == base["num_inference_steps"];
    assert legacy["guidance_scale"] == base["guidance_scale"];
  }

  class DiffusionDialog {
    var resultImages: seq<Image>
    var imageSelection: seq<bool>
    var targetWidth: int
    var targetHeight: int
    var mode: Option<DiffusionMode>
    var sourceImage: Option<Image>
    // widget state
    var grid: seq<Placement>
    var upscaleEnabled: bool
    var applyEnabled: bool
    var strengthVisible: bool

    /** One flag and one button per variant; both buttons are on exactly when a variant is selected. */
    ghost predicate Valid()
      reads this
    {
      && |imageSelection| == |resultImages|
      && grid == Placements(|resultImages|)
      && upscaleEnabled == AnySelected(imageSelection)
      && applyEnabled == AnySelected(imageSelection)
    }

    /** `__init__`; the buttons start disabled (their initial state lives in the .ui file). */
    constructor ()
      ensures Valid()
      ensures resultImages == [] && imageSelection == []
      ensures targetWidth == 512 && targetHeight == 512
      ensures mode == None && sourceImage == None
    {
      resultImages := [];
      imageSelection := [];
      targetWidth, targetHeight := 512, 512;
      mode := None;
      sourceImage := None;
      grid := [];
      upscaleEnabled, applyEnabled := false, false;
    }

    method SetSourceImage(image: Image)
      modifies this`sourceImage
      ensures sourceImage == Some(image)
    {
      sourceImage := Some(image);
    }

    method SetTargetSize(width: int, height: int)
      modifies this`targetWidth, this`targetHeight
      ensures targetWidth == width && targetHeight == height
    {
      targetWidth, targetHeight := width, height;
    }

    /** `set_mode`: the strength widgets are shown unless the mode is text-to-image. */
    method SetMode(m: DiffusionMode)
      modifies this`mode, this`strengthVisible
      ensures mode == Some(m)
      ensures strengthVisible <==> m != TextToImage
    {
      mode := Some(m);
      strengthVisible := m != TextToImage;
    }

    /**
     * `generate`. Text-to-image calls the client with the request plus the
     * aspect ratio (`reply` is what that call returns or raises) and shows
     * the new variants with nothing selected. Image-to-image passes a
     * `strength` keyword the client's stub does not accept, so the call
     * raises before `_result_images` is assigned. Any other mode returns.
     */
    method Generate(form: Form, reply: Result<seq<Image>, string>)
      returns (request: Option<map<string, Arg>>, outcome: Outcome)
      requires Valid()
      modifies this`resultImages, this`grid, this`imageSelection, this`upscaleEnabled, this`applyEnabled
      ensures Valid()
      ensures request.Some? ==> "seed" !in request.value
      ensures mode != Some(TextToImage) && mode != Some(ImageToImage) ==> request == None && outcome == NoRequest
      ensures mode == Some(ImageToImage) ==> outcome == Raised(UnexpectedKeyword("strength"))
      ensures mode == Some(TextToImage) && targetHeight == 0 ==> outcome == Raised(ZeroDivisionError)
      ensures mode == Some(TextToImage) && targetHeight != 0 ==>
        && request == Some(LegacyRequest(form)["aspect_ratio" := Dialog.Number(targetWidth as real / targetHeight as real)])
        && outcome == (if reply.Ok? then Succeeded else Raised(ClientRaised(reply.error)))
      ensures outcome == Succeeded ==>
        && resultImages == reply.value && imageSelection == Cleared(|reply.value|)
        && !upscaleEnabled && !applyEnabled
      ensures outcome != Succeeded ==> resultImages == old(resultImages) && imageSelection == old(imageSelection)
    {
      var base := LegacyRequest(form);
      if mode == Some(TextToImage) {
        if targetHeight == 0 {
          return None, Raised(ZeroDivisionError);
        }
        var withRatio := base["aspect_ratio" := Dialog.Number(targetWidth as real / targetHeight as real)];
        request := Some(withRatio);
        if reply.Err? {
          return request, Raised(ClientRaised(reply.error));
        }
        resultImages := reply.value;
      } else if mode == Some(ImageToImage) {
        var withSource := base["strength" := Dialog.Number(form.strength)]["source_image" := Dialog.Picture(sourceImage)];
        return Some(withSource), Raised(UnexpectedKeyword("strength"));
      } else {
        return None, NoRequest;
      }

      var layout := grid;
      while |layout| > 0
        invariant layout <= grid
        decreases |layout|
      {
        layout := layout[..|layout| - 1];
      }

      imageSelection := Cleared(|resultImages|);
      upscaleEnabled := false;
      applyEnabled := false;
      AnyIffCountPositive(imageSelection);
      CountCleared(|resultImages|);

      var i := 0;
      while i < |resultImages|
        invariant 0 <= i <= |resultImages|
        invariant layout == Placements(i)
      {
        layout := layout + [Place(i)];
        i := i + 1;
      }
      grid := layout;
      outcome := Succeeded;
    }

    /** The slot of button `i`: record its state; both buttons follow "any selected". */
    method Toggle(i: nat, checked: bool)
      requires Valid() && i < |imageSelection|
      modifies this`imageSelection, this`upscaleEnabled, this`applyEnabled
      ensures Valid()
      ensures imageSelection == old(imageSelection)[i := checked]
      ensures upscaleEnabled == applyEnabled == AnySelected(imageSelection)
    {
      imageSelection := imageSelection[i := checked];
      var anySelected := AnySelected(imageSelection);
      upscaleEnabled := anySelected;
      applyEnabled := anySelected;
    }

    /** `result_images`: the selected variants, in their original order. */
    function ResultImages(): (r: seq<Image>)
      reads this
      requires Valid()
      ensures |r| == CountSelected(imageSelection)
      ensures |r| == |SelectedIndices(imageSelection)|
      ensures forall k :: 0 <= k < |r| ==> r[k] == resultImages[SelectedIndices(imageSelection)[k]]
    {
      SelectedInOrder(imageSelection, resultImages);
      SelectedCount(imageSelection, resultImages);
      Selected(imageSelection, resultImages)
    }
  }
}
