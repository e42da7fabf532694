/**
 * image_ai_utils/common/ui/diffusion_dialog.py: the dialog that builds a
 * generation request from its widgets, runs it, shows the variants in a
 * two-column grid of toggle buttons, and lets the artist keep some of them
 * or upscale one. Widget reads are parameters (a Form), the client call
 * made on the worker thread is an input (its result or its error message),
 * and so is the outcome of the modal upscale dialog.
 */
module Dialog {
  import opened Wrappers
  import opened Selection
  import Codec

  /** A PIL image, represented by its saved bytes. */
  type Image = Codec.Bytes

  datatype DiffusionMode = TextToImage | ImageToImage | Inpaint | MakeTilable

  /** What the dialog's widgets hold when Generate is pressed. */
  datatype Form = Form(
    prompt: string,
    inferenceSteps: int,
    guidanceScale: real,
    variants: int,
    scalingMode: string,
    useRandomSeed: bool,
    seed: int,
    strength: real,
    borderWidth: int,
    borderSoftness: real)

  /** A keyword argument handed to a client method. */
  datatype Arg = Text(s: string) | Whole(n: int) | Number(r: real) | Picture(image: Option<Image>)

  datatype ClientMethod = TextToImageMethod | ImageToImageMethod | InpaintMethod

  /** The client method the worker thread runs and its keyword arguments. */
  datatype Call = Call(target: ClientMethod, kwargs: map<string, Arg>)

  /** Exceptions `generate` raises before any request is made. */
  datatype PyError =
    | ZeroDivisionError            // `self._target_width / self._target_height` with a zero height
    | AttributeError(name: string) // the client (or None) has no such method
    | ValueError                   // `list.index(True)` with nothing selected
    | UnexpectedKeyword(name: string) // TypeError: a keyword argument the callee does not declare

  /** How a press of Generate ends. */
  datatype Outcome =
    | NoRequest               // no mode set: `else: return`
    | Raised(error: PyError)  // raised while preparing the call
    | Failed(message: string) // the worker reported failure; an ExceptionDialog shows the message
    | Succeeded

  /** The keys every request carries, plus `seed` when the random-seed box is unchecked. */
  function BaseRequest(form: Form): (r: map<string, Arg>)
    ensures "seed" in r <==> !form.useRandomSeed
    ensures !form.useRandomSeed ==> r["seed"] == Whole(form.seed)
    ensures r.Keys >= {"prompt", "num_inference_steps", "guidance_scale", "num_variants", "scaling_mode"}
    ensures r["prompt"] == Text(form.prompt) && r["scaling_mode"] == Text(form.scalingMode)
    ensures r["num_inference_steps"] == Whole(form.inferenceSteps) && r["guidance_scale"] == Number(form.guidanceScale)
    ensures r["num_variants"] == Whole(form.variants)
    ensures r.Keys <= {"prompt", "num_inference_steps", "guidance_scale", "num_variants", "scaling_mode", "seed"}
  {
    var base := map[
      "prompt" := Text(form.prompt),
      "num_inference_steps" := Whole(form.inferenceSteps),
      "guidance_scale" := Number(form.guidanceScale),
      "num_variants" := Whole(form.variants),
      "scaling_mode" := Text(form.scalingMode)
    ];
    if !form.useRandomSeed then base["seed" := Whole(form.seed)] else base
  }

  /**
   * The call `generate` hands to the worker for a set mode. The aspect ratio
   * is computed as an exact quotient (float rounding is not modelled);
   * `clientReady` says whether `ImageAIUtilsClient.client()` returned a client.
   */
  function GenerateCall(form: Form, mode: DiffusionMode, targetWidth: int, targetHeight: int,
                        source: Option<Image>, mask: Option<Image>, clientReady: bool): (r: Result<Call, PyError>)
    ensures r.Ok? ==> ("seed" in r.value.kwargs <==> !form.useRandomSeed)
    ensures r.Ok? ==> ("aspect_ratio" in r.value.kwargs <==> mode == TextToImage)
    ensures r.Ok? ==> ("strength" in r.value.kwargs <==> mode != TextToImage)
    ensures r.Ok? ==> ("source_image" in r.value.kwargs <==> mode != TextToImage)
    ensures r.Ok? ==> ("mask" in r.value.kwargs <==> mode == Inpaint)
    ensures r.Ok? && mode != TextToImage ==> r.value.kwargs["source_image"] == Picture(source)
    ensures r.Ok? && mode == Inpaint ==> r.value.kwargs["mask"] == Picture(mask)
    ensures r.Ok? <==> clientReady && mode != MakeTilable && (mode == TextToImage ==> targetHeight != 0)
    ensures mode == MakeTilable ==> r == Err(AttributeError("make_tilable"))
    ensures r.Ok? && mode == TextToImage ==> r.value.target == TextToImageMethod
    ensures r.Ok? && mode == ImageToImage ==> r.value.target == ImageToImageMethod
    ensures r.Ok? && mode == Inpaint ==> r.value.target == InpaintMethod
    ensures r.Ok? ==> forall k :: k in BaseRequest(form) ==> k in r.value.kwargs && r.value.kwargs[k] == BaseRequest(form)[k]
    ensures r.Ok? && mode == TextToImage ==> r.value.kwargs["aspect_ratio"] == Number(targetWidth as real / targetHeight as real)
    ensures r.Ok? && mode != TextToImage ==> r.value.kwargs["strength"] == Number(form.strength)
    ensures r.Ok? ==> r.value.kwargs.Keys <= BaseRequest(form).Keys + {"aspect_ratio", "strength", "source_image", "mask"}
  {
    var base := BaseRequest(form);
    match mode
    case TextToImage =>
      if targetHeight == 0 then Err(ZeroDivisionError)
      else if !clientReady then Err(AttributeError("text_to_image"))
      else Ok(Call(TextToImageMethod, base["aspect_ratio" := Number(targetWidth as real / targetHeight as real)]))
    case ImageToImage =>
      if !clientReady then Err(AttributeError("image_to_image"))
      else Ok(Call(ImageToImageMethod, base["strength" := Number(form.strength)]["source_image" := Picture(source)]))
    case Inpaint =>
      if !clientReady then Err(AttributeError("inpaint"))
      else Ok(Call(InpaintMethod,
                   base["strength" := Number(form.strength)]["source_image" := Picture(source)]["mask" := Picture(mask)]))
    case MakeTilable =>
      // the client defines no make_tilable, so the attribute lookup raises whether or not it exists
      Err(AttributeError("make_tilable"))
  }

  class DiffusionDialog {
    var resultImages: seq<Image>
    var resultMask: Option<Image>
    var imageSelection: seq<bool>
    var targetWidth: int
    var targetHeight: int
    var mode: Option<DiffusionMode>
    var sourceImage: Option<Image>
    var mask: Option<Image>
    // widget state
    var grid: seq<Placement>
    var upscaleEnabled: bool
    var applyEnabled: bool
    var strengthVisible: bool
    var borderVisible: bool

    /** One flag and one button per variant, and the two buttons agree with the flags. */
    ghost predicate Valid()
      reads this
    {
      && |imageSelection| == |resultImages|
      && grid == Placements(|resultImages|)
      && upscaleEnabled == (CountSelected(imageSelection) == 1)
      && applyEnabled == AnySelected(imageSelection)
    }

    /** `__init__`; the buttons start disabled (their initial state lives in the .ui file). */
    constructor ()
      ensures Valid()
      ensures resultImages == [] && resultMask == None && imageSelection == []
      ensures targetWidth == 512 && targetHeight == 512
      ensures mode == None && sourceImage == None && mask == None
    {
      resultImages := [];
      resultMask := None;
      imageSelection := [];
      targetWidth, targetHeight := 512, 512;
      mode := None;
      sourceImage, mask := None, None;
      grid := [];
      upscaleEnabled, applyEnabled := false, false;
    }

    method SetSourceImage(image: Image)
      modifies this`sourceImage
      ensures sourceImage == Some(image)
    {
      sourceImage := Some(image);
    }

    method SetMask(m: Option<Image>)
      modifies this`mask
      ensures mask == m
    {
      mask := m;
    }

    method SetTargetSize(width: int, height: int)
      modifies this`targetWidth, this`targetHeight
      ensures targetWidth == width && targetHeight == height
    {
      targetWidth, targetHeight := width, height;
    }

    /**
     * `_update_buttons`: empty the grid from its last item down, clear the
     * selection, disable both buttons, then add one button per variant at
     * row `i // 2`, column `i % 2`.
     */
    method UpdateButtons()
      modifies this`grid, this`imageSelection, this`upscaleEnabled, this`applyEnabled
      ensures Valid()
      ensures imageSelection == Cleared(|resultImages|)
      ensures !upscaleEnabled && !applyEnabled
      ensures grid == Placements(|resultImages|)
    {
      var layout := grid;
      while |layout| > 0
        invariant layout <= grid
        decreases |layout|
      {
        layout := layout[..|layout| - 1];
      }

      imageSelection := Cleared(|resultImages|);
      upscaleEnabled := false;
      applyEnabled := false;
      CountCleared(|resultImages|);
      AnyIffCountPositive(imageSelection);

      var i := 0;
      while i < |resultImages|
        invariant 0 <= i <= |resultImages|
        invariant layout == Placements(i)
      {
        layout := layout + [Place(i)];
        i := i + 1;
      }
      grid := layout;
    }

    /** The slot of button `i`: record its state and re-derive both buttons. */
    method Toggle(i: nat, checked: bool)
      requires Valid() && i < |imageSelection|
      modifies this`imageSelection, this`upscaleEnabled, this`applyEnabled
      ensures Valid()
      ensures imageSelection == old(imageSelection)[i := checked]
      ensures upscaleEnabled <==> CountSelected(imageSelection) == 1
      ensures applyEnabled <==> AnySelected(imageSelection)
    {
      imageSelection := imageSelection[i := checked];
      upscaleEnabled := CountSelected(imageSelection) == 1;
      applyEnabled := AnySelected(imageSelection);
    }

    /** `set_mode`: strength widgets unless text-to-image; border widgets only for make-tilable. */
    method SetMode(m: DiffusionMode)
      modifies this`mode, this`strengthVisible, this`borderVisible
      ensures mode == Some(m)
      ensures strengthVisible <==> m != TextToImage
      ensures borderVisible <==> m == MakeTilable
    {
      mode := Some(m);
      strengthVisible := m != TextToImage;
      borderVisible := m == MakeTilable;
    }

    /**
     * `upscale` as written: `set_upscaling_params` of the upscale dialog
     * declares only the source image and the two target sizes, so the
     * `prompt` keyword raises TypeError before the dialog opens, and no
     * variant is ever replaced.
     */
    method UpscaleAsWritten() returns (error: PyError)
      requires Valid()
      ensures !AnySelected(imageSelection) ==> error == ValueError
      ensures AnySelected(imageSelection) ==> error == UnexpectedKeyword("prompt")
    {
      var first := FirstSelected(imageSelection);
      if first.None? {
        return ValueError;
      }
      error := UnexpectedKeyword("prompt");
    }

    /**
     * `upscale` as intended (the call without `prompt`, which the rest of
     * this model uses): the first selected variant goes to the upscale dialog,
     * which is returned; if that dialog is accepted (`reply` holds its
     * result) only that variant is replaced and the grid is rebuilt.
     * With nothing selected `index(True)` raises ValueError: nothing is
     * sent and nothing changes.
     */
    method Upscale(reply: Option<Image>) returns (sent: Option<Image>)
      requires Valid()
      modifies this`resultImages, this`grid, this`imageSelection, this`upscaleEnabled, this`applyEnabled
      ensures Valid()
      ensures FirstSelected(old(imageSelection)).None? ==>
        sent == None && resultImages == old(resultImages) && imageSelection == old(imageSelection)
      ensures FirstSelected(old(imageSelection)).Some? ==>
        var k := FirstSelected(old(imageSelection)).value;
        && sent == Some(old(resultImages)[k])
        && (reply.None? ==> resultImages == old(resultImages) && imageSelection == old(imageSelection))
        && (reply.Some? ==>
              && resultImages == old(resultImages)[k := reply.value]
              && imageSelection == Cleared(|resultImages|)
              && !upscaleEnabled && !applyEnabled)
    {
      var first := FirstSelected(imageSelection);
      if first.None? {
        return None;
      }
      var selectedId := first.value;
      sent := Some(resultImages[selectedId]);
      if reply.None? {
        return;
      }
      resultImages := resultImages[selectedId := reply.value];
      UpdateButtons();
    }

    /**
     * `generate`: build the call for the current mode, run it, and on
     * success show the new variants with nothing selected. `reply` is what
     * the worker thread reports: the images, or the error message.
     */
    method Generate(form: Form, clientReady: bool, reply: Result<seq<Image>, string>)
      returns (call: Option<Call>, outcome: Outcome)
      requires Valid()
      modifies this`resultImages, this`grid, this`imageSelection, this`upscaleEnabled, this`applyEnabled
      ensures Valid()
      ensures mode.None? ==> call == None && outcome == NoRequest
      ensures mode.Some? ==>
        var c := GenerateCall(form, old(mode).value, old(targetWidth), old(targetHeight), old(sourceImage), old(mask),
                              clientReady);
        && (c.Err? ==> call == None && outcome == Raised(c.error))
        && (c.Ok? ==> call == Some(c.value))
        && (c.Ok? && reply.Err? ==> outcome == Failed(reply.error))
        && (c.Ok? && reply.Ok? ==> outcome == Succeeded)
      ensures outcome == Succeeded ==>
        resultImages == reply.value && imageSelection == Cleared(|reply.value|) && !upscaleEnabled && !applyEnabled
      ensures outcome != Succeeded ==> resultImages == old(resultImages) && imageSelection == old(imageSelection)
    {
      if mode.None? {
        return None, NoRequest;
      }
      var c := GenerateCall(form, mode.value, targetWidth, targetHeight, sourceImage, mask, clientReady);
      if c.Err? {
        return None, Raised(c.error);
      }
      call := Some(c.value);
      if reply.Err? {
        return call, Failed(reply.error);
      }
      resultImages := reply.value;
      UpdateButtons();
      outcome := Succeeded;
    }

    /** `result_images`: the selected variants, in their original order. */
    function ResultImages(): (r: seq<Image>)
      reads this
      requires Valid()
      ensures |r| == CountSelected(imageSelection)
      ensures |r| == |SelectedIndices(imageSelection)|
      ensures forall k :: 0 <= k < |r| ==> r[k] == resultImages[SelectedIndices(imageSelection)[k]]
    {
      SelectedInOrder(imageSelection, resultImages);
      SelectedCount(imageSelection, resultImages);
      Selected(imageSelection, resultImages)
    }
  }
}
