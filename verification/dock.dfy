/**
 * image_ai_utils/diffusion_tools.py: the Krita docker. Each button reads the
 * active document (its size, selection and active layer), prepares the
 * diffusion dialog, and after the dialog is accepted adds the chosen
 * results to the layer stack. Krita is an input (a Document value and the
 * pixel bytes a layer hands out) and its mutators are recorded as calls.
 */
module Dock {
  import opened Wrappers
  import opened Text
  import Dialog

  type Image = Dialog.Image
  type Bytes = Dialog.Image

  /** `LayerType`: Krita's node type names. */
  datatype LayerType =
    | PaintLayer | GroupLayer | FileLayer | FilterLayer | FillLayer | CloneLayer | VectorLayer
    | TransparencyMask | FilterMask | TransformMask | SelectionMask | ColorizeMask

  function LayerTypeValue(t: LayerType): string {
    match t
    case PaintLayer => "paintlayer"
    case GroupLayer => "grouplayer"
    case FileLayer => "filelayer"
    case FilterLayer => "filterlayer"
    case FillLayer => "filllayer"
    case CloneLayer => "clonelayer"
    case VectorLayer => "vectorlayer"
    case TransparencyMask => "transparencymask"
    case FilterMask => "filtermask"
    case TransformMask => "transformmask"
    case SelectionMask => "selectionmask"
    case ColorizeMask => "colorizemask"
  }

  /** `LayerType(value)` */
  function LayerTypeFromValue(v: string): Option<LayerType> {
    if v == "paintlayer" then Some(PaintLayer)
    else if v == "grouplayer" then Some(GroupLayer)
    else if v == "filelayer" then Some(FileLayer)
    else if v == "filterlayer" then Some(FilterLayer)
    else if v == "filllayer" then Some(FillLayer)
    else if v == "clonelayer" then Some(CloneLayer)
    else if v == "vectorlayer" then Some(VectorLayer)
    else if v == "transparencymask" then Some(TransparencyMask)
    else if v == "filtermask" then Some(FilterMask)
    else if v == "transformmask" then Some(TransformMask)
    else if v == "selectionmask" then Some(SelectionMask)
    else if v == "colorizemask" then Some(ColorizeMask)
    else None
  }

  /** The twelve members have twelve different values: each is found again from its own. */
  lemma LayerTypeValuesIdentify(t: LayerType)
    ensures LayerTypeFromValue(LayerTypeValue(t)) == Some(t)
  {
  }

  datatype Rect = Rect(x: int, y: int, width: int, height: int)

  /** A Krita node: its identity, its name and its type. */
  datatype Node = Node(id: nat, name: string, kind: LayerType)

  /**
   * What the code reads from the active document: its size, its selection
   * rectangle, the active node, that node's parent and the parent's
   * children (Krita lists them bottom to top), and the active node's own
   * children.
   */
  datatype Document = Document(
    width: int,
    height: int,
    selection: Option<Rect>,
    active: Node,
    parent: Node,
    siblings: seq<Node>,
    activeChildren: seq<Node>)

  datatype DockError =
    | NotEnoughInfo                  // NotEnoughInfoException
    | ValueError                     // `list.index` of a node that is not there
    | AttributeError(name: string)   // an attribute looked up on None
    | UnexpectedKeyword(name: string) // TypeError: a keyword argument the callee does not declare

  /** `_get_document_selection`: the selection's rectangle, or the whole canvas. */
  function DocumentSelection(doc: Document): (r: Rect)
    ensures doc.selection.Some? ==> r == doc.selection.value
    ensures doc.selection.None? ==> r == Rect(0, 0, doc.width, doc.height)
  {
    match doc.selection
    case Some(s) => s
    case None => Rect(0, 0, doc.width, doc.height)
  }

  datatype PixelMode = RGBA | L

  /** `Image.frombytes(mode, (width, height), pixel_bytes, ...)` */
  datatype Picture = Picture(mode: PixelMode, width: int, height: int, data: Bytes)

  /** `_image_from_layer`: paint layers give RGBA, transparency masks give L, other nodes None. */
  function ImageFromLayer(layer: Node, rect: Rect, pixels: Bytes): (r: Option<Picture>)
    ensures r.Some? <==> layer.kind == PaintLayer || layer.kind == TransparencyMask
    ensures r.Some? ==> r.value.width == rect.width && r.value.height == rect.height && r.value.data == pixels
    ensures r.Some? ==> (r.value.mode == RGBA <==> layer.kind == PaintLayer)
  {
    if layer.kind == PaintLayer then Some(Picture(RGBA, rect.width, rect.height, pixels))
    else if layer.kind == TransparencyMask then Some(Picture(L, rect.width, rect.height, pixels))
    else None
  }

  /** What `_get_current_info` returns besides the document. */
  datatype Info = Info(rect: Rect, layer: Node, image: Option<Picture>)

  /**
   * `_get_current_info`: no document, or (when checked) an active node
   * that is not a paint layer, raises NotEnoughInfo. `pixels` is what the
   * active layer's `pixelData` returns for the working rectangle.
   */
  function CurrentInfo(doc: Option<Document>, checkLayerType: bool, pixels: Bytes): (r: Result<Info, DockError>)
    ensures r.Err? <==> doc.None? || (checkLayerType && doc.value.active.kind != PaintLayer)
    ensures r.Err? ==> r.error == NotEnoughInfo
    ensures r.Ok? ==> r.value.rect == DocumentSelection(doc.value) && r.value.layer == doc.value.active
    ensures r.Ok? && checkLayerType ==>
      r.value.image == Some(Picture(RGBA, r.value.rect.width, r.value.rect.height, pixels))
  {
    if doc.None? then Err(NotEnoughInfo)
    else
      var rect := DocumentSelection(doc.value);
      var layer := doc.value.active;
      if checkLayerType && layer.kind != PaintLayer then Err(NotEnoughInfo)
      else Ok(Info(rect, layer, ImageFromLayer(layer, rect, pixels)))
  }

  /** `list.index`: the first position holding `n`, None for the ValueError. */
  function IndexOf(s: seq<Node>, n: Node): (r: Option<nat>)
    ensures r.Some? ==> r.value < |s| && s[r.value] == n
    ensures r.Some? ==> forall j :: 0 <= j < r.value ==> s[j] != n
    ensures r.None? <==> n !in s
    decreases |s|
  {
    if |s| == 0 then None
    else if s[0] == n then Some(0)
    else
      match IndexOf(s[1..], n)
      case None => None
      case Some(k) => Some(k + 1)
  }

  /**
   * The node new layers go above. By default the active node; with
   * `below`, the sibling just under it, or None (the bottom) when it is
   * the lowest.
   */
  function Anchor(doc: Document, below: bool): (r: Result<Option<Node>, DockError>)
    ensures !below ==> r == Ok(Some(doc.active))
    ensures below ==> (r.Err? <==> doc.active !in doc.siblings)
    ensures r.Err? ==> r.error == ValueError
  {
    if !below then Ok(Some(doc.active))
    else
      match IndexOf(doc.siblings, doc.active)
      case None => Err(ValueError)
      case Some(k) => if k - 1 >= 0 then Ok(Some(doc.siblings[k - 1])) else Ok(None)
  }

  /** With `below`, the anchor is the node right under the active one, and None exactly when it is lowest. */
  lemma AnchorBelow(doc: Document, k: nat)
    requires k < |doc.siblings| && doc.siblings[k] == doc.active
    requires forall j :: 0 <= j < k ==> doc.siblings[j] != doc.active
    ensures k == 0 ==> Anchor(doc, true) == Ok(None)
    ensures k > 0 ==> Anchor(doc, true) == Ok(Some(doc.siblings[k - 1]))
  {
    assert IndexOf(doc.siblings, doc.active) == Some(k);
  }

  /** A node `createNode` made, with what `setPixelData` wrote into it. */
  datatype NewNode = NewNode(name: string, nodeType: string, image: Image, rect: Rect)

  /** A call into Krita's document model. */
  datatype KritaCall =
    | AddChild(parent: Node, child: NewNode, above: Option<Node>) // `parent.addChildNode(child, above)`
    | SetWidth(width: int)
    | SetHeight(height: int)
    | RefreshProjection

  /** `f'diffusion {i}'` */
  function DiffusionLayerName(i: nat): string {
    "diffusion " + Decimal(i)
  }

  /** The layers `insert_layers_from_diffusion` adds, one per result in order. */
  function DiffusionLayers(parent: Node, images: seq<Image>, rect: Rect, above: Option<Node>): seq<KritaCall> {
    seq(|images|, i requires 0 <= i < |images| =>
      AddChild(parent, NewNode(DiffusionLayerName(i), LayerTypeValue(PaintLayer), images[i], rect), above))
  }

  /** Adding the layer of one more result extends the calls by exactly that layer. */
  lemma DiffusionLayersSnoc(parent: Node, images: seq<Image>, i: nat, rect: Rect, above: Option<Node>)
    requires i < |images|
    ensures DiffusionLayers(parent, images[..i + 1], rect, above) ==
      DiffusionLayers(parent, images[..i], rect, above)
      + [AddChild(parent, NewNode(DiffusionLayerName(i), LayerTypeValue(PaintLayer), images[i], rect), above)]
  {
  }

  /**
   * One paint layer per result, in order, all under the same parent and
   * above the same anchor, filled from that result, with pairwise
   * different names.
   */
  lemma DiffusionLayersShape(parent: Node, images: seq<Image>, rect: Rect, above: Option<Node>)
    ensures var calls := DiffusionLayers(parent, images, rect, above);
      && |calls| == |images|
      && (forall i :: 0 <= i < |calls| ==>
            && calls[i].AddChild? && calls[i].parent == parent && calls[i].above == above
            && calls[i].child.image == images[i] && calls[i].child.rect == rect
            && calls[i].child.nodeType == "paintlayer")
      && (forall i, j :: 0 <= i < j < |calls| ==> calls[i].child.name != calls[j].child.name)
  {
    var calls := DiffusionLayers(parent, images, rect, above);
    forall i, j | 0 <= i < j < |calls| ensures calls[i].child.name != calls[j].child.name {
      var a := DiffusionLayerName(i);
      var b := DiffusionLayerName(j);
      assert a[|"diffusion "|..] == Decimal(i);
      assert b[|"diffusion "|..] == Decimal(j);
      if Decimal(i) == Decimal(j) {
        DecimalInjective(i, j);
      }
    }
  }

  /** ImageOps.invert on an L image: every pixel value v becomes 255 - v. */
  function Invert(pixels: Bytes): (r: Bytes)
    ensures |r| == |pixels|
    ensures forall i :: 0 <= i < |r| ==> r[i] as int + pixels[i] as int == 255
  {
    seq(|pixels|, i requires 0 <= i < |pixels| => 255 - pixels[i])
  }

  /** Inverting twice gives the mask back. */
  lemma InvertInvolutive(pixels: Bytes)
    ensures Invert(Invert(pixels)) == pixels
  {
  }

  /**
   * The `for`/`else` search of `inpaint`: the first child of the active
   * node that is a transparency mask, or None when there is none.
   */
  method FirstTransparencyMask(children: seq<Node>) returns (mask: Option<Node>)
    ensures mask.Some? ==> mask.value in children && mask.value.kind == TransparencyMask
    ensures mask.Some? ==> exists k :: 0 <= k < |children| && children[k] == mask.value
                                    && forall j :: 0 <= j < k ==> children[j].kind != TransparencyMask
    ensures mask.None? <==> forall j :: 0 <= j < |children| ==> children[j].kind != TransparencyMask
  {
    var i := 0;
    while i < |children|
      invariant 0 <= i <= |children|
      invariant forall j :: 0 <= j < i ==> children[j].kind != TransparencyMask
    {
      if children[i].kind == TransparencyMask {
        return Some(children[i]);
      }
      i := i + 1;
    }
    return None;
  }

  /** A finished upscale or face restoration: the image and its size. */
  datatype Sized = Sized(data: Image, width: int, height: int)

  /**
   * Applying an upscaled or restored image: the canvas takes its size only
   * when there is no selection, then a paint layer named after the active
   * layer plus `suffix` goes right above it.
   */
  function ApplyResult(doc: Document, rect: Rect, result: Sized, suffix: string): (calls: seq<KritaCall>)
    ensures |calls| > 0 && calls[|calls| - 1] ==
      AddChild(doc.parent, NewNode(doc.active.name + suffix, "paintLayer", result.data,
                                   Rect(rect.x, rect.y, result.width, result.height)), Some(doc.active))
    ensures (exists c :: c in calls && c.SetWidth?) <==> doc.selection.None?
    ensures |calls| == if doc.selection.None? then 3 else 1
    ensures doc.selection.None? ==> calls[..2] == [SetWidth(result.width), SetHeight(result.height)]
  {
    var resize := if doc.selection.None? then [SetWidth(result.width), SetHeight(result.height)] else [];
    var node := NewNode(doc.active.name + suffix, "paintLayer", result.data,
                        Rect(rect.x, rect.y, result.width, result.height));
    var calls := resize + [AddChild(doc.parent, node, Some(doc.active))];
    assert doc.selection.None? ==> calls[0].SetWidth?;
    calls
  }

  /** What the dock does next once it has prepared the diffusion dialog. */
  datatype Step =
    | Returned                    // it returned before opening the dialog
    | AwaitDialog(below: bool)    // `exec()` the dialog; if accepted, insert the results (below the active node or not)

  /** What the dock hands to the upscale dialog. */
  datatype UpscaleParams = UpscaleParams(source: Picture, targetWidth: int, targetHeight: int)

  class DiffusionToolsDock {
    var dialog: Dialog.DiffusionDialog
    /** The enabled state shared by the text-to-image, image-to-image and inpaint buttons. */
    var dependentEnabled: bool

    /** `__init__`: the settings-dependent buttons are enabled exactly when settings were loaded. */
    constructor (settingsLoaded: bool)
      ensures dependentEnabled == settingsLoaded
      ensures fresh(dialog) && dialog.Valid() && dialog.resultImages == [] && dialog.mode == None
    {
      dependentEnabled := settingsLoaded;
      dialog := new Dialog.DiffusionDialog();
    }

    /** `call_settings`: accepting the settings dialog enables the dependent buttons. */
    method CallSettings(accepted: bool)
      modifies this`dependentEnabled
      ensures accepted ==> dependentEnabled
      ensures !accepted ==> dependentEnabled == old(dependentEnabled)
    {
      if accepted {
        dependentEnabled := true;
      }
    }

    /**
     * `insert_layers_from_diffusion`: one paint layer `diffusion i` per
     * selected result, all under the active node's parent, above the
     * anchor; then the projection is refreshed.
     */
    method InsertLayersFromDiffusion(doc: Option<Document>, below: bool)
      returns (calls: seq<KritaCall>, r: Result<(), DockError>)
      requires dialog.Valid()
      ensures doc.None? ==> calls == [] && r == Err(AttributeError("selection"))
      ensures doc.Some? && Anchor(doc.value, below).Err? ==> calls == [] && r == Err(ValueError)
      ensures doc.Some? && Anchor(doc.value, below).Ok? ==>
        && r == Ok(())
        && calls == DiffusionLayers(doc.value.parent, dialog.ResultImages(), DocumentSelection(doc.value),
                                    Anchor(doc.value, below).value) + [RefreshProjection]
    {
      if doc.None? {
        return [], Err(AttributeError("selection"));
      }
      var d := doc.value;
      var rect := DocumentSelection(d);
      var anchor: Option<Node> := Some(d.active);
      if below {
        var index := IndexOf(d.siblings, d.active);
        if index.None? {
          return [], Err(ValueError);
        }
        var currentIndex: int := index.value as int - 1;
        if currentIndex >= 0 {
          anchor := Some(d.siblings[currentIndex]);
        } else {
          anchor := None;
        }
      }
      var images := dialog.ResultImages();
      calls := [];
      var i := 0;
      while i < |images|
        invariant 0 <= i <= |images|
        invariant calls == DiffusionLayers(d.parent, images[..i], rect, anchor)
      {
        var node := NewNode(DiffusionLayerName(i), LayerTypeValue(PaintLayer), images[i], rect);
        DiffusionLayersSnoc(d.parent, images, i, rect, anchor);
        calls := calls + [AddChild(d.parent, node, anchor)];
        i := i + 1;
      }
      assert images[..i] == images;
      calls := calls + [RefreshProjection];
      r := Ok(());
    }

    /** `text_to_image`: size the dialog to the working rectangle and switch it to text-to-image. */
    method TextToImage(doc: Option<Document>) returns (step: Step)
      requires dialog.Valid()
      modifies dialog`targetWidth, dialog`targetHeight, dialog`mode, dialog`strengthVisible, dialog`borderVisible
      ensures dialog.Valid()
      ensures doc.None? ==> step == Returned && unchanged(dialog)
      ensures doc.Some? ==>
        && step == AwaitDialog(false)
        && dialog.targetWidth == DocumentSelection(doc.value).width
        && dialog.targetHeight == DocumentSelection(doc.value).height
        && dialog.mode == Some(Dialog.TextToImage) && !dialog.strengthVisible && !dialog.borderVisible
    {
      if doc.None? {
        return Returned;
      }
      var rect := DocumentSelection(doc.value);
      dialog.SetTargetSize(rect.width, rect.height);
      dialog.SetMode(Dialog.TextToImage);
      step := AwaitDialog(false);
    }

    /** `image_to_image`: the active paint layer's pixels become the dialog's source. */
    method ImageToImage(doc: Option<Document>, pixels: Bytes) returns (step: Step)
      requires dialog.Valid()
      modifies dialog`targetWidth, dialog`targetHeight, dialog`sourceImage, dialog`mode, dialog`strengthVisible,
               dialog`borderVisible
      ensures dialog.Valid()
      ensures CurrentInfo(doc, true, pixels).Err? ==> step == Returned && unchanged(dialog)
      ensures CurrentInfo(doc, true, pixels).Ok? ==>
        && step == AwaitDialog(false)
        && dialog.targetWidth == DocumentSelection(doc.value).width
        && dialog.targetHeight == DocumentSelection(doc.value).height
        && dialog.sourceImage == Some(pixels)
        && dialog.mode == Some(Dialog.ImageToImage) && dialog.strengthVisible && !dialog.borderVisible
    {
      var info := CurrentInfo(doc, true, pixels);
      if info.Err? {
        return Returned;
      }
      dialog.SetTargetSize(info.value.rect.width, info.value.rect.height);
      dialog.SetSourceImage(info.value.image.value.data);
      dialog.SetMode(Dialog.ImageToImage);
      step := AwaitDialog(false);
    }

    /**
     * `inpaint`: like image-to-image, then the first transparency mask
     * under the active layer, inverted, becomes the dialog's mask and the
     * results go below the active layer. Without a mask it returns after
     * sizing the dialog and setting its source, without opening it.
     */
    method Inpaint(doc: Option<Document>, pixels: Bytes, maskPixels: Bytes) returns (step: Step)
      requires dialog.Valid()
      modifies dialog`targetWidth, dialog`targetHeight, dialog`sourceImage, dialog`mask, dialog`mode,
               dialog`strengthVisible, dialog`borderVisible
      ensures dialog.Valid()
      ensures CurrentInfo(doc, true, pixels).Err? ==> step == Returned && unchanged(dialog)
      ensures CurrentInfo(doc, true, pixels).Ok? ==>
        && dialog.targetWidth == DocumentSelection(doc.value).width
        && dialog.targetHeight == DocumentSelection(doc.value).height
        && dialog.sourceImage == Some(pixels)
      ensures CurrentInfo(doc, true, pixels).Ok? ==>
        && (step == Returned <==> forall j :: 0 <= j < |doc.value.activeChildren| ==>
                                   doc.value.activeChildren[j].kind != TransparencyMask)
        && (step == Returned ==>
              && dialog.mask == old(dialog.mask) && dialog.mode == old(dialog.mode)
              && dialog.strengthVisible == old(dialog.strengthVisible)
              && dialog.borderVisible == old(dialog.borderVisible))
        && (step != Returned ==>
              step == AwaitDialog(true) && dialog.mask == Some(Invert(maskPixels))
              && dialog.mode == Some(Dialog.Inpaint) && dialog.strengthVisible && !dialog.borderVisible)
    {
      var info := CurrentInfo(doc, true, pixels);
      if info.Err? {
        return Returned;
      }
      var rect := info.value.rect;
      dialog.SetTargetSize(rect.width, rect.height);
      dialog.SetSourceImage(info.value.image.value.data);
      var mask := FirstTransparencyMask(doc.value.activeChildren);
      if mask.None? {
        return Returned;
      }
      var maskImage := ImageFromLayer(mask.value, rect, maskPixels);
      dialog.SetMask(Some(Invert(maskImage.value.data)));
      dialog.SetMode(Dialog.Inpaint);
      step := AwaitDialog(true);
    }

    /** `make_tilable`: size the dialog, give it the layer, switch it to make-tilable. */
    method MakeTilable(doc: Option<Document>, pixels: Bytes) returns (step: Step)
      requires dialog.Valid()
      modifies dialog`targetWidth, dialog`targetHeight, dialog`sourceImage, dialog`mode, dialog`strengthVisible,
               dialog`borderVisible
      ensures dialog.Valid()
      ensures CurrentInfo(doc, true, pixels).Err? ==> step == Returned && unchanged(dialog)
      ensures CurrentInfo(doc, true, pixels).Ok? ==>
        && step == AwaitDialog(false)
        && dialog.targetWidth == DocumentSelection(doc.value).width
        && dialog.targetHeight == DocumentSelection(doc.value).height
        && dialog.sourceImage == Some(pixels)
        && dialog.mode == Some(Dialog.MakeTilable) && dialog.strengthVisible && dialog.borderVisible
    {
      var info := CurrentInfo(doc, true, pixels);
      if info.Err? {
        return Returned;
      }
      dialog.SetTargetSize(info.value.rect.width, info.value.rect.height);
      dialog.SetSourceImage(info.value.image.value.data);
      dialog.SetMode(Dialog.MakeTilable);
      step := AwaitDialog(false);
    }

    /**
     * `upscale` as written: `set_upscaling_params` declares no
     * `lock_aspect_ratio`, so once a paint layer is active the call raises
     * TypeError and nothing reaches the document.
     */
    method UpscaleAsWritten(doc: Option<Document>, pixels: Bytes) returns (error: Option<DockError>)
      ensures CurrentInfo(doc, true, pixels).Err? ==> error == None
      ensures CurrentInfo(doc, true, pixels).Ok? ==> error == Some(UnexpectedKeyword("lock_aspect_ratio"))
    {
      var info := CurrentInfo(doc, true, pixels);
      if info.Err? {
        return None;
      }
      error := Some(UnexpectedKeyword("lock_aspect_ratio"));
    }

    /**
     * `upscale` as intended (the call without `lock_aspect_ratio`): the
     * upscale dialog is offered the layer at twice the working size; if it
     * is accepted (`result`), the result is applied above the active layer.
     */
    method Upscale(doc: Option<Document>, pixels: Bytes, result: Option<Sized>)
      returns (params: Option<UpscaleParams>, calls: seq<KritaCall>)
      ensures CurrentInfo(doc, true, pixels).Err? ==> params == None && calls == []
      ensures CurrentInfo(doc, true, pixels).Ok? ==>
        var rect := DocumentSelection(doc.value);
        && params == Some(UpscaleParams(Picture(RGBA, rect.width, rect.height, pixels), 2 * rect.width, 2 * rect.height))
        && calls == (if result.Some? then ApplyResult(doc.value, rect, result.value, " upscaled") else [])
    {
      var info := CurrentInfo(doc, true, pixels);
      if info.Err? {
        return None, [];
      }
      var rect := info.value.rect;
      params := Some(UpscaleParams(info.value.image.value, rect.width * 2, rect.height * 2));
      if result.None? {
        return params, [];
      }
      calls := ApplyResult(doc.value, rect, result.value, " upscaled");
    }

    /** `face_restoration`: the layer goes to the face-restoration dialog; an accepted result is applied. */
    method FaceRestoration(doc: Option<Document>, pixels: Bytes, result: Option<Sized>)
      returns (sent: Option<Picture>, calls: seq<KritaCall>)
      ensures CurrentInfo(doc, true, pixels).Err? ==> sent == None && calls == []
      ensures CurrentInfo(doc, true, pixels).Ok? ==>
        var rect := DocumentSelection(doc.value);
        && sent == Some(Picture(RGBA, rect.width, rect.height, pixels))
        && calls == (if result.Some? then ApplyResult(doc.value, rect, result.value, " restored") else [])
    {
      var info := CurrentInfo(doc, true, pixels);
      if info.Err? {
        return None, [];
      }
      sent := info.value.image;
      if result.None? {
        return sent, [];
      }
      calls := ApplyResult(doc.value, info.value.rect, result.value, " restored");
    }
  }
}
