/**
 * The tool that looks at the scene, and how its call can raise (tools/read_only/visual_verify.py,
 * agent/visual_verifier.py).
 */
module VisualVerify {
  import opened PyText
  import opened PlanModel
  import opened Runtime

  const VISUAL_VERIFY: string := "visual_verify"
  const PARAMETERS: set<string> := {"expected_description", "image_id", "width", "height"}

  datatype Capture = Captured(imageId: Option<string>) | CaptureFailed

  /**
   * What the tool finds around it: the images that the in-memory cache still resolves, the outcome of a new
   * capture, whether the provider sees images (None: there is no provider), and the wording of results.
   */
  datatype Viewer = Viewer(images: set<string>, capture: Capture, multimodal: Option<bool>, report: string)

  /** Python's truth of a value. */
  predicate Truthy(v: Value) {
    match v
    case Null => false
    case Bool(b) => b
    case Int(n) => n != 0
    case Float(r) => r != 0.0
    case Str(s) => s != ""
    case List(items) => items != []
    case Tuple(items) => items != []
    case Dict(entries) => entries != map[]
    case Proxy(entries) => entries != map[]
  }

  /** What Python takes for false: nothing, zero, and whatever is empty. */
  lemma Falsy(v: Value)
    ensures !Truthy(v) <==>
            || v == Null || v == Bool(false) || v == Int(0) || v == Float(0.0) || v == Str("")
            || v == List([]) || v == Tuple([]) || v == Dict(map[]) || v == Proxy(map[])
  {
  }

  /** The dispatcher and the tool take these arguments. */
  predicate Accepted(arguments: map<string, Value>) {
    && arguments.Keys <= PARAMETERS && "expected_description" in arguments
    && arguments["expected_description"].Str? && !Blank(arguments["expected_description"].s)
  }

  predicate NamesImage(arguments: map<string, Value>) {
    "image_id" in arguments && Truthy(arguments["image_id"])
  }

  /** The image that is to be looked at: the one named, or a new capture. */
  function Target(arguments: map<string, Value>, v: Viewer): Value {
    if NamesImage(arguments) then arguments["image_id"]
    else if v.capture.Captured? && v.capture.imageId.Some? then Str(v.capture.imageId.value)
    else Null
  }

  predicate Resolves(image: Value, v: Viewer) {
    image.Str? && image.s in v.images
  }

  /** Running the tool and, after it, the verification; then the result is recorded with its image. */
  function Look(arguments: map<string, Value>, v: Viewer): ToolReply {
    if !Accepted(arguments) then Fails(v.report)
    else if !NamesImage(arguments) && v.capture.CaptureFailed? then Fails(v.report)
    else
      var image := Target(arguments, v);
      if v.multimodal == Some(true) && Truthy(image) && !Resolves(image, v) then Raises(None)
      else if Truthy(image) && !image.Str? then Raises(Some(true))
      else Succeeds(v.report, if image.Str? then Some(image.s) else None)
  }

  /**
   * A look raises exactly for a named image that is not in the cache, if the provider sees images, or that is no
   * text at all; and for a new capture exactly if the provider sees images and the cache has lost it at once.
   */
  lemma LookRaisesExactly(arguments: map<string, Value>, v: Viewer)
    ensures Look(arguments, v).Raises? <==>
            && Accepted(arguments)
            && if NamesImage(arguments)
               then !arguments["image_id"].Str? || (v.multimodal == Some(true) && arguments["image_id"].s !in v.images)
               else && v.capture.Captured? && v.capture.imageId.Some? && v.capture.imageId.value != ""
                    && v.multimodal == Some(true) && v.capture.imageId.value !in v.images
    ensures Look(arguments, v).Raises? && Look(arguments, v).kept.Some? <==>
            Accepted(arguments) && NamesImage(arguments) && !arguments["image_id"].Str? && v.multimodal != Some(true)
  {
  }

  /** A look that does not raise succeeds unless its arguments or a new capture are no good; it reports the image. */
  lemma LookSucceedsExactly(arguments: map<string, Value>, v: Viewer)
    requires !Look(arguments, v).Raises?
    ensures Look(arguments, v).content == v.report
    ensures Look(arguments, v).Succeeds? <==> Accepted(arguments) && (NamesImage(arguments) || v.capture.Captured?)
    ensures Look(arguments, v).Succeeds? ==>
              if NamesImage(arguments)
              then arguments["image_id"].Str? && Look(arguments, v).imageId == Some(arguments["image_id"].s)
              else Look(arguments, v).imageId == v.capture.imageId
  {
  }

  /** The call names an image that the cache does not have, and the provider could look at it. */
  predicate NamesLostImage(arguments: map<string, Value>, v: Viewer) {
    && Accepted(arguments) && v.multimodal == Some(true)
    && "image_id" in arguments && arguments["image_id"].Str?
    && arguments["image_id"].s != "" && arguments["image_id"].s !in v.images
  }
}
