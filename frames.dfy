/**
 * The frame callback of the avatar scene: the face landmarker's result for one
 * video frame becomes the scene's current blendshape list. Scores are copied
 * and never computed with, so their type is the parameter `V`.
 */
module Frames {
  import opened Wrappers

  /** A detected expression component and its activation score, as the scene stores it. */
  datatype Blendshape<V> = Blendshape(name: string, value: V)

  /** One category of the landmarker's output (its index and display name are not used). */
  datatype Category<V> = Category(categoryName: string, score: V)

  /** The blendshape categories the landmarker reports for one face. */
  datatype Classifications<V> = Classifications(categories: seq<Category<V>>)

  /** The landmarker's result for one frame: one entry per detected face. */
  datatype LandmarkerResult<V> = LandmarkerResult(faceBlendshapes: seq<Classifications<V>>)

  /**
   * `result?.faceBlendshapes[0]?.categories`: the first face's categories, or
   * `undefined` when there is no result (no landmarker yet) or no face.
   */
  function FirstFaceCategories<V>(result: Option<LandmarkerResult<V>>): (r: Option<seq<Category<V>>>)
    ensures r.Some? <==> result.Some? && |result.value.faceBlendshapes| > 0
    ensures r.Some? ==> r.value == result.value.faceBlendshapes[0].categories
  {
    match result
    case None => None
    case Some(res) =>
      if |res.faceBlendshapes| == 0 then None else Some(res.faceBlendshapes[0].categories)
  }

  /** The element-wise `.map` from `{categoryName, score}` to `{name, value}`. */
  function ToBlendshapes<V>(categories: seq<Category<V>>): (r: seq<Blendshape<V>>)
    ensures |r| == |categories|
    ensures forall i | 0 <= i < |r| ::
              r[i].name == categories[i].categoryName && r[i].value == categories[i].score
  {
    if categories == [] then []
    else [Blendshape(categories[0].categoryName, categories[0].score)] + ToBlendshapes(categories[1..])
  }

  /**
   * The blendshape list after one frame: the first face's categories,
   * converted, replace the current list wholesale; without them the current
   * list is kept. An empty category list is truthy in the source, so it does
   * replace the current list (by the empty one).
   */
  function NextBlendshapes<V>(current: seq<Blendshape<V>>, result: Option<LandmarkerResult<V>>): (r: seq<Blendshape<V>>)
    ensures FirstFaceCategories(result).None? ==> r == current
    ensures FirstFaceCategories(result).Some? ==>
              var categories := FirstFaceCategories(result).value;
              |r| == |categories| &&
              forall i | 0 <= i < |r| ::
                r[i].name == categories[i].categoryName && r[i].value == categories[i].score
  {
    match FirstFaceCategories(result)
    case None => current
    case Some(categories) => ToBlendshapes(categories)
  }

  /** A published frame replaces the list outright: what was shown before it leaves no trace. */
  lemma PublishedFrameReplaces<V>(a: seq<Blendshape<V>>, b: seq<Blendshape<V>>, result: Option<LandmarkerResult<V>>)
    requires FirstFaceCategories(result).Some?
    ensures NextBlendshapes(a, result) == NextBlendshapes(b, result)
  {
  }

  /** The scene's observable blendshape state, written only by the frame callback. */
  class Scene<V> {
    var blendshapes: seq<Blendshape<V>>

    /** The state starts as the empty list. */
    constructor ()
      ensures blendshapes == []
    {
      blendshapes := [];
    }

    /** `onVideoFrame`, given the landmarker's result for the frame. */
    method OnVideoFrame(result: Option<LandmarkerResult<V>>)
      modifies this
      ensures blendshapes == NextBlendshapes(old(blendshapes), result)
    {
      var categories := FirstFaceCategories(result);
      if categories.Some? {
        blendshapes := ToBlendshapes(categories.value);
      }
    }
  }
}
