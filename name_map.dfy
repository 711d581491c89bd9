/**
 * The constant name table of the avatar scene (the object literal `map`).
 * Its keys are the head mesh's morph-target names, which mark the side with
 * `_L` / `_R`; each key gives the face landmarker's blendshape category name,
 * which marks the side with `Left` / `Right`. `tongueOut` has no landmarker
 * counterpart and gives the empty string.
 */
module NameMap {
  import opened Wrappers

  /**
   * Property access `map[key]` on the table: the entry's value when `key` is
   * one of the table's own keys, `undefined` (None) otherwise. A key that
   * names an inherited object member yields a function or `Object.prototype`,
   * never a string, so it too is None here. The entries are listed in the
   * table's own order. Every landmarker name but the empty one keeps the mesh
   * name's initial (its face region), and renaming a side suffix `_L` / `_R`
   * to `Left` / `Right` lengthens a name by at most three characters.
   */
  function Lookup(key: string): (r: Option<string>)
    ensures r.Some? ==> key != "" && |r.value| <= |key| + 3
    ensures r.Some? && r.value != "" ==> key[0] == r.value[0]
  {
    match key
    case "browInnerUp" => Some("browInnerUp")
    case "browDown_L" => Some("browDownLeft")
    case "browDown_R" => Some("browDownRight")
    case "browOuterUp_L" => Some("browOuterUpLeft")
    case "browOuterUp_R" => Some("browOuterUpRight")
    case "eyeLookUp_L" => Some("eyeLookUpLeft")
    case "eyeLookUp_R" => Some("eyeLookUpRight")
    case "eyeLookDown_L" => Some("eyeLookDownLeft")
    case "eyeLookDown_R" => Some("eyeLookDownRight")
    case "eyeLookIn_L" => Some("eyeLookInLeft")
    case "eyeLookIn_R" => Some("eyeLookInRight")
    case "eyeLookOut_L" => Some("eyeLookOutLeft")
    case "eyeLookOut_R" => Some("eyeLookOutRight")
    case "eyeBlink_L" => Some("eyeBlinkLeft")
    case "eyeBlink_R" => Some("eyeBlinkRight")
    case "eyeSquint_L" => Some("eyeSquintLeft")
    case "eyeSquint_R" => Some("eyeSquintRight")
    case "eyeWide_L" => Some("eyeWideLeft")
    case "eyeWide_R" => Some("eyeWideRight")
    case "cheekPuff" => Some("cheekPuff")
    case "cheekSquint_L" => Some("cheekSquintLeft")
    case "cheekSquint_R" => Some("cheekSquintRight")
    case "noseSneer_L" => Some("noseSneerLeft")
    case "noseSneer_R" => Some("noseSneerRight")
    case "jawOpen" => Some("jawOpen")
    case "jawForward" => Some("jawForward")
    case "jawLeft" => Some("jawLeft")
    case "jawRight" => Some("jawRight")
    case "mouthFunnel" => Some("mouthFunnel")
    case "mouthPucker" => Some("mouthPucker")
    case "mouthLeft" => Some("mouthLeft")
    case "mouthRight" => Some("mouthRight")
    case "mouthRollUpper" => Some("mouthRollUpper")
    case "mouthRollLower" => Some("mouthRollLower")
    case "mouthShrugUpper" => Some("mouthShrugUpper")
    case "mouthShrugLower" => Some("mouthShrugLower")
    case "mouthClose" => Some("mouthClose")
    case "mouthSmile_L" => Some("mouthSmileLeft")
    case "mouthSmile_R" => Some("mouthSmileRight")
    case "mouthFrown_L" => Some("mouthFrownLeft")
    case "mouthFrown_R" => Some("mouthFrownRight")
    case "mouthDimple_L" => Some("mouthDimpleLeft")
    case "mouthDimple_R" => Some("mouthDimpleRight")
    case "mouthUpperUp_L" => Some("mouthUpperUpLeft")
    case "mouthUpperUp_R" => Some("mouthUpperUpRight")
    case "mouthLowerDown_L" => Some("mouthLowerDownLeft")
    case "mouthLowerDown_R" => Some("mouthLowerDownRight")
    case "mouthPress_L" => Some("mouthPressLeft")
    case "mouthPress_R" => Some("mouthPressRight")
    case "mouthStretch_L" => Some("mouthStretchLeft")
    case "mouthStretch_R" => Some("mouthStretchRight")
    case "tongueOut" => Some("")
    case _ => None
  }

  /** `tongueOut` is the one key the table disables: the only one that looks up the empty string. */
  lemma OnlyTongueOutDisabled(key: string)
    ensures Lookup(key) == Some("") <==> key == "tongueOut"
  {
    if Lookup(key).Some? {
      assert |Lookup(key).value| == 0 <==> key == "tongueOut";
    }
  }
}
