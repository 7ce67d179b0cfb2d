/**
 * The camera panel of the `frontend` console
 * (`frontend/src/app/modules/components/camera/camera.component.ts`): the four
 * arrow keys nudge the camera by three degrees of pan or tilt. Key names are
 * compared exactly as the browser reports them, without lowercasing.
 */
module FrontendCamera {
  import opened Common

  /** The `{ pan, tilt }` adjustment of one key press. */
  datatype Delta = Delta(pan: int, tilt: int)

  const ArrowKeys: seq<string> := ["ArrowUp", "ArrowDown", "ArrowLeft", "ArrowRight"]

  /** `getCameraAdjustment`. */
  function CameraAdjustment(key: string): (r: Delta)
    ensures r.pan == 0 || r.tilt == 0
    ensures -3 <= r.pan <= 3 && -3 <= r.tilt <= 3
  {
    match key
    case "ArrowUp" => Delta(0, 3)
    case "ArrowDown" => Delta(0, -3)
    case "ArrowLeft" => Delta(-3, 0)
    case "ArrowRight" => Delta(3, 0)
    case _ => Delta(0, 0)
  }

  /**
   * `handleKeyDown`: the arguments of the one `adjustCamera` call an arrow key
   * causes, and no call for any other key.
   */
  function KeyDownAdjustment(key: string): (r: Option<Delta>)
    ensures r.Some? <==> key in ArrowKeys
    ensures r.Some? ==> r.value == CameraAdjustment(key)
  {
    if key in ArrowKeys then Some(CameraAdjustment(key)) else None
  }

  /**
   * An arrow key moves exactly one axis by three degrees: up and down tilt,
   * left and right pan. Opposite arrows give opposite deltas, and any other key
   * gives no movement.
   */
  lemma {:induction false} ArrowAdjustments(key: string)
    ensures key in ArrowKeys ==>
      var d := CameraAdjustment(key);
      (d.pan == 0) != (d.tilt == 0) && (d.pan == 3 || d.pan == -3 || d.tilt == 3 || d.tilt == -3)
    ensures key == "ArrowUp" || key == "ArrowDown" ==> CameraAdjustment(key).pan == 0
    ensures key == "ArrowLeft" || key == "ArrowRight" ==> CameraAdjustment(key).tilt == 0
    ensures CameraAdjustment("ArrowDown") == Delta(-CameraAdjustment("ArrowUp").pan, -CameraAdjustment("ArrowUp").tilt)
    ensures CameraAdjustment("ArrowLeft") == Delta(-CameraAdjustment("ArrowRight").pan, -CameraAdjustment("ArrowRight").tilt)
    ensures key !in ArrowKeys ==> CameraAdjustment(key) == Delta(0, 0)
  {
  }
}
