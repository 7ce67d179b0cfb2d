/**
 * The control panel of the `src/main` console
 * (`src/main/frontend/src/app/components/controls/controls.component.ts`). It
 * only displays its inputs and emits mode changes to its parent; it never
 * assigns `driveMode` or `steeringMode` itself.
 */
module MainControls {
  import opened Common

  /** `isActive(key)`: the key, lowercased, is among the pressed keys. */
  predicate IsActive(pressedKeys: seq<string>, key: string)
  {
    ToLower(key) in pressedKeys
  }

  /** Whether a key is shown as active does not depend on its case. */
  lemma {:induction false} IsActiveIgnoresCase(pressedKeys: seq<string>, key: string)
    ensures IsActive(pressedKeys, key) <==> IsActive(pressedKeys, ToLower(key))
    ensures IsActive(pressedKeys, key) <==> exists i :: 0 <= i < |pressedKeys| && pressedKeys[i] == ToLower(key)
  {
    ToLowerIdempotent(key);
  }

  /**
   * `selectDriveMode` and `selectSteeringMode`: the mode emitted to the parent,
   * if any. The current mode is `None` while the parent has not bound one.
   */
  function SelectMode(current: Option<string>, mode: string): (emitted: Option<string>)
    ensures emitted.Some? <==> current != Some(mode)
    ensures emitted.Some? ==> emitted.value == mode
  {
    if current != Some(mode) then Some(mode) else None
  }
}
