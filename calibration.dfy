/** The sensor selection of the calibration screen (`src/screen/Calibration/index.tsx`). */
module Calibration {
  import opened Optional

  /** The selection after a click on the item `itemId`: a second click on the selected item clears it. */
  function Toggle(selected: Option<string>, itemId: string): (r: Option<string>)
    ensures selected == Some(itemId) ==> r == None
    ensures selected != Some(itemId) ==> r == Some(itemId)
  {
    if selected == Some(itemId) then None else Some(itemId)
  }

  /**
   * Clicking the same item twice restores the selection exactly when it was
   * empty or that item; from another item it ends empty.
   */
  lemma ToggleTwice(selected: Option<string>, itemId: string)
    ensures Toggle(Toggle(selected, itemId), itemId) == selected <==> selected == None || selected == Some(itemId)
    ensures Toggle(Toggle(selected, itemId), itemId) == if selected == Some(itemId) then selected else None
  {
  }

  /** JavaScript truthiness of the selection: `null` and the empty string are falsy. */
  predicate Truthy(selected: Option<string>)
  {
    selected.Some? && selected.value != ""
  }

  class CalibrationScreen {
    var selectedSensorId: Option<string>

    constructor ()
      ensures selectedSensorId == None
      ensures CalibrateDisabled()
    {
      selectedSensorId := None;
    }

    /** The item's click handler. */
    method ClickItem(itemId: string)
      modifies this
      ensures selectedSensorId == Toggle(old(selectedSensorId), itemId)
    {
      if Some(itemId) == selectedSensorId {
        selectedSensorId := None;
      } else {
        selectedSensorId := Some(itemId);
      }
    }

    /** The item's highlight and its check mark. */
    predicate IsMarked(itemId: string)
      reads this
    {
      selectedSensorId == Some(itemId)
    }

    /** Only the selected item is marked, so at most one is. */
    lemma AtMostOneMarked(a: string, b: string)
      ensures IsMarked(a) && IsMarked(b) ==> a == b
      ensures IsMarked(a) <==> selectedSensorId == Some(a)
    {
    }

    /** `disabled={!selectedSensorId}` on the calibrate button. */
    predicate CalibrateDisabled()
      reads this
      ensures selectedSensorId == None ==> CalibrateDisabled()
      ensures selectedSensorId == Some("") ==> CalibrateDisabled()
      ensures forall id :: selectedSensorId == Some(id) && id != "" ==> !CalibrateDisabled()
    {
      !Truthy(selectedSensorId)
    }
  }
}
