/**
 * The threshold editor: a slider over 0...20 and a keyboard sheet whose Done clamps the typed
 * number into that range and commits it to the bound threshold.
 */
module ThresholdEditor {

  import opened Wrappers

  const SliderMax: real := 20.0

  /** `max(0, min(number, 20))`. */
  function Clamp(number: real): (r: real)
    ensures 0.0 <= r <= SliderMax
    ensures 0.0 <= number <= SliderMax ==> r == number
    ensures number < 0.0 ==> r == 0.0
    ensures number > SliderMax ==> r == SliderMax
  {
    var capped := if number <= SliderMax then number else SliderMax;
    if capped >= 0.0 then capped else 0.0
  }

  /** Clamping an already clamped value changes nothing. */
  lemma ClampIdempotent(number: real)
    ensures Clamp(Clamp(number)) == Clamp(number)
  {
  }

  /** The filled share of the level bar, `threshold / 20`. */
  function FillFraction(threshold: real): (f: real)
    ensures f * SliderMax == threshold
    ensures 0.0 <= threshold <= SliderMax ==> 0.0 <= f <= 1.0
  {
    threshold / SliderMax
  }

  /**
   * The editor's state: the bound `threshold`, the `tempValue` the sheet and an active slider
   * drag write to, and `isEditing`, which also presents the sheet.
   */
  class Editor {
    var threshold: real
    var tempValue: real
    var isEditing: bool

    /** Both values lie on the slider's scale. */
    predicate InRange()
      reads this
    {
      0.0 <= threshold <= SliderMax && 0.0 <= tempValue <= SliderMax
    }

    constructor(threshold: real)
      ensures this.threshold == threshold && tempValue == threshold && !isEditing
    {
      this.threshold := threshold;
      tempValue := threshold;
      isEditing := false;
    }

    /** The slider's editing callback: it tracks `editing`, and the end of an edit commits. */
    method SliderEditingChanged(editing: bool)
      modifies this
      ensures isEditing == editing
      ensures tempValue == old(tempValue)
      ensures !editing ==> threshold == tempValue
      ensures editing ==> threshold == old(threshold)
      ensures old(InRange()) ==> InRange()
    {
      isEditing := editing;
      if !editing {
        threshold := tempValue;
      }
    }

    /**
     * The slider reports `v`, always within its 0...20 range; it writes `tempValue` while
     * editing and the threshold otherwise.
     */
    method SliderMoved(v: real)
      requires 0.0 <= v <= SliderMax
      modifies this
      ensures isEditing == old(isEditing)
      ensures old(isEditing) ==> tempValue == v && threshold == old(threshold)
      ensures !old(isEditing) ==> threshold == v && tempValue == old(tempValue)
      ensures old(InRange()) ==> InRange()
    {
      if isEditing {
        tempValue := v;
      } else {
        threshold := v;
      }
    }

    /** The keyboard button starts the sheet from the current threshold. */
    method KeyboardTapped()
      modifies this
      ensures tempValue == threshold == old(threshold) && isEditing
      ensures old(InRange()) ==> InRange()
    {
      tempValue := threshold;
      isEditing := true;
    }

    /**
     * `saveValue`: `parsed` is what `Double(stringValue)` gives; a number is clamped into
     * 0...20 and written to `tempValue`, and text that is not a number changes nothing.
     */
    method SaveValue(parsed: Option<real>)
      modifies this
      ensures parsed.Some? ==> tempValue == Clamp(parsed.value)
      ensures parsed.None? ==> tempValue == old(tempValue)
      ensures threshold == old(threshold) && isEditing == old(isEditing)
      ensures old(InRange()) ==> InRange()
    {
      if parsed.Some? {
        tempValue := Clamp(parsed.value);
      }
    }

    /** Done: save, then `onDone` commits `tempValue` to the threshold and closes the sheet. */
    method Done(parsed: Option<real>)
      modifies this
      ensures parsed.Some? ==> threshold == tempValue == Clamp(parsed.value)
      ensures parsed.None? ==> threshold == tempValue == old(tempValue)
      ensures !isEditing
      ensures parsed.Some? || old(0.0 <= tempValue <= SliderMax) ==> 0.0 <= threshold <= SliderMax
      ensures old(InRange()) ==> InRange()
    {
      SaveValue(parsed);
      threshold := tempValue;
      isEditing := false;
    }

    /** Cancel dismisses the sheet, which clears `isEditing` through its binding; nothing is saved. */
    method Cancel()
      modifies this
      ensures !isEditing
      ensures threshold == old(threshold) && tempValue == old(tempValue)
    {
      isEditing := false;
    }
  }

  /** Opening the keyboard and pressing Done on a number always leaves a threshold on the scale. */
  method KeyboardEntry(editor: Editor, parsed: real) returns (committed: real)
    modifies editor
    ensures committed == editor.threshold == Clamp(parsed)
    ensures 0.0 <= committed <= SliderMax
    ensures !editor.isEditing
  {
    editor.KeyboardTapped();
    editor.Done(Some(parsed));
    committed := editor.threshold;
  }
}
