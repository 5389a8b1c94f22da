/**
 * The slider session: the state that the macro keeps in script-level
 * variables and that the slider callback `update_position` changes.
 */
module Controller {
  import opened Wrappers
  import opened Numerals
  import opened SessionStore
  import opened Clamp
  import opened Geometry

  /** What the selection dialog returns when it is accepted: two labels and a clamp percentage. */
  datatype DialogChoice = DialogChoice(followerName: string, curveName: string, clampedPercentage: Decimal)

  /** The values the macro falls back to when the dialog is cancelled. */
  const CancelDefaults: DialogChoice := DialogChoice("Cube", "Sphere", Decimal(97, 0))

  /** The session's labels and percentage: the dialog's choice, or the defaults on cancel. */
  function SessionChoice(choice: Option<DialogChoice>): DialogChoice
  {
    if choice.Some? then choice.value else CancelDefaults
  }

  class FollowerSlider {
    /** The labels chosen in the dialog, the path's first edge and the clamp percentage: fixed for the session. */
    const followerName: string
    const curveName: string
    const curve: Curve
    const clampedPercentage: Decimal

    /** The raw slider value: the restored one at start-up, then the last one the slider reported. */
    var rawValue: real
    /** The follower's placement in the document. */
    var placement: Placement
    /** The whole percentage the value label shows. */
    var display: int
    /** The text of the session file. */
    var stored: string

    /** The record the session file reads back as. */
    function Restored(): Option<SessionRecord>
      reads this
    {
      Load(Some(stored))
    }

    /**
     * The path has a length, the percentage is within the spin box's range,
     * the labels hold no comma (so a saved record reads back), and the
     * session file reads back as a record.
     */
    ghost predicate Valid()
      reads this
    {
      curve.length > 0.0 &&
      0.0 <= clampedPercentage.Value() <= 100.0 &&
      NoComma(followerName) && NoComma(curveName) &&
      Restored().Some?
    }

    /**
     * Start-up after the dialog. An accepted choice is saved with the raw
     * value of the previous file; a cancelled dialog saves nothing and the
     * session runs on the defaults while the file keeps the previous record.
     * Either way the file is then read back, and the label shows the
     * restored raw value as a percentage of the path's length.
     */
    constructor (choice: Option<DialogChoice>, previous: Option<string>, curve: Curve, placement: Placement)
      requires curve.length > 0.0
      requires Load(previous).Some?
      requires choice.Some? ==> NoComma(choice.value.followerName) && NoComma(choice.value.curveName)
      requires choice.Some? ==> 0.0 <= choice.value.clampedPercentage.Value() <= 100.0
      ensures Valid()
      ensures followerName == SessionChoice(choice).followerName
      ensures curveName == SessionChoice(choice).curveName
      ensures clampedPercentage == SessionChoice(choice).clampedPercentage
      ensures this.curve == curve && this.placement == placement
      ensures choice.Some? ==> stored == Save(SessionRecord(followerName, curveName, clampedPercentage,
                                                            Load(previous).value.initialValue))
      ensures choice.Some? ==> Restored() == Some(SessionRecord(followerName, curveName, clampedPercentage,
                                                                Load(previous).value.initialValue))
      ensures choice.None? ==> stored == previous.value && Restored() == Load(previous)
      ensures rawValue == Load(previous).value.initialValue.Value()
      ensures display == DisplayPercent(rawValue, curve.length)
    {
      var chosen := SessionChoice(choice);
      var previousValue := Load(previous).value.initialValue;
      var text := previous.value;
      if choice.Some? {
        var record := SessionRecord(chosen.followerName, chosen.curveName, chosen.clampedPercentage, previousValue);
        text := Save(record);
        LoadSave(record);
      }
      var initial := Load(Some(text));
      var restoredValue := initial.value.initialValue.Value();
      followerName := chosen.followerName;
      curveName := chosen.curveName;
      clampedPercentage := chosen.clampedPercentage;
      this.curve := curve;
      this.placement := placement;
      stored := text;
      rawValue := restoredValue;
      display := DisplayPercent(restoredValue, curve.length);
    }

    /**
     * The slider's callback for a new integer value: the follower is placed at
     * the clamped arc length with a fixed orientation, the label shows the
     * clamped position as a percentage, and the RAW value is persisted.
     */
    method OnSliderChanged(value: int)
      requires Valid() && 0 <= value
      modifies this
      ensures Valid()
      ensures rawValue == value as real
      ensures placement == Placement(
        PointAtLength(curve, EffectiveLength(value as real, clampedPercentage.Value(), curve.length)),
        Upright)
      ensures display == DisplayPercent(EffectiveLength(value as real, clampedPercentage.Value(), curve.length), curve.length)
      ensures 0 <= display <= 100
      ensures stored == Save(SessionRecord(followerName, curveName, clampedPercentage, Decimal(value, 0)))
      ensures Restored() == Some(SessionRecord(followerName, curveName, clampedPercentage, Decimal(value, 0)))
    {
      var length := curve.length;
      var clampedValue := EffectiveLength(value as real, clampedPercentage.Value(), length);
      EffectiveLengthWithinPath(value as real, clampedPercentage.Value(), length);
      var t := curve.parameterByLength(clampedValue);
      var v := curve.valueAt(t);
      placement := Placement(v, Upright);
      display := DisplayPercent(clampedValue, length);
      DisplayPercentInRange(clampedValue, length);
      var record := SessionRecord(followerName, curveName, clampedPercentage, Decimal(value, 0));
      stored := Save(record);
      LoadSave(record);
      rawValue := value as real;
    }
  }

  /**
   * Once the slider reaches the clamp boundary the follower stops: every
   * value at or beyond it gives the same placement, the boundary's point.
   */
  lemma PlacementSaturates(curve: Curve, percentage: real, value: real, value': real)
    requires value >= ClampBoundary(percentage, curve.length) && value' >= ClampBoundary(percentage, curve.length)
    ensures Placement(PointAtLength(curve, EffectiveLength(value, percentage, curve.length)), Upright)
         == Placement(PointAtLength(curve, EffectiveLength(value', percentage, curve.length)), Upright)
    ensures EffectiveLength(value, percentage, curve.length) == ClampBoundary(percentage, curve.length)
  {
    EffectiveLengthSaturates(value, percentage, curve.length);
    EffectiveLengthSaturates(value', percentage, curve.length);
  }

  /**
   * A session on a path of length 200 clamped at 50 %, restored with a raw
   * value of 150: the start-up label shows 75; moving the slider to 150
   * places the follower on the boundary, at arc length 100, shows 50 and
   * persists 150.
   */
  method HalfClampSession(curve: Curve, start: Placement) returns (startup: int, shown: int, at: Placement, restored: Option<SessionRecord>)
    requires curve.length == 200.0
    ensures startup == 75 && shown == 50
    ensures at == Placement(PointAtLength(curve, 100.0), Upright)
    ensures restored == Some(SessionRecord("Cube", "Sketch", Decimal(500, 1), Decimal(150, 0)))
  {
    // The spin box's 50 is a float, written "50.0"; the slider's 150 is an int.
    var percentage, previousValue := Decimal(500, 1), Decimal(150, 0);
    assert percentage.Value() == 50.0 && previousValue.Value() == 150.0;
    assert NoComma("Cube") && NoComma("Sketch");
    var previous := SessionRecord("Cube", "Sketch", percentage, previousValue);
    LoadSave(previous);
    var session := new FollowerSlider(Some(DialogChoice("Cube", "Sketch", percentage)), Some(Save(previous)), curve, start);
    startup := session.display;
    assert startup == DisplayPercent(150.0, 200.0);
    StartupDisplayIgnoresClamp(150.0, 50.0, 200.0);
    session.OnSliderChanged(150);
    shown := session.display;
    at := session.placement;
    restored := session.Restored();
    assert shown == DisplayPercent(EffectiveLength(150.0, 50.0, 200.0), 200.0);
    HalfClampExamples();
  }

  /**
   * A cancelled dialog runs on the defaults `Cube`, `Sphere` and 97 %, and
   * leaves the previous file in place: until the first slider event the
   * file still names the previous session's objects.
   */
  method CancelledSession(curve: Curve, start: Placement) returns (session: FollowerSlider)
    requires curve.length > 0.0
    ensures session.followerName == "Cube" && session.curveName == "Sphere"
    ensures session.clampedPercentage == Decimal(97, 0)
    ensures session.Restored() == Some(SessionRecord("Cube", "Sketch", Decimal(50, 0), Decimal(150, 0)))
  {
    var previous := SessionRecord("Cube", "Sketch", Decimal(50, 0), Decimal(150, 0));
    assert NoComma("Cube") && NoComma("Sketch");
    LoadSave(previous);
    session := new FollowerSlider(None, Some(Save(previous)), curve, start);
  }
}
