/**
 * The knob controls of the mastering screen: the AI mode knob, the
 * loudness knob and the stereo-width knob, turned by the mouse wheel or by
 * dragging, and the values and save type derived from their rotations.
 *
 * Cursor angles are computed with `Math.atan2` from the cursor and the
 * knob's centre; here they enter as the argument `angle`.
 */
module MasteringKnobs {
  import opened Wrappers
  import Forms

  /** Drags keep every knob within [-90, 90] degrees, and so do the loudness and width wheels. */
  const KnobLimit: real := 90.0
  /** The AI knob's wheel allows [-120, 120] degrees. */
  const AiWheelLimit: real := 120.0
  /** Degrees turned by one wheel event. */
  const WheelStep: real := 5.0
  /** The AI knob's mode changes beyond +-40 degrees. */
  const ModeThreshold: real := 40.0
  /** Full-scale stereo width and loudness (dB) at +-90 degrees. */
  const StereoWidthRange: real := 30.0
  const LoudnessRangeDb: real := 20.0

  function RealMin(a: real, b: real): real { if a <= b then a else b }
  function RealMax(a: real, b: real): real { if a >= b then a else b }

  /** `Math.min(Math.max(value, min), max)`. */
  function Clamp(value: real, min: real, max: real): (r: real)
    ensures min <= max ==> min <= r <= max
    ensures min <= value <= max ==> r == value
    ensures value < min <= max ==> r == min
    ensures value > max ==> r == max
    ensures max < min ==> r == max
  {
    RealMin(RealMax(value, min), max)
  }

  datatype KnobMode = Dynamic | Standard | Smooth

  /** `getKnobMode`: Dynamic below -40 degrees, Standard above 40, Smooth in between. */
  function GetKnobMode(rotation: real): (mode: KnobMode)
    ensures mode == Dynamic <==> rotation < -ModeThreshold
    ensures mode == Standard <==> rotation > ModeThreshold
    ensures mode == Smooth <==> -ModeThreshold <= rotation <= ModeThreshold
  {
    if rotation < -ModeThreshold then Dynamic
    else if rotation > ModeThreshold then Standard
    else Smooth
  }

  /** The mode's name as the screen shows it: a capitalised word. */
  function ModeName(mode: KnobMode): (name: string)
    ensures |name| >= 6 && 'A' <= name[0] <= 'Z'
    ensures forall k :: 1 <= k < |name| ==> 'a' <= name[k] <= 'z'
  {
    match mode
    case Dynamic => "Dynamic"
    case Standard => "Standard"
    case Smooth => "Smooth"
  }

  /** `toLowerCase` on one ASCII character. */
  function LowerChar(c: char): (d: char)
    ensures 'A' <= c <= 'Z' ==> d as int == c as int + 32
    ensures !('A' <= c <= 'Z') ==> d == c
  {
    if 'A' <= c <= 'Z' then (c as int + 32) as char else c
  }

  /** `toLowerCase` on ASCII text: no capital letter is left, and nothing else changes. */
  function ToLowerAscii(s: string): (r: string)
    ensures |r| == |s|
    ensures forall i :: 0 <= i < |r| ==> !('A' <= r[i] <= 'Z')
    ensures forall i :: 0 <= i < |s| && !('A' <= s[i] <= 'Z') ==> r[i] == s[i]
  {
    seq(|s|, i requires 0 <= i < |s| => LowerChar(s[i]))
  }

  /** The `type` field `handleSave` sends: the lower-cased mode of the AI knob. */
  function SaveType(aiRotation: real): (t: string)
    ensures t == "dynamic" <==> aiRotation < -ModeThreshold
    ensures t == "standard" <==> aiRotation > ModeThreshold
    ensures t == "smooth" <==> -ModeThreshold <= aiRotation <= ModeThreshold
  {
    LowerModeNames();
    ToLowerAscii(ModeName(GetKnobMode(aiRotation)))
  }

  lemma LowerModeNames()
    ensures ToLowerAscii("Dynamic") == "dynamic"
    ensures ToLowerAscii("Standard") == "standard"
    ensures ToLowerAscii("Smooth") == "smooth"
  {
  }

  /** Every save type is one of the three audio types the back end knows. */
  lemma SaveTypeIsAudioType(aiRotation: real)
    ensures SaveType(aiRotation) in {"smooth", "dynamic", "standard"}
  {
  }

  /** One wheel event turns a knob 5 degrees up when scrolled up (deltaY < 0), else 5 down. */
  function WheelDelta(deltaY: real): (step: real)
    ensures step == WheelStep <==> deltaY < 0.0
    ensures step == -WheelStep <==> deltaY >= 0.0
  {
    if deltaY < 0.0 then WheelStep else -WheelStep
  }

  /** Rotation after one wheel event on a knob limited to [-limit, limit]. */
  function WheelRotation(prev: real, deltaY: real, limit: real): (r: real)
    ensures limit >= 0.0 ==> -limit <= r <= limit
    ensures -limit <= prev <= limit && deltaY < 0.0 ==> prev <= r <= prev + WheelStep
    ensures -limit <= prev <= limit && deltaY >= 0.0 ==> prev - WheelStep <= r <= prev
    ensures -limit <= prev + WheelDelta(deltaY) <= limit ==> r == prev + WheelDelta(deltaY)
  {
    Clamp(prev + WheelDelta(deltaY), -limit, limit)
  }

  /** Rotation after a drag that turned the cursor by `delta` degrees. */
  function DragRotation(prev: real, delta: real): (r: real)
    ensures -KnobLimit <= r <= KnobLimit
    ensures -KnobLimit <= prev + delta <= KnobLimit ==> r == prev + delta
  {
    Clamp(prev + delta, -KnobLimit, KnobLimit)
  }

  /**
   * An AI rotation the wheel pushed past 90 degrees leaves that range on
   * the first drag move: back to exactly 90 unless the move turns it below
   * 90, and into [-90, 90) when it does.
   */
  lemma DragSnapsWheelOverrun(prev: real, delta: real)
    requires KnobLimit < prev <= AiWheelLimit
    ensures delta >= KnobLimit - prev ==> DragRotation(prev, delta) == KnobLimit
    ensures delta < KnobLimit - prev ==> -KnobLimit <= DragRotation(prev, delta) < KnobLimit
  {
  }

  /** JavaScript's `Math.round`: nearest integer, halves rounded up. */
  function JsRound(x: real): (n: int)
    ensures x - 0.5 < n as real <= x + 0.5
  {
    (x + 0.5).Floor
  }

  /** `getStereoWidthValue`: the rotation scaled from +-90 degrees to +-30, rounded. */
  function StereoWidthValue(rotation: real): (width: int)
    ensures -KnobLimit <= rotation <= KnobLimit ==> -30 <= width <= 30
    ensures (rotation / KnobLimit) * StereoWidthRange - 0.5 < width as real
    ensures width as real <= (rotation / KnobLimit) * StereoWidthRange + 0.5
  {
    JsRound((rotation / KnobLimit) * StereoWidthRange)
  }

  /** The centre and both ends of the knob map to 0, 30 and -30. */
  lemma StereoWidthEndpoints()
    ensures StereoWidthValue(0.0) == 0
    ensures StereoWidthValue(KnobLimit) == 30
    ensures StereoWidthValue(-KnobLimit) == -30
  {
  }

  /** Turning the knob further never lowers the width. */
  lemma StereoWidthMonotone(a: real, b: real)
    requires a <= b
    ensures StereoWidthValue(a) <= StereoWidthValue(b)
  {
    assert (a / KnobLimit) * StereoWidthRange <= (b / KnobLimit) * StereoWidthRange;
  }

  /** `getLoudnessValue`: the rotation scaled from +-90 degrees to +-20 dB. */
  function LoudnessValue(rotation: real): (db: real)
    ensures -KnobLimit <= rotation <= KnobLimit ==> -LoudnessRangeDb <= db <= LoudnessRangeDb
    ensures db * KnobLimit == rotation * LoudnessRangeDb
  {
    (rotation / KnobLimit) * LoudnessRangeDb
  }

  datatype Knob = Ai | Loudness | StereoWidth

  /** The knob a cursor move turns: the first one being dragged, in the order AI, loudness, width. */
  function DragTarget(draggingAi: bool, draggingLoudness: bool, draggingStereoWidth: bool): (k: Option<Knob>)
    ensures k == Some(Ai) <==> draggingAi
    ensures k == Some(Loudness) <==> !draggingAi && draggingLoudness
    ensures k == Some(StereoWidth) <==> !draggingAi && !draggingLoudness && draggingStereoWidth
    ensures k == None <==> !draggingAi && !draggingLoudness && !draggingStereoWidth
  {
    if draggingAi then Some(Ai)
    else if draggingLoudness then Some(Loudness)
    else if draggingStereoWidth then Some(StereoWidth)
    else None
  }

  /** Rotation state and the drag refs of the mastering screen. */
  class KnobPanel {
    var aiRotation: real
    var loudnessRotation: real
    var stereoWidthRotation: real
    var draggingAi: bool
    var draggingLoudness: bool
    var draggingStereoWidth: bool
    /** The cursor angle seen by the last press or move. */
    var lastAngle: real

    ghost predicate Valid()
      reads this
    {
      && -AiWheelLimit <= aiRotation <= AiWheelLimit
      && -KnobLimit <= loudnessRotation <= KnobLimit
      && -KnobLimit <= stereoWidthRotation <= KnobLimit
    }

    constructor ()
      ensures Valid()
      ensures aiRotation == 0.0 && loudnessRotation == 0.0 && stereoWidthRotation == 0.0
      ensures !draggingAi && !draggingLoudness && !draggingStereoWidth && lastAngle == 0.0
    {
      aiRotation, loudnessRotation, stereoWidthRotation := 0.0, 0.0, 0.0;
      draggingAi, draggingLoudness, draggingStereoWidth := false, false, false;
      lastAngle := 0.0;
    }

    /** `handleAiWheel`: the AI knob's wheel range is [-120, 120]. */
    method AiWheel(deltaY: real)
      requires Valid()
      modifies this`aiRotation
      ensures Valid()
      ensures aiRotation == WheelRotation(old(aiRotation), deltaY, AiWheelLimit)
    {
      aiRotation := Clamp(aiRotation + (if deltaY < 0.0 then WheelStep else -WheelStep), -AiWheelLimit, AiWheelLimit);
    }

    /** `handleLoudnessWheel`. */
    method LoudnessWheel(deltaY: real)
      requires Valid()
      modifies this`loudnessRotation
      ensures Valid()
      ensures loudnessRotation == WheelRotation(old(loudnessRotation), deltaY, KnobLimit)
    {
      loudnessRotation := Clamp(loudnessRotation + (if deltaY < 0.0 then WheelStep else -WheelStep), -KnobLimit, KnobLimit);
    }

    /** `handleStereoWidthWheel`. */
    method StereoWidthWheel(deltaY: real)
      requires Valid()
      modifies this`stereoWidthRotation
      ensures Valid()
      ensures stereoWidthRotation == WheelRotation(old(stereoWidthRotation), deltaY, KnobLimit)
    {
      stereoWidthRotation := Clamp(stereoWidthRotation + (if deltaY < 0.0 then WheelStep else -WheelStep), -KnobLimit, KnobLimit);
    }

    /**
     * Mouse-down or touch-start on a knob: raise that knob's drag flag and
     * remember the cursor angle. Other flags are left as they are.
     */
    method StartDrag(knob: Knob, angle: real)
      modifies this`draggingAi, this`draggingLoudness, this`draggingStereoWidth, this`lastAngle
      ensures lastAngle == angle
      ensures draggingAi == (knob == Ai || old(draggingAi))
      ensures draggingLoudness == (knob == Loudness || old(draggingLoudness))
      ensures draggingStereoWidth == (knob == StereoWidth || old(draggingStereoWidth))
    {
      lastAngle := angle;
      match knob
      case Ai => draggingAi := true;
      case Loudness => draggingLoudness := true;
      case StereoWidth => draggingStereoWidth := true;
    }

    /**
     * Document-level mouse or touch move to the cursor angle `angle`: the
     * first dragged knob turns by the change of angle, clamped to [-90, 90];
     * the angle is remembered whether or not a knob is dragged.
     */
    method Move(angle: real)
      requires Valid()
      modifies this`aiRotation, this`loudnessRotation, this`stereoWidthRotation, this`lastAngle
      ensures Valid()
      ensures lastAngle == angle
      ensures var delta := angle - old(lastAngle);
        match DragTarget(draggingAi, draggingLoudness, draggingStereoWidth)
        case Some(Ai) =>
          aiRotation == DragRotation(old(aiRotation), delta)
          && loudnessRotation == old(loudnessRotation) && stereoWidthRotation == old(stereoWidthRotation)
        case Some(Loudness) =>
          loudnessRotation == DragRotation(old(loudnessRotation), delta)
          && aiRotation == old(aiRotation) && stereoWidthRotation == old(stereoWidthRotation)
        case Some(StereoWidth) =>
          stereoWidthRotation == DragRotation(old(stereoWidthRotation), delta)
          && aiRotation == old(aiRotation) && loudnessRotation == old(loudnessRotation)
        case None =>
          aiRotation == old(aiRotation) && loudnessRotation == old(loudnessRotation)
          && stereoWidthRotation == old(stereoWidthRotation)
    {
      var delta := angle - lastAngle;
      if draggingAi {
        aiRotation := Clamp(aiRotation + delta, -KnobLimit, KnobLimit);
      } else if draggingLoudness {
        loudnessRotation := Clamp(loudnessRotation + delta, -KnobLimit, KnobLimit);
      } else if draggingStereoWidth {
        stereoWidthRotation := Clamp(stereoWidthRotation + delta, -KnobLimit, KnobLimit);
      }
      lastAngle := angle;
    }

    /** Document-level mouse-up or touch-end: every drag flag is cleared. */
    method Release()
      modifies this`draggingAi, this`draggingLoudness, this`draggingStereoWidth
      ensures !draggingAi && !draggingLoudness && !draggingStereoWidth
    {
      draggingAi := false;
      draggingLoudness := false;
      draggingStereoWidth := false;
    }

    /** The form `handleSave` sends: one `type` part holding the save type of the AI knob. */
    method SaveForm() returns (form: Forms.FormData)
      ensures fresh(form)
      ensures form.entries == [Forms.Part("type", Forms.Text(SaveType(aiRotation)))]
    {
      var saveType := ToLowerAscii(ModeName(GetKnobMode(aiRotation)));
      form := new Forms.FormData();
      form.Append("type", Forms.Text(saveType));
    }
  }
}
