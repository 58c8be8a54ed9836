/**
  The settings record and its update from a UI control.
*/
module Controls {
  import opened MathModel

  /** The settings state of the component. */
  datatype Settings = Settings(
    radius: real,
    speed: real,
    frequency: real,
    numCircles: int,
    showCircles: bool,
    circleColors: seq<string>,
    lineColor: string,
    waveColor: string,
    waveform: string)

  /** The settings the component starts with. */
  const InitialSettings: Settings :=
    Settings(100.0, 1.0, 12.0, 1, true, ["#60a5fa"], "#60a5fa", "#60a5fa", "sine")

  /** The fields of Settings, to say which ones an update touches. */
  datatype Field =
    | Radius | Speed | Frequency | NumCircles | ShowCircles
    | CircleColors | LineColor | WaveColor | Waveform

  /** One call of the change handler: a key and the value for it. */
  datatype Change =
    | SetRadius(radius: real)
    | SetSpeed(speed: real)
    | SetFrequency(frequency: real)
    | SetNumCircles(count: int)
    | SetShowCircles(show: bool)
    | SetCircleColors(colors: seq<string>)
    | SetLineColor(lineColor: string)
    | SetWaveColor(waveColor: string)
    | SetWaveform(waveform: string)

  /** The fields a change writes. */
  function Touched(c: Change): set<Field> {
    match c
    case SetRadius(_) => {Radius}
    case SetSpeed(_) => {Speed}
    case SetFrequency(_) => {Frequency}
    case SetNumCircles(_) => {NumCircles, CircleColors}
    case SetShowCircles(_) => {ShowCircles}
    case SetCircleColors(_) => {CircleColors}
    case SetLineColor(_) => {LineColor}
    case SetWaveColor(_) => {WaveColor}
    case SetWaveform(_) => {Waveform}
  }

  /** Every field outside `fields` has the same value in s and r. */
  predicate SameExcept(s: Settings, r: Settings, fields: set<Field>) {
    && (Radius !in fields ==> r.radius == s.radius)
    && (Speed !in fields ==> r.speed == s.speed)
    && (Frequency !in fields ==> r.frequency == s.frequency)
    && (NumCircles !in fields ==> r.numCircles == s.numCircles)
    && (ShowCircles !in fields ==> r.showCircles == s.showCircles)
    && (CircleColors !in fields ==> r.circleColors == s.circleColors)
    && (LineColor !in fields ==> r.lineColor == s.lineColor)
    && (WaveColor !in fields ==> r.waveColor == s.waveColor)
    && (Waveform !in fields ==> r.waveform == s.waveform)
  }

  /** The colour list for `count` circles: an existing non-empty colour stays,
      any other slot gets the colour `randomColor` supplies for its index. */
  function ResizeColors(colors: seq<string>, count: nat, randomColor: nat -> string): (r: seq<string>)
    ensures |r| == count
    ensures forall i :: 0 <= i < count && i < |colors| && colors[i] != "" ==> r[i] == colors[i]
    ensures forall i :: 0 <= i < count && !(i < |colors| && colors[i] != "") ==> r[i] == randomColor(i)
  {
    seq(count, i requires 0 <= i => if i < |colors| && colors[i] != "" then colors[i] else randomColor(i))
  }

  /** The change handler. A circle count is clamped to at least 1 and the
      colour list is resized with it; any other key replaces just its field. */
  function HandleSettingChange(s: Settings, c: Change, randomColor: nat -> string): (r: Settings)
    ensures SameExcept(s, r, Touched(c))
    ensures c.SetNumCircles? ==>
      && r.numCircles >= 1
      && r.numCircles == Max(1, c.count)
      && |r.circleColors| == r.numCircles
      && (forall i :: 0 <= i < r.numCircles && i < |s.circleColors| && s.circleColors[i] != "" ==>
            r.circleColors[i] == s.circleColors[i])
    ensures c.SetRadius? ==> r.radius == c.radius
    ensures c.SetSpeed? ==> r.speed == c.speed
    ensures c.SetFrequency? ==> r.frequency == c.frequency
    ensures c.SetShowCircles? ==> r.showCircles == c.show
    ensures c.SetCircleColors? ==> r.circleColors == c.colors
    ensures c.SetLineColor? ==> r.lineColor == c.lineColor
    ensures c.SetWaveColor? ==> r.waveColor == c.waveColor
    ensures c.SetWaveform? ==> r.waveform == c.waveform
  {
    match c
    case SetNumCircles(count) =>
      var n := Max(1, count);
      s.(numCircles := n, circleColors := ResizeColors(s.circleColors, n, randomColor))
    case SetRadius(v) => s.(radius := v)
    case SetSpeed(v) => s.(speed := v)
    case SetFrequency(v) => s.(frequency := v)
    case SetShowCircles(v) => s.(showCircles := v)
    case SetCircleColors(v) => s.(circleColors := v)
    case SetLineColor(v) => s.(lineColor := v)
    case SetWaveColor(v) => s.(waveColor := v)
    case SetWaveform(v) => s.(waveform := v)
  }

  /** The handler keeps the invariant that there is at least one circle and one colour per circle. */
  predicate WellFormed(s: Settings) {
    s.numCircles >= 1 && |s.circleColors| == s.numCircles
  }

  lemma ChangePreservesWellFormed(s: Settings, c: Change, randomColor: nat -> string)
    requires WellFormed(s)
    requires !c.SetCircleColors?
    ensures WellFormed(HandleSettingChange(s, c, randomColor))
  {
  }
}
