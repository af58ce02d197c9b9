/** The leverage slider with its risk badge and high-leverage warning. */
module Leverage {
  import opened Common

  datatype RiskLevel = Low | Medium | High | VeryHigh

  /** `getRiskLevel`: the band a leverage falls in. */
  function RiskOf(leverage: real): RiskLevel
  {
    if leverage <= 10.0 then Low
    else if leverage <= 25.0 then Medium
    else if leverage <= 50.0 then High
    else VeryHigh
  }

  /** The badge text of a level. */
  function LevelText(r: RiskLevel): string
  {
    match r
    case Low => "Low"
    case Medium => "Medium"
    case High => "High"
    case VeryHigh => "Very High"
  }

  /** The badge colour of a level (`bg-green-500`, `bg-yellow-500`,
      `bg-orange-500`, `bg-red-600`). */
  function LevelColor(r: RiskLevel): Tone
  {
    match r
    case Low => Green
    case Medium => Yellow
    case High => Orange
    case VeryHigh => Red
  }

  /** The position of a level in the order Low < Medium < High < Very High. */
  function Rank(r: RiskLevel): nat
  {
    match r
    case Low => 0
    case Medium => 1
    case High => 2
    case VeryHigh => 3
  }

  /** The bands: at most 10 is Low, at most 25 Medium, at most 50 High, above 50 Very High. */
  lemma RiskBands(leverage: real)
    ensures RiskOf(leverage) == Low <==> leverage <= 10.0
    ensures RiskOf(leverage) == Medium <==> 10.0 < leverage <= 25.0
    ensures RiskOf(leverage) == High <==> 25.0 < leverage <= 50.0
    ensures RiskOf(leverage) == VeryHigh <==> 50.0 < leverage
  {
  }

  /** More leverage never means less risk. */
  lemma RiskMonotone(a: real, b: real)
    requires a <= b
    ensures Rank(RiskOf(a)) <= Rank(RiskOf(b))
  {
  }

  /** The warning is shown at exactly the leverages rated Very High. */
  lemma WarningIffVeryHigh(leverage: real)
    ensures ShowsWarning(leverage) <==> RiskOf(leverage) == VeryHigh
  {
  }

  /** Each level has its own badge text and its own colour, so the badge tells the
      four levels apart; red marks exactly the leverages that also show the warning. */
  lemma BadgeDistinguishesLevels(a: RiskLevel, b: RiskLevel, leverage: real)
    ensures LevelText(a) == LevelText(b) <==> a == b
    ensures LevelColor(a) == LevelColor(b) <==> a == b
    ensures LevelColor(RiskOf(leverage)) == Red <==> ShowsWarning(leverage)
  {
  }

  /** The warning condition of the panel. */
  predicate ShowsWarning(leverage: real)
  {
    leverage > 50.0
  }

  /** A prop the caller may leave undefined, replaced by its default. */
  function OrDefault(p: Option<real>, default: real): real
  {
    match p
    case None => default
    case Some(x) => x
  }

  /** The slider's props and its state. `hasOnChange`/`hasOnCommit` say whether
      the caller passed those callbacks. */
  class LeverageSlider {
    const minLeverage: real
    const maxLeverage: real
    const step: real
    const defaultValue: real
    const hasOnChange: bool
    const hasOnCommit: bool
    var currentLeverage: real

    /** Mounting the slider: missing props take their defaults (1, 100, 1, 10) and
        the current leverage starts at the default value. */
    constructor (minLeverage: Option<real>, maxLeverage: Option<real>, step: Option<real>,
                 defaultValue: Option<real>, hasOnChange: bool, hasOnCommit: bool)
      ensures this.minLeverage == OrDefault(minLeverage, 1.0)
      ensures this.maxLeverage == OrDefault(maxLeverage, 100.0)
      ensures this.step == OrDefault(step, 1.0)
      ensures this.defaultValue == OrDefault(defaultValue, 10.0)
      ensures this.hasOnChange == hasOnChange && this.hasOnCommit == hasOnCommit
      ensures currentLeverage == this.defaultValue
    {
      this.minLeverage := OrDefault(minLeverage, 1.0);
      this.maxLeverage := OrDefault(maxLeverage, 100.0);
      this.step := OrDefault(step, 1.0);
      this.defaultValue := OrDefault(defaultValue, 10.0);
      this.hasOnChange := hasOnChange;
      this.hasOnCommit := hasOnCommit;
      currentLeverage := OrDefault(defaultValue, 10.0);
    }

    /** `handleValueChange`: the first thumb's value becomes the current leverage
        and is the value passed to `onChange`, when there is one. */
    method HandleValueChange(value: seq<real>) returns (toOnChange: Option<real>)
      requires |value| > 0
      modifies this
      ensures currentLeverage == value[0]
      ensures toOnChange == if hasOnChange then Some(currentLeverage) else None
    {
      currentLeverage := value[0];
      toOnChange := if hasOnChange then Some(value[0]) else None;
    }

    /** `handleValueCommit`: passes the first thumb's value to `onCommit`, when
        there is one, and changes no state. */
    method HandleValueCommit(value: seq<real>) returns (toOnCommit: Option<real>)
      requires |value| > 0
      ensures toOnCommit == if hasOnCommit then Some(value[0]) else None
    {
      toOnCommit := if hasOnCommit then Some(value[0]) else None;
    }

    /** The badge shown now. */
    function Risk(): RiskLevel
      reads this
    {
      RiskOf(currentLeverage)
    }

    /** Whether the warning is shown now. */
    predicate Warning()
      reads this
    {
      ShowsWarning(currentLeverage)
    }
  }
}
