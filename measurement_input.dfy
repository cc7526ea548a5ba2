/** The feet-and-inches input: its two text fields, how typed text is cleaned and
    parsed, and the value each change emits. */
module MeasurementInput {
  import opened Wrappers
  import opened Types
  import opened Text

  const DEFAULT_MAX_FEET: int := 99
  const MAX_INCHES: int := 11

  /** `value?.feet?.toString() ?? ''`. */
  function PartText(value: Option<MeasurementValue>, feet: bool): string
  {
    if value.None? then "" else IntToString(if feet then value.value.feet else value.value.inches)
  }

  function Min(a: int, b: int): (m: int)
    ensures m <= a && m <= b && (m == a || m == b)
  {
    if a <= b then a else b
  }

  /** Cleaned text parses to a non-negative number, 0 when it is empty. */
  lemma CleanedParse(text: string)
    ensures ParseIntOrZero(StripNonDigits(text)) == DigitsValue(StripNonDigits(text))
    ensures ParseIntOrZero(StripNonDigits(text)) >= 0
    ensures StripNonDigits(text) == "" ==> ParseIntOrZero(StripNonDigits(text)) == 0
  {
    ParseIntOrZeroOfDigits(StripNonDigits(text));
  }

  /** The text `handleInchesChange` leaves in the inches field reads back as the capped
      value it emits: the capped number when positive, otherwise the cleaned text, which
      then reads as 0. */
  lemma InchesTextReadsBack(text: string)
    ensures var cleaned := StripNonDigits(text);
      var capped := Min(ParseIntOrZero(cleaned), MAX_INCHES);
      0 <= capped <= MAX_INCHES &&
      ParseIntOrZero(if capped > 0 then IntToString(capped) else cleaned) == capped
  {
    var cleaned := StripNonDigits(text);
    CleanedParse(text);
    var capped := Min(ParseIntOrZero(cleaned), MAX_INCHES);
    if capped > 0 {
      ParseIntOfIntToString(capped);
    }
  }

  /** The synced texts read back as the value they were taken from. */
  lemma SyncedTextReadsBack(value: MeasurementValue)
    ensures ParseIntOrZero(PartText(Some(value), true)) == value.feet
    ensures ParseIntOrZero(PartText(Some(value), false)) == value.inches
  {
    ParseIntOfIntToString(value.feet);
    ParseIntOfIntToString(value.inches);
  }

  /** The component's state: the two text fields and its `maxFeet` prop. */
  class MeasurementField {
    var feetText: string
    var inchesText: string
    const maxFeet: int

    /** The inches field reads as a number from 0 to 11. */
    ghost predicate InchesInRange()
      reads this
    {
      0 <= ParseIntOrZero(inchesText) <= MAX_INCHES
    }

    /** The initial state, from the `value` prop; `maxFeet` defaults to 99. */
    constructor (value: Option<MeasurementValue>, maxFeetProp: Option<int>)
      ensures feetText == PartText(value, true) && inchesText == PartText(value, false)
      ensures maxFeet == if maxFeetProp.Some? then maxFeetProp.value else DEFAULT_MAX_FEET
    {
      feetText := PartText(value, true);
      inchesText := PartText(value, false);
      maxFeet := if maxFeetProp.Some? then maxFeetProp.value else DEFAULT_MAX_FEET;
    }

    /** The effect on `[value]`: both fields re-sync from the prop. */
    method SyncFromValue(value: Option<MeasurementValue>)
      modifies this
      ensures feetText == PartText(value, true) && inchesText == PartText(value, false)
      ensures value.Some? ==> ParseIntOrZero(feetText) == value.value.feet && ParseIntOrZero(inchesText) == value.value.inches
      ensures value.Some? && 0 <= value.value.inches <= MAX_INCHES ==> InchesInRange()
      ensures value.None? ==> InchesInRange()
    {
      feetText := PartText(value, true);
      inchesText := PartText(value, false);
      if value.Some? {
        SyncedTextReadsBack(value.value);
      }
    }

    /** `handleFeetChange`: keeps only the digits, emits the feet capped at `maxFeet` and
        the inches read from the inches field. */
    method HandleFeetChange(text: string) returns (emitted: MeasurementValue)
      modifies this
      ensures feetText == StripNonDigits(text) && AllDigits(feetText)
      ensures inchesText == old(inchesText)
      ensures emitted.feet == Min(ParseIntOrZero(StripNonDigits(text)), maxFeet)
      ensures emitted.feet <= maxFeet && (maxFeet >= 0 ==> emitted.feet >= 0)
      ensures emitted.inches == ParseIntOrZero(inchesText)
      ensures old(InchesInRange()) ==> InchesInRange() && 0 <= emitted.inches <= MAX_INCHES
    {
      var cleaned := StripNonDigits(text);
      feetText := cleaned;
      CleanedParse(text);
      var feet := ParseIntOrZero(cleaned);
      var inches := ParseIntOrZero(inchesText);
      emitted := MeasurementValue(Min(feet, maxFeet), inches);
    }

    /** `handleInchesChange`: the inches are capped at 11; the field shows the capped
        number when positive and the cleaned text otherwise; the feet are read from the
        feet field without the `maxFeet` cap. */
    method HandleInchesChange(text: string) returns (emitted: MeasurementValue)
      modifies this
      ensures feetText == old(feetText)
      ensures var capped := Min(ParseIntOrZero(StripNonDigits(text)), MAX_INCHES);
        emitted.inches == capped &&
        inchesText == (if capped > 0 then IntToString(capped) else StripNonDigits(text))
      ensures 0 <= emitted.inches <= MAX_INCHES
      ensures emitted.feet == ParseIntOrZero(feetText)
      ensures InchesInRange() && ParseIntOrZero(inchesText) == emitted.inches
    {
      var cleaned := StripNonDigits(text);
      var inchValue := ParseIntOrZero(cleaned);
      var cappedInches := Min(inchValue, MAX_INCHES);
      InchesTextReadsBack(text);
      inchesText := if cappedInches > 0 then IntToString(cappedInches) else cleaned;
      var feet := ParseIntOrZero(feetText);
      emitted := MeasurementValue(feet, cappedInches);
    }
  }
}
