/** The clamped numeric entry of frontend/app/components/NumberInput.tsx. Numbers are
    reals; `parseFloat` of the typed text is the parameter `parsed` (None for NaN), and
    the text `value.toString()` is passed in with the value. */
module NumberInput {
  import opened Types

  const DefaultMin := 0.0
  const DefaultStep := 1.0

  /** The min/max constraints of `handleInputChange`: raise to min, then lower to max. */
  function Constrain(x: real, min: real, max: Option<real>): (r: real)
    ensures max.Some? ==> r <= max.value
    ensures max.None? || min <= max.value ==> min <= r
    ensures min <= x && (max.None? || x <= max.value) ==> r == x
    ensures max.Some? && max.value < min ==> r == max.value
  {
    var raised := if x < min then min else x;
    if max.Some? && raised > max.value then max.value else raised
  }

  /** With consistent bounds, the reported value is the point of [min, max] nearest x. */
  lemma ConstrainIsNearest(x: real, min: real, max: Option<real>)
    requires max.None? || min <= max.value
    ensures x < min ==> Constrain(x, min, max) == min
    ensures max.Some? && x > max.value ==> Constrain(x, min, max) == max.value
    ensures Constrain(Constrain(x, min, max), min, max) == Constrain(x, min, max)
  {
  }

  /** What `handleInputChange` passes to `onChange`, or None when it does not call it.
      A number is reported constrained; empty text reports 0 without any constraint; other
      text that is not a number reports nothing. (`parseFloat("")` is NaN.) */
  function ReportedValue(text: string, parsed: Option<real>, min: real, max: Option<real>): (r: Option<real>)
    requires text == "" ==> parsed.None?
    ensures parsed.Some? ==> r == Some(Constrain(parsed.value, min, max))
    ensures text == "" ==> r == Some(0.0)
    ensures parsed.None? && text != "" ==> r.None?
  {
    match parsed
    case Some(x) => Some(Constrain(x, min, max))
    case None => if text == "" then Some(0.0) else None
  }

  /** `increment`: value + step, lowered to max when there is one. */
  function Incremented(value: real, step: real, max: Option<real>): (r: real)
    ensures max.None? ==> r == value + step
    ensures max.Some? ==> r <= max.value && r <= value + step && (r == value + step || r == max.value)
  {
    if max.Some? && value + step > max.value then max.value else value + step
  }

  /** `decrement`: value - step, raised to min. */
  function Decremented(value: real, step: real, min: real): (r: real)
    ensures min <= r && value - step <= r && (r == value - step || r == min)
  {
    if value - step < min then min else value - step
  }

  /** The increment button is disabled at or above max. */
  predicate IncrementDisabled(disabled: bool, value: real, max: Option<real>) {
    disabled || (max.Some? && value >= max.value)
  }

  /** The decrement button is disabled at or below min. */
  predicate DecrementDisabled(disabled: bool, value: real, min: real) {
    disabled || value <= min
  }

  /** Stepping from a value inside [min, max] with a non-negative step stays inside. */
  lemma StepsStayInRange(value: real, step: real, min: real, max: Option<real>)
    requires 0.0 <= step
    requires min <= value && (max.None? || value <= max.value)
    ensures min <= Incremented(value, step, max) && (max.Some? ==> Incremented(value, step, max) <= max.value)
    ensures min <= Decremented(value, step, min) && (max.Some? ==> Decremented(value, step, min) <= max.value)
  {
  }

  /** An enabled button always moves the value by a positive step in its direction. */
  lemma EnabledButtonsMove(value: real, step: real, min: real, max: Option<real>)
    requires 0.0 < step
    ensures !IncrementDisabled(false, value, max) ==> Incremented(value, step, max) > value
    ensures !DecrementDisabled(false, value, min) ==> Decremented(value, step, min) < value
  {
  }

  /** The state of one NumberInput: its props and the two state variables. */
  class NumberInputField {
    const min: real
    const max: Option<real>
    const step: real
    var value: real
    var valueText: string
    var inputValue: string
    var isFocused: bool

    /** Mounting: `min` and `step` default to 0 and 1, and the input shows the value. */
    constructor (value: real, valueText: string, min: Option<real>, max: Option<real>, step: Option<real>)
      ensures this.min == (if min.Some? then min.value else DefaultMin)
      ensures this.step == (if step.Some? then step.value else DefaultStep)
      ensures this.max == max && this.value == value && this.valueText == valueText
      ensures inputValue == valueText && !isFocused
    {
      this.min := if min.Some? then min.value else DefaultMin;
      this.max := max;
      this.step := if step.Some? then step.value else DefaultStep;
      this.value := value;
      this.valueText := valueText;
      inputValue := valueText;
      isFocused := false;
    }

    /** `handleInputChange`: the input shows exactly what was typed, and the reported
        value (if any) is returned. */
    method HandleInputChange(text: string, parsed: Option<real>) returns (report: Option<real>)
      requires text == "" ==> parsed.None?
      modifies this`inputValue
      ensures inputValue == text
      ensures report == ReportedValue(text, parsed, min, max)
    {
      inputValue := text;
      match parsed {
        case Some(x) =>
          var constrained := x;
          if constrained < min {
            constrained := min;
          }
          if max.Some? && constrained > max.value {
            constrained := max.value;
          }
          report := Some(constrained);
        case None =>
          report := if text == "" then Some(0.0) else None;
      }
    }

    /** `handleFocus` */
    method HandleFocus()
      modifies this`isFocused
      ensures isFocused
    {
      isFocused := true;
    }

    /** `handleBlur`: the input shows the value again. */
    method HandleBlur()
      modifies this`isFocused, this`inputValue
      ensures !isFocused && inputValue == valueText
    {
      isFocused := false;
      inputValue := valueText;
    }

    /** A new `value` prop and the effect that follows it: the text is replaced only
        while the input is not focused. */
    method ValueChanged(newValue: real, newText: string)
      modifies this`value, this`valueText, this`inputValue
      ensures value == newValue && valueText == newText
      ensures inputValue == if isFocused then old(inputValue) else newText
    {
      value := newValue;
      valueText := newText;
      if !isFocused {
        inputValue := newText;
      }
    }

    /** `increment`: the value reported to `onChange`. */
    method Increment() returns (report: real)
      ensures report == Incremented(value, step, max)
    {
      report := value + step;
      if max.Some? && report > max.value {
        report := max.value;
      }
    }

    /** `decrement`: the value reported to `onChange`. */
    method Decrement() returns (report: real)
      ensures report == Decremented(value, step, min)
    {
      report := value - step;
      if report < min {
        report := min;
      }
    }
  }
}
