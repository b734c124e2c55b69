/** The three-step create-event wizard of frontend/app/create-event/page.tsx: the form
    record, per-step validity, and the page state that the handlers update. */
module CreateEvent {
  import opened Types

  /** The form as first shown, and as it is reset after a successful submit. */
  const InitialForm := EventFormData("", "", "", "", "", "other", Num(0.0), Num(0.0))

  /** The `name` attribute of the input that changed. */
  datatype FormField = Title | Description | ImageUrl | Date | Location | Category | TicketPrice | TotalTickets

  /** What a form field holds: text, or a number for the two ticketing fields. */
  datatype FieldValue = Text(text: string) | Number(number: JsNumber)

  /** `formData[name]` */
  function FieldOf(form: EventFormData, field: FormField): FieldValue {
    match field
    case Title => Text(form.title)
    case Description => Text(form.description)
    case ImageUrl => Text(form.imageUrl)
    case Date => Text(form.date)
    case Location => Text(form.location)
    case Category => Text(form.category)
    case TicketPrice => Number(form.ticketPrice)
    case TotalTickets => Number(form.totalTickets)
  }

  /** The inputs whose text is converted with `Number(value)`. */
  predicate IsNumericField(field: FormField) {
    field == TicketPrice || field == TotalTickets
  }

  /** The wizard step that shows the input for a field. */
  function StepOf(field: FormField): (step: int)
    ensures 1 <= step <= 3
  {
    match field
    case Title => 1
    case Description => 1
    case Category => 1
    case Date => 2
    case Location => 2
    case ImageUrl => 2
    case TicketPrice => 3
    case TotalTickets => 3
  }

  /** The record `handleInputChange` stores: the named field set to the typed text, or to
      `Number(text)` (the parameter `number`) for the two numeric fields; every other
      field as it was. */
  function UpdateField(form: EventFormData, field: FormField, text: string, number: JsNumber): (r: EventFormData)
    ensures FieldOf(r, field) == if IsNumericField(field) then Number(number) else Text(text)
    ensures forall f :: f != field ==> FieldOf(r, f) == FieldOf(form, f)
  {
    match field
    case Title => form.(title := text)
    case Description => form.(description := text)
    case ImageUrl => form.(imageUrl := text)
    case Date => form.(date := text)
    case Location => form.(location := text)
    case Category => form.(category := text)
    case TicketPrice => form.(ticketPrice := number)
    case TotalTickets => form.(totalTickets := number)
  }

  /** `isStepValid`: the fields of the step are filled in; step 3 needs a price of at least
      0 and at least one ticket, and a NaN in either field fails the comparison. */
  function IsStepValid(form: EventFormData, step: int): (valid: bool)
    ensures step == 1 ==> (valid <==> form.title != "" && form.description != "" && form.category != "")
    ensures step == 2 ==> (valid <==> form.date != "" && form.location != "" && form.imageUrl != "")
    ensures step == 3 ==> (valid <==> form.ticketPrice.Num? && form.ticketPrice.value >= 0.0
                                      && form.totalTickets.Num? && form.totalTickets.value > 0.0)
    ensures !(1 <= step <= 3) ==> !valid
  {
    if step == 1 then form.title != "" && form.description != "" && form.category != ""
    else if step == 2 then form.date != "" && form.location != "" && form.imageUrl != ""
    else if step == 3 then AtLeast(form.ticketPrice, 0.0) && Above(form.totalTickets, 0.0)
    else false
  }

  /** Changing a field never changes whether another step is valid: each step's validity
      reads only the fields that step shows. */
  lemma UpdateKeepsOtherSteps(form: EventFormData, field: FormField, text: string, number: JsNumber, step: int)
    requires step != StepOf(field)
    ensures IsStepValid(UpdateField(form, field, text, number), step) == IsStepValid(form, step)
  {
  }

  /** On the initial (and reset) form no step is valid: Next and Create Event stay
      disabled until the user fills the step in. */
  lemma InitialFormInvalid(step: int)
    ensures !IsStepValid(InitialForm, step)
  {
  }

  /** The Next button (shown on steps 1 and 2) is enabled exactly when the step is valid. */
  function NextEnabled(form: EventFormData, currentStep: int): (enabled: bool)
    ensures enabled ==> 1 <= currentStep <= 3
    ensures enabled == IsStepValid(form, currentStep)
  {
    IsStepValid(form, currentStep)
  }

  /** The submit button (shown on step 3) is enabled when the step is valid and no submit
      is running. */
  function SubmitEnabled(form: EventFormData, currentStep: int, isSubmitting: bool): (enabled: bool)
    ensures enabled <==> IsStepValid(form, currentStep) && !isSubmitting
    ensures enabled && currentStep == 3 ==> Above(form.totalTickets, 0.0)
  {
    IsStepValid(form, currentStep) && !isSubmitting
  }

  /** The state of the create-event page. */
  class CreateEventPage {
    var formData: EventFormData
    var isSubmitting: bool
    var currentStep: int

    /** The wizard is always on one of its three steps. */
    ghost predicate Valid()
      reads this
    {
      1 <= currentStep <= 3
    }

    constructor ()
      ensures Valid()
      ensures formData == InitialForm && !isSubmitting && currentStep == 1
    {
      formData := InitialForm;
      isSubmitting := false;
      currentStep := 1;
    }

    /** `nextStep`: one step forward, nothing at step 3. */
    method NextStep()
      requires Valid()
      modifies this`currentStep
      ensures Valid()
      ensures currentStep == if old(currentStep) < 3 then old(currentStep) + 1 else 3
    {
      if currentStep < 3 {
        currentStep := currentStep + 1;
      }
    }

    /** `prevStep`: one step back, nothing at step 1. */
    method PrevStep()
      requires Valid()
      modifies this`currentStep
      ensures Valid()
      ensures currentStep == if old(currentStep) > 1 then old(currentStep) - 1 else 1
    {
      if currentStep > 1 {
        currentStep := currentStep - 1;
      }
    }

    /** `handleInputChange`: the named field takes the typed text (or `Number(text)`). */
    method HandleInputChange(field: FormField, text: string, number: JsNumber)
      requires Valid()
      modifies this`formData
      ensures Valid()
      ensures formData == UpdateField(old(formData), field, text, number)
    {
      formData := UpdateField(formData, field, text, number);
    }

    /** `handleSubmit` up to its `await`: the page shows that a submit is running. */
    method BeginSubmit()
      requires Valid()
      modifies this`isSubmitting
      ensures Valid() && isSubmitting
    {
      isSubmitting := true;
    }

    /** `handleSubmit` after its `await`: on success the form and the step are reset;
        either way the `finally` block clears `isSubmitting`. */
    method FinishSubmit(succeeded: bool)
      requires Valid()
      modifies this
      ensures Valid() && !isSubmitting
      ensures succeeded ==> formData == InitialForm && currentStep == 1
      ensures !succeeded ==> formData == old(formData) && currentStep == old(currentStep)
    {
      if succeeded {
        formData := InitialForm;
        currentStep := 1;
      }
      isSubmitting := false;
    }
  }
}
