/** The pizza order form component as a state machine: five state fields,
    the change and submit handlers, and the revalidation that runs after
    every change of the form data. */
module OrderForm {
  import opened Wrappers
  import opened Schema
  import opened Changes
  import opened Confirmation

  /** The snapshot shown on the confirmation: the topping list is reduced to its length. */
  datatype OrderSummary = OrderSummary(fullname: string, size: string, toppings: nat)

  /** Builds the error map of a failed validation, writing each failure's
      message under its field in order. */
  method CollectErrors(issues: seq<Issue>) returns (newErrors: map<string, string>)
    ensures newErrors == ErrorMap(issues)
  {
    newErrors := map[];
    var i := 0;
    while i < |issues|
      invariant 0 <= i <= |issues|
      invariant newErrors == ErrorMap(issues[..i])
    {
      assert issues[..i + 1][..i] == issues[..i];
      newErrors := newErrors[issues[i].path := issues[i].message];
      i := i + 1;
    }
    assert issues[..i] == issues;
  }

  class Form {
    var formData: FormData
    var errors: map<string, string>
    var isValid: bool
    var submitted: bool
    var orderDetails: Option<OrderSummary>

    /** The state every handler keeps: the validity flag agrees with the
        schema on the current data, a failing form shows the current error
        map, and a stored summary describes an order that passed validation. */
    ghost predicate Valid()
      reads this
    {
      && isValid == Validate(formData).Passed?
      && (Validate(formData).Failed? ==> errors == Validate(formData).errors)
      && (submitted <==> orderDetails.Some?)
      && (orderDetails.Some? ==> NameOk(orderDetails.value.fullname) && SizeOk(orderDetails.value.size))
    }

    /** The initial state, followed by the validation that runs on mount. */
    constructor ()
      ensures Valid()
      ensures formData == Defaults && !isValid && !submitted && orderDetails == None
      ensures errors.Keys == {"fullname", "size"}
    {
      formData := Defaults;
      errors := map[];
      isValid := false;
      submitted := false;
      orderDetails := None;
      new;
      Revalidate();
      DefaultsFail();
    }

    /** Validates the current data: a pass sets the flag and leaves the error
        map as it was; a failure replaces the map wholesale and clears the flag. */
    method Revalidate()
      modifies this`errors, this`isValid
      ensures isValid == Validate(formData).Passed?
      ensures errors == if isValid then old(errors) else Validate(formData).errors
    {
      var issues := Issues(formData);
      if issues == [] {
        isValid := true;
      } else {
        var newErrors := CollectErrors(issues);
        errors := newErrors;
        isValid := false;
      }
    }

    /** One change event, then the revalidation it triggers. */
    method HandleChange(e: ChangeEvent)
      requires Valid()
      modifies this
      ensures Valid()
      ensures formData == ApplyChange(old(formData), e)
      ensures isValid == Validate(formData).Passed?
      ensures errors == if isValid then old(errors) else Validate(formData).errors
      ensures submitted == old(submitted) && orderDetails == old(orderDetails)
    {
      formData := ApplyChange(formData, e);
      Revalidate();
    }

    /** Submission: refused without any change while the form is invalid;
        otherwise the summary is taken from the data before the reset, the
        data returns to its defaults and the empty form is revalidated. */
    method HandleSubmit()
      requires Valid()
      modifies this
      ensures Valid()
      ensures !old(isValid) ==>
        formData == old(formData) && errors == old(errors) && isValid == old(isValid)
        && submitted == old(submitted) && orderDetails == old(orderDetails)
      ensures old(isValid) ==>
        && submitted
        && orderDetails == Some(OrderSummary(old(formData).fullname, old(formData).size, |old(formData).toppings|))
        && formData == Defaults
        && !isValid
        && errors.Keys == {"fullname", "size"} && errors["size"] == SizeIncorrect
    {
      if isValid {
        submitted := true;
        orderDetails := Some(OrderSummary(formData.fullname, formData.size, |formData.toppings|));
        formData := Defaults;
        isValid := false;
        DefaultsFail();
        Revalidate();
      }
    }

    /** The toppings line the confirmation shows once an order went through. */
    function ConfirmationToppings(): (line: string)
      reads this
      requires Valid() && submitted
      ensures CountFromPhrase(line) == Some(orderDetails.value.toppings)
    {
      PhraseRoundTrip(orderDetails.value.toppings);
      ToppingsPhrase(orderDetails.value.toppings)
    }
  }

  /** A name that is too short is reported with the minimum-length message. */
  method ExampleShortName() returns (isValid: bool, message: string)
    ensures !isValid && message == FullNameTooShort
  {
    var form := new Form();
    form.HandleChange(ChangeEvent("fullname", "Al", false, false));
    ValidateNameMessages(form.formData);
    isValid, message := form.isValid, form.errors["fullname"];
  }

  /** With a correct name the map holds only the size message; choosing a
      size makes the form valid while that message stays in the map. */
  method ExampleStaleMessage() returns (isValid: bool, errors: map<string, string>)
    ensures isValid
    ensures errors.Keys == {"size"} && errors["size"] == SizeIncorrect
  {
    var form := new Form();
    form.HandleChange(ChangeEvent("fullname", "Alice", false, false));
    assert form.formData == FormData("Alice", "", []);
    ValidateSizeMessages(form.formData);
    form.HandleChange(ChangeEvent("size", "M", false, false));
    assert form.formData == FormData("Alice", "M", []);
    isValid, errors := form.isValid, form.errors;
  }

  /** A session that orders one topping: the summary and the confirmation
      line describe the order taken before the reset. */
  method ExampleOrder() returns (summary: OrderSummary, line: string)
    ensures summary == OrderSummary("Alice", "M", 1)
    ensures line == "with 1 topping"
  {
    var form := new Form();
    form.HandleChange(ChangeEvent("fullname", "Alice", false, false));
    form.HandleChange(ChangeEvent("size", "M", false, false));
    form.HandleChange(ChangeEvent("toppings", "Pepperoni", true, true));
    assert form.formData == FormData("Alice", "M", ["Pepperoni"]);
    form.HandleSubmit();
    summary := form.orderDetails.value;
    line := form.ConfirmationToppings();
    PhraseExamples();
  }
}
