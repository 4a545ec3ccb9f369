# Pizza order form — a verified model

This project models the order form in `frontend/components/Form.js`. The form
is a controlled React component with three fields: `fullname`, `size` and
`toppings`. A Yup schema validates the whole form after every change of its
data. A submit handler is guarded by the validity flag. On submission the
handler stores an order summary and resets the form.

The model has four modules.

- `Schema` (schema.dfy) holds the message constants and the rules. The name
  must be 3 to 20 characters long and is required. The size must be one of
  `S`, `M`, `L` and is required. The toppings may be any list of strings.
  `NameIssues` and `SizeIssues` list which Yup tests fail. `ErrorMap` builds
  the error object that the `err.inner.forEach` loop produces. `Validate` is
  the whole-form validation with `abortEarly: false`, as a pure function.
  It returns `Passed` or `Failed(errors)`, mirroring the promise's
  `then` and `catch`.
- `Changes` (changes.dfy) holds the topping catalog and the state updater
  that `handleChange` passes to `setFormData`. A checkbox appends its value
  or filters every copy out. Any other input writes its value under its
  name.
- `Confirmation` (confirmation.dfy) holds the toppings line of the
  confirmation, with the count written in decimal.
- `OrderForm` (order_form.dfy) holds the component as class `Form`. Its
  fields are the five pieces of state: `formData`, `errors`, `isValid`,
  `submitted` and `orderDetails`. The methods are `HandleChange` and
  `HandleSubmit`. Each one runs `Revalidate` straight after it changes
  `formData`, which stands in for the effect that depends on `formData`.
  The constructor also runs `Revalidate` once, because the effect fires when
  the component mounts. `CollectErrors` is the `forEach` loop that fills
  `newErrors`.

Four behaviours of the code are easy to miss.

- A validation that passes only sets `isValid` (Form.js:47). It leaves
  `errors` as it was, so a message for a field that is now correct stays in
  the map. `ExampleStaleMessage` shows this: after the name "Alice" and the
  size "M", the form is valid and the old `size` message is still there.
- Submission does not clear `errors` (Form.js:75-91). Revalidating the
  empty form fills the map again with one message each for `fullname` and
  `size`.
- The toppings are a list, not a set (Form.js:63-65). A checked box
  appends its value, so the list stays free of duplicates only because the
  rendered checkbox shows whether the value is already listed
  (Form.js:143). `ChangeKeepsToppingsWellFormed` proves this.
  `DuplicateCheckIsPossible` shows that another event would list a
  topping twice.
- The name is limited to 20 characters (Form.js:15).

## Model

| member | source | states |
|---|---|---|
| Schema.NameIssues | frontend/components/Form.js:13-16 | the name tests fail for no input exactly when 3 <= length <= 20 (no trimming, so "" fails); every failure is on `fullname` and carries one of the three name messages |
| Schema.SizeIssues | frontend/components/Form.js:17-19 | the size tests fail for no input exactly when the size is "S", "M" or "L"; every failure is on `size`, and when the size fails the last failure carries "size must be S or M or L" |
| Schema.Issues | frontend/components/Form.js:45-46 | validating without stopping early collects no failure exactly when both the name and the size checks pass |
| Schema.Validate | frontend/components/Form.js:44-55 | validation passes iff both field checks pass; when it fails, the keys of the error map are exactly the failing fields |
| Schema.ErrorMap | frontend/components/Form.js:49-52 | the map built by the loop is empty exactly when there is no failure; its keys and messages are stated by ErrorMapKeys, ErrorMapLastWins and ErrorMapFrom |
| Schema.IssuePaths | frontend/components/Form.js:12-21 | the fields that the collected failures name are exactly the fields whose rules fail |
| Schema.ErrorMapKeys | frontend/components/Form.js:49-52 | the map built from the failures has as keys exactly the fields of the failures |
| Schema.ErrorMapLastWins | frontend/components/Form.js:50-52 | a field's entry holds the message of that field's last failure |
| Schema.ErrorMapFrom | frontend/components/Form.js:50-52 | every entry of the map was written by a failure of that field |
| Schema.ValidateNameMessages | frontend/components/Form.js:6-16 | a name of length 1..2 gets exactly "at least 3", one over 20 gets exactly "at most 20", the empty name gets the too-short or the required message |
| Schema.ValidateSizeMessages | frontend/components/Form.js:8-19 | whenever the size fails, including the empty size, the message kept is exactly "size must be S or M or L" |
| Schema.DefaultsFail | frontend/components/Form.js:33-37 | the empty form fails, with errors for exactly `fullname` and `size`, the size one being the one-of message |
| Schema.ToppingsNeverFail | frontend/components/Form.js:20 | replacing the toppings list never changes the outcome, and `toppings` is never a key of the error map |
| Changes.Without | frontend/components/Form.js:65 | filtering leaves no copy of the value and keeps the count of every other value |
| Changes.WithoutConcat | frontend/components/Form.js:65 | filtering a concatenation filters each part, so the values kept stay in their order |
| Changes.WithoutAbsent | frontend/components/Form.js:65 | filtering out a value that is not listed leaves the list as it was |
| Changes.CheckThenUncheck | frontend/components/Form.js:63-65 | unchecking a topping just after checking it restores the earlier list |
| Changes.ApplyChange | frontend/components/Form.js:58-73 | a checked box appends its value at the end; an unchecked box removes every copy; in both cases name and size stay the same; any other input changes only the field it names, and an unknown name changes none of the three fields |
| Changes.ChangeKeepsToppingsWellFormed | frontend/components/Form.js:137-145 | events that the rendered checkboxes can send keep the toppings free of duplicates and within the catalog |
| Changes.DuplicateCheckIsPossible | frontend/components/Form.js:63-64 | checking a topping that is already listed lists it twice, so the updater does not keep the list duplicate-free by itself |
| Confirmation.DecimalString | frontend/components/Form.js:103 | the interpolated count is a non-empty string of decimal digits with no leading zero |
| Confirmation.DecimalRoundTrip | frontend/components/Form.js:103 | reading the decimal numeral of the count back gives the count |
| Confirmation.ToppingsPhrase | frontend/components/Form.js:101-103 | the line starts with "with " and ends in "s" exactly when the count is not 1 |
| Confirmation.PhraseExamples | frontend/components/Form.js:101-103 | zero toppings give "with no toppings", one gives "with 1 topping" and three give "with 3 toppings" |
| Confirmation.PhraseRoundTrip | frontend/components/Form.js:101-103 | the count can be read back from the line, so the line states the exact count |
| Confirmation.PhraseInjective | frontend/components/Form.js:101-103 | different counts give different lines |
| OrderForm.CollectErrors | frontend/components/Form.js:49-53 | the loop builds exactly the error map of its failures, in order |
| OrderForm.Form.constructor | frontend/components/Form.js:33-56 | the form starts with empty fields, not submitted and with no summary; the validation on mount leaves it invalid with errors for `fullname` and `size` |
| OrderForm.Form.Revalidate | frontend/components/Form.js:44-56 | `isValid` becomes the outcome of validation; a pass leaves `errors` untouched; a failure replaces it wholesale with the new map |
| OrderForm.Form.HandleChange | frontend/components/Form.js:58-73 | the data becomes the updater's result and is revalidated; `submitted` and the summary do not change; the object invariant is kept |
| OrderForm.Form.HandleSubmit | frontend/components/Form.js:75-91 | when invalid, nothing changes; when valid, the form is submitted, the summary holds the name, the size and the topping count from before the reset, the data is back to its defaults, `isValid` is false and the empty form's errors name `fullname` and `size`, with the one-of message for `size` |
| OrderForm.Form.ConfirmationToppings | frontend/components/Form.js:97-104 | the confirmation's toppings line for the stored summary states its topping count exactly |
| OrderForm.ExampleShortName | frontend/components/Form.js:6-16 | typing "Al" leaves the form invalid with the minimum-length message |
| OrderForm.ExampleStaleMessage | frontend/components/Form.js:44-56 | after "Alice" the map holds only the one-of size message; after "M" the form is valid and that message is still the whole map |
| OrderForm.ExampleOrder | frontend/components/Form.js:75-103 | entering "Alice", "M" and one topping and submitting stores ("Alice", "M", 1) and shows "with 1 topping" |

`Form.Valid()` is the object invariant that every handler keeps. It says
that `isValid` agrees with `Validate` on the current data. A failing form
shows that validation's error map. A summary exists exactly when the form is
submitted. A stored summary always has a valid name and size.

## Left out

- ValidateNameMessages: for the empty name it states only that the message is the too-short one or the required one. Yup reports both failures, and the order of `err.inner` decides which is written last; that order belongs to the library, not to this file.
- Schema.NameIssues: the failures of the name are listed in declaration order. This order is an assumption, and no contract depends on it. The size lists the one-of failure last, because Yup checks the one-of whitelist apart from the ordinary tests and its message is the one kept.
- Schema.NameOk: length is counted in Unicode characters. JavaScript counts UTF-16 code units, so the two differ for characters outside the Basic Multilingual Plane.
- Changes.ApplyChange: a non-checkbox input whose name is neither `fullname` nor `size` adds an extra key to the JavaScript object. The model does not track that key, because the schema and the summary never read it. A non-checkbox input named `toppings`, which would replace the list with a string, is not modelled; the form renders no such input.
- Rendering is presentation only and is not modelled (lines 94-152). This covers the labels, the error divs, the "Something went wrong" banner and the disabled submit button. The guard in `handleSubmit` is modelled, and `isValid` carries the gating.
- The greeting and the size line of the confirmation (lines 99-100) are not modelled, including `toLowerCase`. Only the toppings line is.
- `e.preventDefault()` and the DOM event objects are left out. An event is the record of `name`, `value`, checkbox-or-not and `checked`.
- Asynchrony is left out: the promise that `validate` returns, the timing of `useEffect`, and React's batching of state updates. Revalidation runs synchronously after each change of `formData`, and every handler call runs to completion before the next.
- Yup's type checks and coercion are left out, because every field value here is a string or a list of strings.
- The topping ids of the catalog serve only as render keys and play no part in the model.
- frontend/components/App.js is routing and navigation without logic, so it is not modelled. mvpB.test.js is not part of this model.
