/** The validation schema of the pizza order form: the rules on `fullname`,
    `size` and `toppings`, the messages they report, and the error map that
    the form builds from the failures of one whole-form validation. */
module Schema {

  const FullNameTooShort: string := "full name must be at least 3 characters"
  const FullNameTooLong: string := "full name must be at most 20 characters"
  const SizeIncorrect: string := "size must be S or M or L"
  const FullNameRequired: string := "Full name is required"
  const SizeRequired: string := "Size is required"

  const MinNameLength: nat := 3
  const MaxNameLength: nat := 20
  const SizeCodes: seq<string> := ["S", "M", "L"]

  /** The field values of the form. */
  datatype FormData = FormData(fullname: string, size: string, toppings: seq<string>)

  /** The values the form starts with and returns to after a submission. */
  const Defaults: FormData := FormData("", "", [])

  /** One failed rule: the field it belongs to and the message it reports. */
  datatype Issue = Issue(path: string, message: string)

  /** What a whole-form validation resolves to: success, or the error map. */
  datatype Outcome = Passed | Failed(errors: map<string, string>)

  /** The reference reading of the `fullname` rules: no trimming, raw length. */
  predicate NameOk(name: string) {
    MinNameLength <= |name| <= MaxNameLength
  }

  /** The reference reading of the `size` rules: one of the three codes exactly. */
  predicate SizeOk(size: string) {
    size == "S" || size == "M" || size == "L"
  }

  /** The failures of the `fullname` tests: min(3), max(20), required. The
      empty string is a present value, so it fails both min and required. */
  function NameIssues(name: string): (r: seq<Issue>)
    ensures r == [] <==> NameOk(name)
    ensures forall i :: 0 <= i < |r| ==> r[i].path == "fullname"
    ensures forall i :: 0 <= i < |r| ==>
      r[i].message == FullNameTooShort || r[i].message == FullNameTooLong || r[i].message == FullNameRequired
  {
    (if |name| < MinNameLength then [Issue("fullname", FullNameTooShort)] else [])
    + (if |name| > MaxNameLength then [Issue("fullname", FullNameTooLong)] else [])
    + (if |name| == 0 then [Issue("fullname", FullNameRequired)] else [])
  }

  /** The failures of the `size` tests: required, oneOf(S, M, L). Yup runs
      the one-of whitelist check apart from the ordinary tests: either its
      failure stops them or it is reported after them. Either way its
      message is the one the error map keeps, so it is listed last. */
  function SizeIssues(size: string): (r: seq<Issue>)
    ensures r == [] <==> SizeOk(size)
    ensures forall i :: 0 <= i < |r| ==> r[i].path == "size"
    ensures r != [] ==> r[|r| - 1].message == SizeIncorrect
  {
    (if size == "" then [Issue("size", SizeRequired)] else [])
    + (if size !in SizeCodes then [Issue("size", SizeIncorrect)] else [])
  }

  /** Every failure of a validation that does not stop at the first one.
      The toppings rule (an array of strings) contributes nothing. */
  function Issues(d: FormData): (r: seq<Issue>)
    ensures r == [] <==> NameOk(d.fullname) && SizeOk(d.size)
  {
    NameIssues(d.fullname) + SizeIssues(d.size)
  }

  /** The map built by writing each failure's message under its field, in
      order, so a later failure of the same field overwrites an earlier one. */
  function ErrorMap(issues: seq<Issue>): (r: map<string, string>)
    ensures r == map[] <==> issues == []
    decreases |issues|
  {
    if issues == [] then map[]
    else
      var last := issues[|issues| - 1];
      var m := ErrorMap(issues[..|issues| - 1])[last.path := last.message];
      assert last.path in m;
      m
  }

  /** The fields whose rules the data fails. */
  function FailingFields(d: FormData): set<string> {
    (if NameOk(d.fullname) then {} else {"fullname"}) + (if SizeOk(d.size) then {} else {"size"})
  }

  /** One whole-form validation. It passes exactly when both field checks
      pass; otherwise its error map has exactly the failing fields as keys. */
  function Validate(d: FormData): (r: Outcome)
    ensures r.Passed? <==> NameOk(d.fullname) && SizeOk(d.size)
    ensures r.Failed? ==> r.errors.Keys == FailingFields(d)
  {
    var issues := Issues(d);
    if issues == [] then Passed
    else
      ErrorMapKeys(issues);
      IssuePaths(d);
      Failed(ErrorMap(issues))
  }

  /** The fields named by the failures are exactly the failing fields. */
  lemma IssuePaths(d: FormData)
    ensures (set i | 0 <= i < |Issues(d)| :: Issues(d)[i].path) == FailingFields(d)
  {
    var issues := Issues(d);
    var n := |NameIssues(d.fullname)|;
    assert forall i :: 0 <= i < n ==> issues[i] == NameIssues(d.fullname)[i];
    assert forall i :: n <= i < |issues| ==> issues[i] == SizeIssues(d.size)[i - n];
    if !NameOk(d.fullname) { assert issues[0].path == "fullname"; }
    if !SizeOk(d.size) { assert issues[|issues| - 1].path == "size"; }
  }

  /** The keys of the error map are the fields of the failures. */
  lemma {:induction false} ErrorMapKeys(issues: seq<Issue>)
    ensures ErrorMap(issues).Keys == set i | 0 <= i < |issues| :: issues[i].path
    decreases |issues|
  {
    if issues != [] {
      var front := issues[..|issues| - 1];
      ErrorMapKeys(front);
      assert forall i :: 0 <= i < |front| ==> front[i] == issues[i];
      var s := set i | 0 <= i < |issues| :: issues[i].path;
      var t := set i | 0 <= i < |front| :: front[i].path;
      assert s == t + {issues[|issues| - 1].path} by {
        forall k | k in s ensures k in t + {issues[|issues| - 1].path} {
          var i :| 0 <= i < |issues| && issues[i].path == k;
          if i < |front| { assert front[i].path == k; }
        }
      }
    }
  }

  /** The message kept for a field is the one its last failure wrote. */
  lemma {:induction false} ErrorMapLastWins(issues: seq<Issue>, j: nat)
    requires j < |issues|
    requires forall l :: j < l < |issues| ==> issues[l].path != issues[j].path
    ensures issues[j].path in ErrorMap(issues)
    ensures ErrorMap(issues)[issues[j].path] == issues[j].message
    decreases |issues|
  {
    var front := issues[..|issues| - 1];
    if j < |issues| - 1 {
      assert front[j] == issues[j];
      ErrorMapLastWins(front, j);
    }
  }

  /** Every message in the error map was written by a failure of that field. */
  lemma {:induction false} ErrorMapFrom(issues: seq<Issue>, k: string)
    requires k in ErrorMap(issues)
    ensures exists i :: 0 <= i < |issues| && issues[i].path == k && issues[i].message == ErrorMap(issues)[k]
    decreases |issues|
  {
    var front := issues[..|issues| - 1];
    var last := issues[|issues| - 1];
    if last.path != k {
      ErrorMapFrom(front, k);
      var i :| 0 <= i < |front| && front[i].path == k && front[i].message == ErrorMap(front)[k];
      assert issues[i] == front[i];
    }
  }

  /** The message the form reports for each way `fullname` can fail. A name
      of length 1 or 2 and a name over 20 fail one rule each and get its
      message; the empty name fails two rules and gets one of theirs. */
  lemma ValidateNameMessages(d: FormData)
    ensures 0 < |d.fullname| < MinNameLength ==>
      Validate(d).Failed? && Validate(d).errors["fullname"] == FullNameTooShort
    ensures |d.fullname| > MaxNameLength ==>
      Validate(d).Failed? && Validate(d).errors["fullname"] == FullNameTooLong
    ensures d.fullname == "" ==>
      Validate(d).Failed? && Validate(d).errors["fullname"] in {FullNameTooShort, FullNameRequired}
  {
    var issues := Issues(d);
    var names := NameIssues(d.fullname);
    assert forall i :: 0 <= i < |names| ==> issues[i] == names[i];
    assert forall i :: |names| <= i < |issues| ==> issues[i].path == "size";
    if 0 < |d.fullname| < MinNameLength || |d.fullname| > MaxNameLength {
      assert |names| == 1;
      ErrorMapLastWins(issues, 0);
    }
    if d.fullname == "" {
      assert Validate(d).errors == ErrorMap(issues);
      ErrorMapFrom(issues, "fullname");
    }
  }

  /** Whenever `size` fails, the form reports the one-of message: a wrong
      code fails that rule alone, and for the empty size the one-of failure
      comes after the required one and overwrites it. */
  lemma ValidateSizeMessages(d: FormData)
    ensures !SizeOk(d.size) ==>
      Validate(d).Failed? && Validate(d).errors["size"] == SizeIncorrect
  {
  }

  /** The empty form fails on both fields, with the one-of message for `size`. */
  lemma DefaultsFail()
    ensures Validate(Defaults).Failed?
    ensures Validate(Defaults).errors.Keys == {"fullname", "size"}
    ensures Validate(Defaults).errors["size"] == SizeIncorrect
  {
  }

  /** Whatever list the toppings hold, they never change the outcome. */
  lemma ToppingsNeverFail(d: FormData, toppings: seq<string>)
    ensures Validate(d.(toppings := toppings)) == Validate(d)
    ensures Validate(d).Failed? ==> "toppings" !in Validate(d).errors
  {
  }
}
