/** The state updater of the form's change handler: a text or select input
    replaces one field, a topping checkbox appends its value to the toppings
    list or filters every copy of it out. */
module Changes {
  import opened Schema

  /** One entry of the static topping catalog the form renders as checkboxes. */
  datatype Topping = Topping(id: string, text: string)

  const Catalog: seq<Topping> := [
    Topping("1", "Pepperoni"),
    Topping("2", "Green Peppers"),
    Topping("3", "Pineapple"),
    Topping("4", "Mushrooms"),
    Topping("5", "Ham")
  ]

  /** The checkbox values the rendered form can send: the catalog's texts. */
  predicate InCatalog(value: string) {
    exists i :: 0 <= i < |Catalog| && Catalog[i].text == value
  }

  /** A change event as the input element reports it. */
  datatype ChangeEvent = ChangeEvent(name: string, value: string, isCheckbox: bool, checked: bool)

  /** The list with every occurrence of `v` filtered out, the rest in order. */
  function Without(s: seq<string>, v: string): (r: seq<string>)
    ensures v !in r
    ensures forall t :: t != v ==> multiset(r)[t] == multiset(s)[t]
  {
    if s == [] then []
    else
      assert s == [s[0]] + s[1..];
      (if s[0] == v then [] else [s[0]]) + Without(s[1..], v)
  }

  /** Filtering works piece by piece, so what remains keeps its order. */
  lemma {:induction false} WithoutConcat(a: seq<string>, b: seq<string>, v: string)
    ensures Without(a + b, v) == Without(a, v) + Without(b, v)
  {
    if a == [] {
      assert a + b == b;
    } else {
      assert (a + b)[0] == a[0];
      assert (a + b)[1..] == a[1..] + b;
      WithoutConcat(a[1..], b, v);
      assert Without(a, v) == (if a[0] == v then [] else [a[0]]) + Without(a[1..], v);
    }
  }

  /** Filtering out a value the list does not hold changes nothing. */
  lemma {:induction false} WithoutAbsent(s: seq<string>, v: string)
    requires v !in s
    ensures Without(s, v) == s
  {
    if s != [] {
      WithoutAbsent(s[1..], v);
    }
  }

  /** Unchecking a topping right after checking it restores the list. */
  lemma {:induction false} CheckThenUncheck(s: seq<string>, v: string)
    requires v !in s
    ensures Without(s + [v], v) == s
  {
    if s == [] {
      assert Without([v][1..], v) == [];
    } else {
      assert (s + [v])[1..] == s[1..] + [v];
      CheckThenUncheck(s[1..], v);
    }
  }

  /** The new form data after one change event. A non-checkbox input writes
      its value under its name; a name the schema does not know adds a key
      the model does not track, so the three fields stay as they were. */
  function ApplyChange(prev: FormData, e: ChangeEvent): (next: FormData)
    ensures e.isCheckbox ==> next.fullname == prev.fullname && next.size == prev.size
    ensures e.isCheckbox && e.checked ==> next.toppings == prev.toppings + [e.value]
    ensures e.isCheckbox && !e.checked ==>
      e.value !in next.toppings
      && forall t :: t != e.value ==> multiset(next.toppings)[t] == multiset(prev.toppings)[t]
    ensures !e.isCheckbox ==> next.toppings == prev.toppings
    ensures !e.isCheckbox && e.name == "fullname" ==> next == prev.(fullname := e.value)
    ensures !e.isCheckbox && e.name == "size" ==> next == prev.(size := e.value)
    ensures !e.isCheckbox && e.name != "fullname" && e.name != "size" ==> next == prev
  {
    if e.isCheckbox then
      prev.(toppings := if e.checked then prev.toppings + [e.value] else Without(prev.toppings, e.value))
    else if e.name == "fullname" then prev.(fullname := e.value)
    else if e.name == "size" then prev.(size := e.value)
    else prev
  }

  /** No topping is listed twice and each comes from the catalog. */
  ghost predicate WellFormedToppings(s: seq<string>) {
    (forall t :: multiset(s)[t] <= 1) && (forall i :: 0 <= i < |s| ==> InCatalog(s[i]))
  }

  /** A checkbox event the rendered form can produce: the box shows whether
      the value is listed, so a click checks an absent value or unchecks a
      listed one, and the value is a catalog text. */
  predicate FromRenderedForm(prev: FormData, e: ChangeEvent) {
    e.isCheckbox ==> InCatalog(e.value) && e.checked == (e.value !in prev.toppings)
  }

  /** Events of the rendered form keep the toppings a duplicate-free list of
      catalog texts, although the updater itself does not enforce it. */
  lemma ChangeKeepsToppingsWellFormed(prev: FormData, e: ChangeEvent)
    requires WellFormedToppings(prev.toppings)
    requires FromRenderedForm(prev, e)
    ensures WellFormedToppings(ApplyChange(prev, e).toppings)
  {
    var s, r := prev.toppings, ApplyChange(prev, e).toppings;
    if e.isCheckbox && e.checked {
      forall t ensures multiset(r)[t] <= 1 {
        assert multiset(r) == multiset(s) + multiset{e.value};
        if t == e.value { assert multiset(s)[t] == 0; }
      }
    } else if e.isCheckbox {
      forall i | 0 <= i < |r| ensures InCatalog(r[i]) {
        assert r[i] in multiset(r);
        assert r[i] != e.value;
        assert r[i] in multiset(s);
        var j :| 0 <= j < |s| && s[j] == r[i];
      }
      forall t ensures multiset(r)[t] <= 1 {
        if t == e.value { assert multiset(r)[t] == 0; }
      }
    }
  }

  /** A checked box can break the invariant when the event does not come
      from the rendered form: checking a listed topping lists it twice. */
  lemma DuplicateCheckIsPossible()
    ensures ApplyChange(Defaults.(toppings := ["Ham"]), ChangeEvent("toppings", "Ham", true, true)).toppings
      == ["Ham", "Ham"]
    ensures !WellFormedToppings(["Ham", "Ham"])
  {
    assert multiset(["Ham", "Ham"])["Ham"] == 2;
  }
}
