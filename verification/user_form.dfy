/** The profile form's state and its three pure handlers: toggling an
    instrument in the selection, recording a typed-in rate, and the checks
    made before the form is handed to `onSubmit`. */
module UserForm {
  import opened Results

  /** An input's value: text typed into a field, or a number carried over
      from the profile the form was opened with. */
  datatype Field = Text(text: string) | Number(number: real)

  /** JavaScript falsiness of a field value: the empty string and zero. */
  predicate Falsy(f: Field)
  {
    match f
    case Text(t) => t == ""
    case Number(n) => n == 0.0
  }

  datatype Form = Form(
    name: Field,
    age: Field,
    income: Field,
    investableAmount: Field,
    riskPreference: string,
    investmentGoals: string,
    selectedInstruments: seq<string>,
    rates: map<string, real>)

  /** `xs.filter(i => i !== x)`. */
  function Without(xs: seq<string>, x: string): (r: seq<string>)
    ensures forall y :: y in r <==> y in xs && y != x
    ensures |r| <= |xs|
  {
    if xs == [] then []
    else (if xs[0] == x then [] else [xs[0]]) + Without(xs[1..], x)
  }

  /** `handleInstrumentToggle(instrument)` on the selection. */
  function Toggle(xs: seq<string>, x: string): seq<string>
  {
    if x in xs then Without(xs, x) else xs + [x]
  }

  /** The handler applied to the whole form: only the selection changes. */
  function ToggleInstrument(form: Form, instrument: string): (r: Form)
    ensures r == form.(selectedInstruments := r.selectedInstruments)
    ensures forall y :: y in r.selectedInstruments <==>
      (y in form.selectedInstruments) != (y == instrument)
  {
    ToggleIsSymmetricDifference(form.selectedInstruments, instrument);
    form.(selectedInstruments := Toggle(form.selectedInstruments, instrument))
  }

  lemma {:induction false} WithoutAppend(xs: seq<string>, ys: seq<string>, x: string)
    ensures Without(xs + ys, x) == Without(xs, x) + Without(ys, x)
  {
    if xs == [] {
      assert xs + ys == ys;
    } else {
      var head := if xs[0] == x then [] else [xs[0]];
      WithoutAppend(xs[1..], ys, x);
      assert (xs + ys)[0] == xs[0];
      assert (xs + ys)[1..] == xs[1..] + ys;
      calc {
        Without(xs + ys, x);
        head + Without(xs[1..] + ys, x);
        head + (Without(xs[1..], x) + Without(ys, x));
        (head + Without(xs[1..], x)) + Without(ys, x);
        Without(xs, x) + Without(ys, x);
      }
    }
  }

  lemma {:induction false} WithoutAbsent(xs: seq<string>, x: string)
    requires x !in xs
    ensures Without(xs, x) == xs
  {
    if xs != [] {
      WithoutAbsent(xs[1..], x);
      assert xs == [xs[0]] + xs[1..];
    }
  }

  /** After a toggle the selection holds exactly what it held before, with
      the instrument's membership flipped. */
  lemma ToggleIsSymmetricDifference(xs: seq<string>, x: string)
    ensures forall y :: y in Toggle(xs, x) <==> (y in xs) != (y == x)
  {
  }

  /** A toggle leaves every other instrument where it was, in the same
      relative order: only occurrences of the toggled instrument change. */
  lemma ToggleKeepsOthersInOrder(xs: seq<string>, x: string)
    ensures Without(Toggle(xs, x), x) == Without(xs, x)
  {
    if x in xs {
      WithoutTwice(xs, x);
    } else {
      WithoutAppend(xs, [x], x);
      assert Without([x], x) == [];
    }
  }

  lemma {:induction false} WithoutTwice(xs: seq<string>, x: string)
    ensures Without(Without(xs, x), x) == Without(xs, x)
  {
    WithoutAbsent(Without(xs, x), x);
  }

  /** A newly selected instrument goes to the end. */
  lemma ToggleAppends(xs: seq<string>, x: string)
    requires x !in xs
    ensures Toggle(xs, x) == xs + [x] && Toggle(xs, x)[|xs|] == x
  {
  }

  /** Toggling twice restores which instruments are selected; when the
      instrument was not selected it restores the list itself. */
  lemma ToggleTwice(xs: seq<string>, x: string)
    ensures (set y | y in Toggle(Toggle(xs, x), x)) == (set y | y in xs)
    ensures x !in xs ==> Toggle(Toggle(xs, x), x) == xs
  {
    ToggleIsSymmetricDifference(xs, x);
    ToggleIsSymmetricDifference(Toggle(xs, x), x);
    if x !in xs {
      WithoutAppend(xs, [x], x);
      WithoutAbsent(xs, x);
      assert Without([x], x) == [];
    }
  }

  predicate NoDuplicates(xs: seq<string>)
  {
    forall i, j :: 0 <= i < j < |xs| ==> xs[i] != xs[j]
  }

  lemma {:induction false} WithoutKeepsNoDuplicates(xs: seq<string>, x: string)
    requires NoDuplicates(xs)
    ensures NoDuplicates(Without(xs, x))
  {
    if xs != [] {
      WithoutKeepsNoDuplicates(xs[1..], x);
      var rest := Without(xs[1..], x);
      forall k | 0 <= k < |xs[1..]|
        ensures xs[1..][k] != xs[0]
      {
        assert xs[1..][k] == xs[k + 1];
      }
      assert xs[0] !in rest;
    }
  }

  /** A selection built only by toggling never lists an instrument twice. */
  lemma ToggleKeepsNoDuplicates(xs: seq<string>, x: string)
    requires NoDuplicates(xs)
    ensures NoDuplicates(Toggle(xs, x))
  {
    if x in xs {
      WithoutKeepsNoDuplicates(xs, x);
    }
  }

  /** `parseFloat(rate) || 0`, where `parsed` is `parseFloat`'s result and
      `None` stands for NaN: NaN and zero both become 0. */
  function RateValue(parsed: Option<real>): (v: real)
  {
    if parsed.Some? && parsed.value != 0.0 then parsed.value else 0.0
  }

  /** `handleRateChange(instrument, rate)`: the instrument's rate becomes the
      parsed number (0 for text that is not a number) and nothing else changes. */
  function ChangeRate(form: Form, instrument: string, parsed: Option<real>): (r: Form)
    ensures r == form.(rates := r.rates)
    ensures instrument in r.rates && r.rates[instrument] == parsed.GetOr(0.0)
    ensures forall k :: k != instrument ==>
      (k in r.rates <==> k in form.rates) && (k in form.rates ==> r.rates[k] == form.rates[k])
  {
    form.(rates := form.rates[instrument := RateValue(parsed)])
  }

  /** What `handleSubmit` decides: one of its three alerts, or the call to `onSubmit`. */
  datatype Outcome =
    | MissingFields
    | NoInstruments
    | InvalidRate(instrument: string)
    | Submitted(form: Form)

  /** `!rates[instrument] || rates[instrument] <= 0`: absent, zero or negative. */
  predicate BadRate(rates: map<string, real>, instrument: string)
  {
    instrument !in rates || rates[instrument] <= 0.0
  }

  predicate MissingRequired(form: Form)
  {
    Falsy(form.name) || Falsy(form.age) || Falsy(form.income) || Falsy(form.investableAmount)
  }

  /** The loop over the selection: the first instrument without a valid rate. */
  function FirstBadRate(selected: seq<string>, rates: map<string, real>): (r: Option<string>)
    ensures r.Some? ==> r.value in selected && BadRate(rates, r.value)
    ensures r.None? <==> forall i :: 0 <= i < |selected| ==> !BadRate(rates, selected[i])
  {
    if selected == [] then None
    else if BadRate(rates, selected[0]) then Some(selected[0])
    else FirstBadRate(selected[1..], rates)
  }

  /** The instrument reported is the earliest one in the selection with a bad rate. */
  lemma {:induction false} FirstBadRateIsEarliest(selected: seq<string>, rates: map<string, real>)
    requires FirstBadRate(selected, rates).Some?
    ensures exists i :: 0 <= i < |selected| && selected[i] == FirstBadRate(selected, rates).value &&
                        (forall j :: 0 <= j < i ==> !BadRate(rates, selected[j]))
  {
    if !BadRate(rates, selected[0]) {
      var rest := selected[1..];
      FirstBadRateIsEarliest(rest, rates);
      var i :| 0 <= i < |rest| && rest[i] == FirstBadRate(rest, rates).value &&
        forall j :: 0 <= j < i ==> !BadRate(rates, rest[j]);
      assert selected[i + 1] == rest[i];
      forall j | 0 <= j < i + 1
        ensures !BadRate(rates, selected[j])
      {
        if j > 0 {
          assert selected[j] == rest[j - 1];
        }
      }
    } else {
      assert selected[0] == FirstBadRate(selected, rates).value;
    }
  }

  /** `handleSubmit`: required fields first, then a non-empty selection, then
      a positive rate for every selected instrument; the form goes to
      `onSubmit` exactly when all three hold. */
  function Submit(form: Form): (r: Outcome)
    ensures r == MissingFields <==> MissingRequired(form)
    ensures r == NoInstruments <==> !MissingRequired(form) && form.selectedInstruments == []
    ensures r.InvalidRate? <==>
      !MissingRequired(form) && form.selectedInstruments != [] &&
      exists i :: 0 <= i < |form.selectedInstruments| && BadRate(form.rates, form.selectedInstruments[i])
    ensures r.InvalidRate? ==> r.instrument in form.selectedInstruments && BadRate(form.rates, r.instrument)
    ensures r.InvalidRate? ==> Some(r.instrument) == FirstBadRate(form.selectedInstruments, form.rates)
    ensures r.Submitted? <==>
      !MissingRequired(form) && form.selectedInstruments != [] &&
      forall i :: 0 <= i < |form.selectedInstruments| ==> !BadRate(form.rates, form.selectedInstruments[i])
    ensures r.Submitted? ==> r.form == form
  {
    if MissingRequired(form) then MissingFields
    else if |form.selectedInstruments| == 0 then NoInstruments
    else
      match FirstBadRate(form.selectedInstruments, form.rates)
      case Some(instrument) => InvalidRate(instrument)
      case None => Submitted(form)
  }

  /** Typing text that is not a positive number into a selected instrument's
      rate blocks the submission; typing a positive number makes that
      instrument's rate acceptable. */
  lemma RateChangeAndSubmit(form: Form, instrument: string, parsed: Option<real>)
    ensures var f := ChangeRate(form, instrument, parsed);
      (parsed.Some? && parsed.value > 0.0 <==> !BadRate(f.rates, instrument)) &&
      (instrument in form.selectedInstruments && !(parsed.Some? && parsed.value > 0.0) ==> !Submit(f).Submitted?)
  {
    var f := ChangeRate(form, instrument, parsed);
    if instrument in form.selectedInstruments && !(parsed.Some? && parsed.value > 0.0) {
      var i :| 0 <= i < |f.selectedInstruments| && f.selectedInstruments[i] == instrument;
      assert BadRate(f.rates, f.selectedInstruments[i]);
    }
  }

  /** Deselecting the only selected instrument of a filled-in form leads to
      the empty-selection alert. */
  lemma ToggleOffLastInstrument(form: Form, instrument: string)
    requires !MissingRequired(form) && form.selectedInstruments == [instrument]
    ensures Submit(ToggleInstrument(form, instrument)) == NoInstruments
  {
    assert Without([instrument], instrument) == [] by {
      assert [instrument][1..] == [];
    }
  }
}
