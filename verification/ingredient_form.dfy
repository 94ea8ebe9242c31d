/**
 The ingredient page: the six-field form and its single-field change
 handler, the submit handler with its "Select measurement" guard, and the
 rendering of a quantity with a readable unit label.
 */
module IngredientForm {
  import opened Lists

  /** The form's state; every field holds the text of its input element. */
  datatype FormData = FormData(
    name: string,
    measurementValue: string,
    measurementType: string,
    price: string,
    store: string,
    description: string)

  /** The `name` attribute of each input element of the form. */
  datatype Field = Name | MeasurementValue | MeasurementType | Price | Store | Description

  function Get(f: FormData, field: Field): string
  {
    match field
    case Name => f.name
    case MeasurementValue => f.measurementValue
    case MeasurementType => f.measurementType
    case Price => f.price
    case Store => f.store
    case Description => f.description
  }

  /** Two forms that agree on every field are the same form. */
  lemma FieldsDetermineForm(a: FormData, b: FormData)
    requires forall field :: Get(a, field) == Get(b, field)
    ensures a == b
  {
    assert Get(a, Name) == Get(b, Name);
    assert Get(a, MeasurementValue) == Get(b, MeasurementValue);
    assert Get(a, MeasurementType) == Get(b, MeasurementType);
    assert Get(a, Price) == Get(b, Price);
    assert Get(a, Store) == Get(b, Store);
    assert Get(a, Description) == Get(b, Description);
  }

  /** `handleChange`: `{ ...formData, [name]: value }`. */
  function HandleChange(f: FormData, field: Field, value: string): (f': FormData)
    ensures Get(f', field) == value
    ensures forall other :: other != field ==> Get(f', other) == Get(f, other)
  {
    match field
    case Name => f.(name := value)
    case MeasurementValue => f.(measurementValue := value)
    case MeasurementType => f.(measurementType := value)
    case Price => f.(price := value)
    case Store => f.(store := value)
    case Description => f.(description := value)
  }

  /** Typing into the same field twice keeps only the second value. */
  lemma LastChangeWins(f: FormData, field: Field, v: string, w: string)
    ensures HandleChange(HandleChange(f, field, v), field, w) == HandleChange(f, field, w)
  {
    var a := HandleChange(HandleChange(f, field, v), field, w);
    var b := HandleChange(f, field, w);
    forall other ensures Get(a, other) == Get(b, other) {
    }
    FieldsDetermineForm(a, b);
  }

  /** Changes to different fields do not interfere, in either order. */
  lemma ChangesCommute(f: FormData, x: Field, v: string, y: Field, w: string)
    requires x != y
    ensures HandleChange(HandleChange(f, x, v), y, w) == HandleChange(HandleChange(f, y, w), x, v)
  {
    var a := HandleChange(HandleChange(f, x, v), y, w);
    var b := HandleChange(HandleChange(f, y, w), x, v);
    forall other ensures Get(a, other) == Get(b, other) {
    }
    FieldsDetermineForm(a, b);
  }

  /** Re-entering a field's current text changes nothing. */
  lemma ChangeToSameIsIdentity(f: FormData, field: Field)
    ensures HandleChange(f, field, Get(f, field)) == f
  {
    var a := HandleChange(f, field, Get(f, field));
    forall other ensures Get(a, other) == Get(f, other) {
    }
    FieldsDetermineForm(a, f);
  }

  // ---------------------------------------------------------------------
  // Submitting

  /** The text of the placeholder option of the measurement select. */
  const SelectMeasurement: string := "Select measurement"

  /** The state the page starts in: every field empty. */
  const InitialForm: FormData := FormData("", "", "", "", "", "")

  /** The banner: `isSubmitting`, its text, and whether it is an error. */
  datatype Status = Status(isSubmitting: bool, message: string, isError: bool)

  /** The request body before `parseFloat` is applied to the price and the
      measurement value. */
  datatype IngredientRequest = IngredientRequest(
    name: string,
    price: string,
    store: string,
    measurementValue: string,
    measurementType: string,
    description: string)

  /** How the awaited fetch and `response.json()` ended: a response with its
      `ok` flag and the `message` and `error` keys of its body ("" when
      absent), or a thrown error with its `message`. */
  datatype FetchOutcome =
    | Responded(ok: bool, message: string, error: string)
    | Threw(errorMessage: string)

  /** `a || b` on strings. */
  function OrElse(a: string, b: string): (r: string)
    ensures a != "" ==> r == a
    ensures a == "" ==> r == b
  {
    if a != "" then a else b
  }

  /** The form after a successful submit. */
  const ResetForm: FormData := FormData("", "", SelectMeasurement, "", "", "")

  /** What a submit does. */
  datatype Submission = Submission(sent: Option<IngredientRequest>, form: FormData, status: Status)

  function RequestFrom(f: FormData): (req: IngredientRequest)
    ensures req.name == f.name && req.price == f.price && req.store == f.store
    ensures req.measurementValue == f.measurementValue && req.measurementType == f.measurementType
    ensures req.description == f.description
  {
    IngredientRequest(f.name, f.price, f.store, f.measurementValue, f.measurementType, f.description)
  }

  /** `handleSubmit`, given how the request it sends would end. */
  function SubmitIngredient(f: FormData, outcome: FetchOutcome): (s: Submission)
    ensures !s.status.isSubmitting
    ensures s.sent.None? <==> f.measurementType == SelectMeasurement
    ensures s.sent.None? ==>
      s.form == f && s.status == Status(false, "Please select a measurement type", true)
    ensures s.sent.Some? ==> s.sent.value == RequestFrom(f)
    ensures s.sent.Some? && outcome.Responded? && outcome.ok ==>
      && s.form == ResetForm
      && !s.status.isError
      && s.status.message == (if outcome.message != "" then outcome.message else "Ingredient added successfully!")
    ensures s.sent.Some? && !(outcome.Responded? && outcome.ok) ==> s.form == f && s.status.isError
    ensures s.sent.Some? && outcome.Responded? && !outcome.ok ==>
      s.status.message == (if outcome.error != "" then outcome.error else "Something went wrong")
    ensures s.sent.Some? && outcome.Threw? ==>
      s.status.message == (if outcome.errorMessage != "" then outcome.errorMessage else "Failed to add ingredient")
  {
    if f.measurementType == SelectMeasurement then
      Submission(None, f, Status(false, "Please select a measurement type", true))
    else
      var req := RequestFrom(f);
      match outcome
      case Responded(ok, message, error) =>
        if ok then
          Submission(Some(req), ResetForm, Status(false, OrElse(message, "Ingredient added successfully!"), false))
        else
          // the thrown Error carries a non-empty message, so the catch keeps it
          Submission(Some(req), f, Status(false, OrElse(OrElse(error, "Something went wrong"), "Failed to add ingredient"), true))
      case Threw(errorMessage) =>
        Submission(Some(req), f, Status(false, OrElse(errorMessage, "Failed to add ingredient"), true))
  }

  /** The message shown is never empty, so the banner always appears. */
  lemma SubmitAlwaysReports(f: FormData, outcome: FetchOutcome)
    ensures SubmitIngredient(f, outcome).status.message != ""
  {
  }

  /** After a successful submit every text field is empty and the select
      shows its placeholder again, so submitting again at once is refused
      without a request. */
  lemma ResetFormIsGuarded(f: FormData, outcome: FetchOutcome, next: FetchOutcome)
    requires outcome.Responded? && outcome.ok
    requires f.measurementType != SelectMeasurement
    ensures var f' := SubmitIngredient(f, outcome).form;
      && (forall field :: field != MeasurementType ==> Get(f', field) == "")
      && Get(f', MeasurementType) == SelectMeasurement
      && SubmitIngredient(f', next).sent.None?
  {
  }

  // ---------------------------------------------------------------------
  // Units

  /** The readable labels of `formatMeasurement`. */
  const MeasurementLabels: map<string, string> := map[
    "tsp" := "teaspoon(s)",
    "tbsp" := "tablespoon(s)",
    "cup" := "cup(s)",
    "floz" := "fluid ounce(s)",
    "oz" := "ounce(s)",
    "g" := "gram(s)",
    "kg" := "kilogram(s)",
    "ml" := "milliliter(s)",
    "l" := "liter(s)",
    "pint" := "pint(s)",
    "quart" := "quart(s)",
    "gallon" := "gallon(s)",
    "unit" := "unit(s)",
    "lb" := "pound(s)"]

  /** `measurementMap[type] || type`. */
  function Label(code: string): (shown: string)
    ensures code in MeasurementLabels ==> shown == MeasurementLabels[code]
    ensures code !in MeasurementLabels ==> shown == code
  {
    if code in MeasurementLabels && MeasurementLabels[code] != "" then MeasurementLabels[code] else code
  }

  /** A code is shown as itself exactly when it is not one of the fourteen
      known codes: no label coincides with its code. */
  lemma LabelPassesThroughExactlyUnknown(code: string)
    ensures Label(code) == code <==> code !in MeasurementLabels
  {
    if code in MeasurementLabels {
      assert MeasurementLabels[code] != code;
    }
  }

  /** Distinct known codes are shown with distinct labels. */
  lemma LabelsDistinguishCodes(a: string, b: string)
    requires a in MeasurementLabels && b in MeasurementLabels
    requires a != b
    ensures Label(a) != Label(b)
  {
  }

  /** `formatMeasurement`, with the quantity already rendered as text. */
  function FormatMeasurement(quantity: string, code: string): (text: string)
    ensures |text| == |quantity| + 1 + |Label(code)|
    ensures text[..|quantity|] == quantity && text[|quantity|] == ' '
    ensures text[|quantity| + 1..] == Label(code)
  {
    quantity + " " + Label(code)
  }

  /** Splits a rendered measurement at its first space. */
  function ParseMeasurement(text: string): (r: (string, string))
    ensures ' ' !in r.0
    ensures r.0 == text ==> r.1 == ""
    ensures r.0 != text ==> text == r.0 + " " + r.1
  {
    var i := FindIndexFrom(text, (c: char) => c == ' ', 0);
    if i.None? then (text, "")
    else
      assert text == text[..i.value] + " " + text[i.value + 1..];
      (text[..i.value], text[i.value + 1..])
  }

  /** A rendered number has no space in it, so the quantity and the label
      can be read back from the text. */
  lemma FormatThenParse(quantity: string, code: string)
    requires ' ' !in quantity
    ensures ParseMeasurement(FormatMeasurement(quantity, code)) == (quantity, Label(code))
  {
    var text := FormatMeasurement(quantity, code);
    var i := FindIndexFrom(text, (c: char) => c == ' ', 0);
    assert text[|quantity|] == ' ';
    assert forall j :: 0 <= j < |quantity| ==> text[j] == quantity[j];
    assert i == Some(|quantity|);
    assert text[..|quantity|] == quantity;
    assert text[|quantity| + 1..] == Label(code);
  }
}
