/** The material form of `src/screens/MaterialForm.js`: what `validate`
    accepts, how the numeric fields are coerced before saving, the blank
    form a new material starts from, and the save button. */
module MaterialForm {
  import opened Optional
  import opened JsText
  import opened JsNumber
  import opened JsValue
  import opened DataService
  import opened Reading

  /** The fields `validate` reads as numbers. */
  datatype NumField = Quantidade | ValorUnitario | EstoqueMinimo {
    function Key(): string {
      match this
      case Quantidade => "quantidade"
      case ValorUnitario => "valor_unitario"
      case EstoqueMinimo => "estoque_minimo"
    }
  }

  /** The order in which `validate` checks them. */
  const NumFields: seq<NumField> := [Quantidade, ValorUnitario, EstoqueMinimo]

  /** The messages `validate` can collect; the numeric ones name their field. */
  datatype FormError = NameRequired | UnitRequired | NotANumber(field: NumField) | Negative(field: NumField)

  /** How `validate` ends: with the messages it collected (none means it
      returns true), or with the TypeError a `.trim()` on a number throws. */
  datatype Validation = Errors(errors: seq<FormError>) | TypeError

  /** The verdict of one check. */
  datatype Step = Pass | Fail(e: FormError) | Throws

  /** `if (!v?.trim()) errors.push(e)`: a missing value or blank text fails,
      a value without a `trim` method throws. */
  function TextStep(v: Value, e: FormError): Step {
    if Nullish(v) then Fail(e)
    else
      match TrimIsEmpty(v)
      case None => Throws
      case Some(blank) => if blank then Fail(e) else Pass
  }

  /** `data[f]` for a numeric field `f`. */
  function Field(data: Record, f: NumField): Value {
    Get(data, f.Key())
  }

  /** The check of numeric field `f` holding `v`. As written, a value that
      parses is then trimmed, which throws when it is a number rather than
      text; the intended check takes a number as it is. */
  function NumStep(v: Value, f: NumField, reading: Reading): Step {
    var num := ParseFloatOf(v);
    if num.NaN? then Fail(NotANumber(f))
    else if !v.Str? && reading == AsWritten then Throws
    else if v.Str? && Blank(v.s) then Fail(NotANumber(f))
    else if num.n < 0.0 then Fail(Negative(f))
    else Pass
  }

  /** Runs one more check after `acc`: a throw ends validation. */
  function Then(acc: Validation, s: Step): Validation {
    match acc
    case TypeError => TypeError
    case Errors(es) =>
      match s
      case Pass => acc
      case Fail(e) => Errors(es + [e])
      case Throws => TypeError
  }

  /** The name and unit checks, which come first. */
  function Required(data: Record): Validation {
    Then(Then(Errors([]), TextStep(Get(data, "nome"), NameRequired)),
         TextStep(Get(data, "unidade_medida"), UnitRequired))
  }

  /** The numeric checks of `fields`, in order, after `start`. */
  function Checked(data: Record, fields: seq<NumField>, start: Validation, reading: Reading): Validation
    decreases |fields|
  {
    if fields == [] then start
    else
      var f := fields[|fields| - 1];
      Then(Checked(data, fields[..|fields| - 1], start, reading), NumStep(Field(data, f), f, reading))
  }

  /** What `validate(data)` ends with. */
  function Expected(data: Record, reading: Reading): Validation {
    Checked(data, NumFields, Required(data), reading)
  }

  /** `validate`: the two required fields, then a loop over the numeric
      fields collecting one message per failed check. */
  method Validate(data: Record, reading: Reading) returns (r: Validation)
    ensures r == Expected(data, reading)
  {
    var errors: seq<FormError> := [];
    var name := TextStep(Get(data, "nome"), NameRequired);
    if name.Throws? {
      ThrowSticks(data, NumFields, Required(data), reading, 0);
      return TypeError;
    }
    if name.Fail? {
      errors := errors + [NameRequired];
    }
    var unit := TextStep(Get(data, "unidade_medida"), UnitRequired);
    if unit.Throws? {
      ThrowSticks(data, NumFields, Required(data), reading, 0);
      return TypeError;
    }
    if unit.Fail? {
      errors := errors + [UnitRequired];
    }
    for i := 0 to |NumFields|
      invariant Checked(data, NumFields[..i], Required(data), reading) == Errors(errors)
    {
      var f := NumFields[i];
      var v := Get(data, f.Key());
      var numValue := ParseFloatOf(v);
      assert NumFields[..i + 1][..i] == NumFields[..i];
      if numValue.NaN? {
        errors := errors + [NotANumber(f)];
      } else if !v.Str? && reading == AsWritten {
        ThrowSticks(data, NumFields, Required(data), reading, i + 1);
        return TypeError;
      } else if v.Str? && Blank(v.s) {
        errors := errors + [NotANumber(f)];
      } else if numValue.n < 0.0 {
        errors := errors + [Negative(f)];
      }
    }
    assert NumFields[..|NumFields|] == NumFields;
    return Errors(errors);
  }

  /** Once a check has thrown, the rest do not run. */
  lemma {:induction false} ThrowSticks(data: Record, fields: seq<NumField>, start: Validation, reading: Reading, i: nat)
    requires i <= |fields| && Checked(data, fields[..i], start, reading) == TypeError
    ensures Checked(data, fields, start, reading) == TypeError
    decreases |fields|
  {
    if i < |fields| {
      assert fields[..|fields| - 1][..i] == fields[..i];
      ThrowSticks(data, fields[..|fields| - 1], start, reading, i);
    } else {
      assert fields[..i] == fields;
    }
  }

  /** One more check throws exactly when it throws itself or a check
      before it did. */
  lemma ThenThrows(acc: Validation, st: Step)
    ensures Then(acc, st) == TypeError <==> acc == TypeError || st.Throws?
  {
  }

  /** One more check keeps the messages collected so far and adds its own. */
  lemma ThenHas(acc: Validation, st: Step)
    requires Then(acc, st).Errors?
    ensures acc.Errors?
    ensures forall e :: e in acc.errors ==> e in Then(acc, st).errors
    ensures st.Fail? ==> st.e in Then(acc, st).errors
    ensures forall e :: e in Then(acc, st).errors ==> e in acc.errors || st == Fail(e)
  {
  }

  /** The numeric checks throw exactly when one of them does. */
  lemma {:induction false} CheckedThrows(data: Record, fields: seq<NumField>, start: Validation, reading: Reading)
    ensures Checked(data, fields, start, reading) == TypeError
        <==> start == TypeError || exists f :: f in fields && NumStep(Field(data, f), f, reading).Throws?
    decreases |fields|
  {
    if fields != [] {
      var init := fields[..|fields| - 1];
      var last := fields[|fields| - 1];
      var st := NumStep(Field(data, last), last, reading);
      assert Checked(data, fields, start, reading) == Then(Checked(data, init, start, reading), st);
      ThenThrows(Checked(data, init, start, reading), st);
      CheckedThrows(data, init, start, reading);
      assert fields == init + [last];
      assert forall f :: f in fields <==> f in init || f == last;
    }
  }

  /** Without a throw, every message comes from `start` or from a failed
      numeric check. */
  lemma {:induction false} CheckedFrom(data: Record, fields: seq<NumField>, start: Validation, reading: Reading, e: FormError)
    requires start.Errors? && Checked(data, fields, start, reading).Errors?
    requires e in Checked(data, fields, start, reading).errors
    ensures e in start.errors || exists f :: f in fields && NumStep(Field(data, f), f, reading) == Fail(e)
    decreases |fields|
  {
    if fields != [] {
      var init := fields[..|fields| - 1];
      var last := fields[|fields| - 1];
      var st := NumStep(Field(data, last), last, reading);
      assert Checked(data, fields, start, reading) == Then(Checked(data, init, start, reading), st);
      ThenHas(Checked(data, init, start, reading), st);
      if e in Checked(data, init, start, reading).errors {
        CheckedFrom(data, init, start, reading, e);
        if !(e in start.errors) {
          var f :| f in init && NumStep(Field(data, f), f, reading) == Fail(e);
          assert f in fields;
        }
      } else {
        assert NumStep(Field(data, last), last, reading) == Fail(e);
      }
    }
  }

  /** Without a throw, the messages of `start` and of every failed numeric
      check are all there. */
  lemma {:induction false} CheckedHas(data: Record, fields: seq<NumField>, start: Validation, reading: Reading, f: NumField)
    requires Checked(data, fields, start, reading).Errors?
    ensures start.Errors?
    ensures forall e :: e in start.errors ==> e in Checked(data, fields, start, reading).errors
    ensures f in fields && NumStep(Field(data, f), f, reading).Fail? ==>
              NumStep(Field(data, f), f, reading).e in Checked(data, fields, start, reading).errors
    decreases |fields|
  {
    if fields != [] {
      var init := fields[..|fields| - 1];
      var last := fields[|fields| - 1];
      var st := NumStep(Field(data, last), last, reading);
      assert Checked(data, fields, start, reading) == Then(Checked(data, init, start, reading), st);
      ThenHas(Checked(data, init, start, reading), st);
      CheckedHas(data, init, start, reading, f);
      assert fields == init + [last];
      assert f in fields ==> f in init || f == last;
    }
  }

  /** Every numeric field is checked. */
  lemma AllChecked(f: NumField)
    ensures f in NumFields
  {
  }

  /** A text field holds a usable value: present and not blank. */
  predicate Filled(v: Value) {
    TextStep(v, NameRequired) == Pass
  }

  /** What a form that passes `validate` holds: a name, a unit, and three
      numeric fields that parse to numbers no smaller than 0. */
  predicate Acceptable(data: Record) {
    Filled(Get(data, "nome")) && Filled(Get(data, "unidade_medida"))
    && forall f: NumField :: ParseFloatOf(Field(data, f)).Num? && ParseFloatOf(Field(data, f)).n >= 0.0
  }

  /** A numeric check throws only as written, and only on a number. */
  lemma NumStepThrows(v: Value, f: NumField, reading: Reading)
    ensures NumStep(v, f, reading).Throws? <==> reading == AsWritten && v.Num?
  {
  }

  /** A numeric check fails exactly on a value `parseFloat` cannot read or
      reads as negative, and names its own field. */
  lemma NumStepFails(v: Value, f: NumField, reading: Reading)
    ensures NumStep(v, f, reading) == Fail(NotANumber(f)) <==> ParseFloatOf(v).NaN?
    ensures NumStep(v, f, reading) == Fail(Negative(f))
        <==> !(reading == AsWritten && v.Num?) && ParseFloatOf(v).Num? && ParseFloatOf(v).n < 0.0
    ensures NumStep(v, f, reading).Fail? ==> NumStep(v, f, reading).e.field == f
  {
    if v.Str? && Blank(v.s) {
      BlankNotNumber(v.s);
    }
  }

  /** `validate` throws exactly when the name or the unit is neither text
      nor missing, or, as written, when a numeric field holds a number. The
      intended check never throws on the numeric fields. */
  lemma ValidateThrows(data: Record, reading: Reading)
    ensures Expected(data, reading) == TypeError
        <==> TextStep(Get(data, "nome"), NameRequired).Throws?
             || TextStep(Get(data, "unidade_medida"), UnitRequired).Throws?
             || (reading == AsWritten && exists f: NumField :: Field(data, f).Num?)
  {
    CheckedThrows(data, NumFields, Required(data), reading);
    forall f: NumField ensures f in NumFields && (NumStep(Field(data, f), f, reading).Throws? <==> reading == AsWritten && Field(data, f).Num?) {
      AllChecked(f);
      NumStepThrows(Field(data, f), f, reading);
    }
  }

  /** The messages of the name and unit checks. */
  lemma RequiredMessages(data: Record)
    requires Required(data).Errors?
    ensures NameRequired in Required(data).errors <==> !Filled(Get(data, "nome"))
    ensures UnitRequired in Required(data).errors <==> !Filled(Get(data, "unidade_medida"))
    ensures forall e :: e in Required(data).errors ==> e == NameRequired || e == UnitRequired
  {
  }

  /** The messages `validate` collects when it does not throw: one for a
      name or unit that is missing or blank, one for each numeric field that
      is blank or not a number, and one for each that is negative (0
      passes). */
  lemma ValidateErrors(data: Record, reading: Reading)
    requires Expected(data, reading).Errors?
    ensures var es := Expected(data, reading).errors;
            (NameRequired in es <==> !Filled(Get(data, "nome")))
            && (UnitRequired in es <==> !Filled(Get(data, "unidade_medida")))
            && (forall f: NumField :: NotANumber(f) in es <==> ParseFloatOf(Field(data, f)).NaN?)
            && (forall f: NumField :: Negative(f) in es <==> ParseFloatOf(Field(data, f)).Num? && ParseFloatOf(Field(data, f)).n < 0.0)
  {
    var es := Expected(data, reading).errors;
    CheckedHas(data, NumFields, Required(data), reading, Quantidade);
    RequiredMessages(data);
    if NameRequired in es {
      MessageSource(data, reading, NameRequired);
    }
    if UnitRequired in es {
      MessageSource(data, reading, UnitRequired);
    }
    forall f: NumField
      ensures NotANumber(f) in Expected(data, reading).errors <==> ParseFloatOf(Field(data, f)).NaN?
      ensures Negative(f) in Expected(data, reading).errors
          <==> ParseFloatOf(Field(data, f)).Num? && ParseFloatOf(Field(data, f)).n < 0.0
    {
      FieldMessages(data, reading, f);
    }
  }

  /** The messages about one numeric field. */
  lemma FieldMessages(data: Record, reading: Reading, f: NumField)
    requires Expected(data, reading).Errors?
    ensures NotANumber(f) in Expected(data, reading).errors <==> ParseFloatOf(Field(data, f)).NaN?
    ensures Negative(f) in Expected(data, reading).errors
        <==> ParseFloatOf(Field(data, f)).Num? && ParseFloatOf(Field(data, f)).n < 0.0
  {
    NotANumberMessage(data, reading, f);
    NegativeMessage(data, reading, f);
  }

  /** A message in the list comes from the required checks or from the
      check of the field it names. */
  lemma MessageSource(data: Record, reading: Reading, e: FormError)
    requires Expected(data, reading).Errors? && e in Expected(data, reading).errors
    ensures Required(data).Errors?
    ensures e in Required(data).errors
         || (!e.NameRequired? && !e.UnitRequired? && NumStep(Field(data, e.field), e.field, reading) == Fail(e))
  {
    CheckedHas(data, NumFields, Required(data), reading, Quantidade);
    CheckedFrom(data, NumFields, Required(data), reading, e);
    if e !in Required(data).errors {
      var g :| g in NumFields && NumStep(Field(data, g), g, reading) == Fail(e);
      NumStepFails(Field(data, g), g, reading);
    }
  }

  lemma NotANumberMessage(data: Record, reading: Reading, f: NumField)
    requires Expected(data, reading).Errors?
    ensures NotANumber(f) in Expected(data, reading).errors <==> ParseFloatOf(Field(data, f)).NaN?
  {
    NumStepFails(Field(data, f), f, reading);
    if NotANumber(f) in Expected(data, reading).errors {
      MessageSource(data, reading, NotANumber(f));
      RequiredMessages(data);
    } else {
      CheckedHas(data, NumFields, Required(data), reading, f);
      AllChecked(f);
    }
  }

  lemma NegativeMessage(data: Record, reading: Reading, f: NumField)
    requires Expected(data, reading).Errors?
    ensures Negative(f) in Expected(data, reading).errors
        <==> ParseFloatOf(Field(data, f)).Num? && ParseFloatOf(Field(data, f)).n < 0.0
  {
    NumStepFails(Field(data, f), f, reading);
    if Negative(f) in Expected(data, reading).errors {
      MessageSource(data, reading, Negative(f));
      RequiredMessages(data);
    } else {
      ValidateThrows(data, reading);
      CheckedHas(data, NumFields, Required(data), reading, f);
      AllChecked(f);
    }
  }

  /** `validate` returns true iff it collected no message, which is exactly
      when the form is acceptable. */
  lemma ValidatePasses(data: Record, reading: Reading)
    ensures Expected(data, reading) == Errors([]) <==> Expected(data, reading).Errors? && Acceptable(data)
  {
    if Expected(data, reading).Errors? {
      var es := Expected(data, reading).errors;
      ValidateErrors(data, reading);
      if es == [] {
        forall f: NumField
          ensures ParseFloatOf(Field(data, f)).Num? && ParseFloatOf(Field(data, f)).n >= 0.0
        {
          assert NotANumber(f) !in es && Negative(f) !in es;
        }
      } else {
        var e := es[0];
        assert e in es;
        MessageSource(data, reading, e);
      }
    }
  }

  // ---------------------------------------------------------------- submitting

  /** `parseFloat(v) || 0` */
  function Coerced(v: Value): (r: Value)
    ensures r.Num?
    ensures ParseFloatOf(v).Num? && ParseFloatOf(v).n != 0.0 ==> r == ParseFloatOf(v)
    ensures !(ParseFloatOf(v).Num? && ParseFloatOf(v).n != 0.0) ==> r == Num(0.0)
  {
    Or(ParseFloatOf(v), Num(0.0))
  }

  /** `submittedData`: the form with its three numeric fields replaced by
      their coerced values. */
  function Submitted(data: Record): (r: Record)
    ensures r.Keys == data.Keys + {"quantidade", "valor_unitario", "estoque_minimo"}
    ensures forall f: NumField :: Field(r, f) == Coerced(Field(data, f))
    ensures forall k | k in data && k !in {"quantidade", "valor_unitario", "estoque_minimo"} :: r[k] == data[k]
  {
    data + map["quantidade" := Coerced(Get(data, "quantidade")),
               "valor_unitario" := Coerced(Get(data, "valor_unitario")),
               "estoque_minimo" := Coerced(Get(data, "estoque_minimo"))]
  }

  /** After `validate` passes, each saved number is the value the field
      parsed to, never below 0: the `|| 0` only ever replaces a 0. */
  lemma SubmittedIsParsed(data: Record, reading: Reading)
    requires Expected(data, reading) == Errors([])
    ensures forall f: NumField :: Field(Submitted(data), f) == ParseFloatOf(Field(data, f))
    ensures forall f: NumField :: Field(Submitted(data), f).n >= 0.0
  {
    ValidatePasses(data, reading);
  }

  /** The record the store keeps for a submitted form holds numbers in the
      numeric fields, whether it is created or merged into the record being
      edited. */
  lemma StoredKeepsNumbers(data: Record, now: nat, edited: Record)
    ensures forall f: NumField :: Field(NewMaterial(Submitted(data), now), f) == Field(Submitted(data), f)
    ensures forall f: NumField :: Field(edited + Submitted(data), f) == Field(Submitted(data), f)
  {
    var sub := Submitted(data);
    forall f: NumField
      ensures Field(NewMaterial(sub, now), f) == Field(sub, f)
      ensures Field(edited + sub, f) == Field(sub, f)
    {
      StampedGet(sub, "mat", now, f.Key());
      assert f.Key() in sub;
    }
  }

  // ---------------------------------------------------------------- the blank form

  /** The form a new material starts from. */
  function NewForm(): (r: Record)
    ensures Get(r, "nome") == Str("") && Get(r, "unidade_medida") == Str("un")
    ensures Get(r, "quantidade") == Str("0") && Get(r, "valor_unitario") == Str("")
    ensures Get(r, "estoque_minimo") == Str("0") && Get(r, "local_compra") == Str("")
  {
    map["nome" := Str(""), "unidade_medida" := Str("un"), "quantidade" := Str("0"),
        "valor_unitario" := Str(""), "estoque_minimo" := Str("0"), "local_compra" := Str("")]
  }

  /** The numeric checks of the blank form: only the empty unit value fails. */
  lemma NewFormNumbers(data: Record, start: Validation, reading: Reading)
    requires start.Errors?
    requires Get(data, "quantidade") == Str("0") && Get(data, "valor_unitario") == Str("")
    requires Get(data, "estoque_minimo") == Str("0")
    ensures Checked(data, NumFields, start, reading) == Errors(start.errors + [NotANumber(ValorUnitario)])
  {
    ParseFloatDecimal(0);
    assert Decimal(0) == "0";
    ParseFloatEmpty();
    assert !Blank("0") by {
      BlankIffAllSpace("0");
      assert !IsSpace("0"[0]);
    }
    assert NumFields[..2] == [Quantidade, ValorUnitario];
    assert NumFields[..2][..1] == [Quantidade];
    assert [Quantidade][..0] == [];
  }

  /** The name and unit checks of a form holding the blank form's unit. */
  lemma FormRequired(data: Record, name: string)
    requires Get(data, "nome") == Str(name) && Get(data, "unidade_medida") == Str("un")
    ensures Required(data) == Errors(if Blank(name) then [NameRequired] else [])
  {
    assert !Blank("un") by {
      BlankIffAllSpace("un");
      assert !IsSpace("un"[0]);
    }
  }

  /** The blank form with `name` typed in. */
  lemma NamedForm(name: string)
    ensures var named := NewForm()["nome" := Str(name)];
            Get(named, "nome") == Str(name) && Get(named, "unidade_medida") == Str("un")
            && Get(named, "quantidade") == Str("0") && Get(named, "valor_unitario") == Str("")
            && Get(named, "estoque_minimo") == Str("0")
  {
  }

  /** A blank form fails on its name and on its unit value. */
  lemma NewFormFails(reading: Reading)
    ensures Expected(NewForm(), reading) == Errors([NameRequired, NotANumber(ValorUnitario)])
  {
    assert Blank("");
    FilledFormFails(NewForm(), "", reading);
    assert [NameRequired] + [NotANumber(ValorUnitario)] == [NameRequired, NotANumber(ValorUnitario)];
  }

  /** Once a name is typed, only the unit value keeps it from passing. */
  lemma NamedFormFails(name: string, reading: Reading)
    requires !Blank(name)
    ensures Expected(NewForm()["nome" := Str(name)], reading) == Errors([NotANumber(ValorUnitario)])
  {
    NamedForm(name);
    FilledFormFails(NewForm()["nome" := Str(name)], name, reading);
    assert [] + [NotANumber(ValorUnitario)] == [NotANumber(ValorUnitario)];
  }

  /** Any form holding `name` and the blank form's other values fails on
      the name when it is blank and always on the unit value. */
  lemma FilledFormFails(data: Record, name: string, reading: Reading)
    requires Get(data, "nome") == Str(name) && Get(data, "unidade_medida") == Str("un")
    requires Get(data, "quantidade") == Str("0") && Get(data, "valor_unitario") == Str("")
    requires Get(data, "estoque_minimo") == Str("0")
    ensures Expected(data, reading) == Errors((if Blank(name) then [NameRequired] else []) + [NotANumber(ValorUnitario)])
  {
    var start := Required(data);
    FormRequired(data, name);
    NewFormNumbers(data, start, reading);
  }

  // ---------------------------------------------------------------- the save button

  /** `disabled={isLoading || !formData.nome || !formData.unidade_medida}` */
  predicate SaveEnabled(isLoading: bool, data: Record) {
    !isLoading && Truthy(Get(data, "nome")) && Truthy(Get(data, "unidade_medida"))
  }

  /** A form that passes `validate` has the button enabled once loading is
      over. */
  lemma ValidEnablesSave(data: Record, reading: Reading)
    requires Expected(data, reading) == Errors([])
    ensures SaveEnabled(false, data)
  {
    ValidatePasses(data, reading);
  }

  /** The button is a weaker test than `validate`: a name of one space
      enables it, and `validate` still rejects the name. */
  lemma SpacedNameEnablesSave(reading: Reading)
    ensures var spaced := NewForm()["nome" := Str(" ")];
            SaveEnabled(false, spaced) && Expected(spaced, reading).Errors?
            && NameRequired in Expected(spaced, reading).errors
  {
    var spaced := NewForm()["nome" := Str(" ")];
    assert Blank(" ") by {
      BlankIffAllSpace(" ");
    }
    NamedForm(" ");
    FormRequired(spaced, " ");
    NewFormNumbers(spaced, Required(spaced), reading);
  }

  // ---------------------------------------------------------------- the finding

  /** As written, a material saved through this form cannot be saved again
      unchanged: the store holds its numbers as numbers, and `validate`
      calls `trim` on them. */
  lemma ResubmitThrows(data: Record, now: nat)
    requires Expected(data, AsWritten) == Errors([])
    ensures Expected(NewMaterial(Submitted(data), now), AsWritten) == TypeError
  {
    var stored := NewMaterial(Submitted(data), now);
    StoredKeepsNumbers(data, now, map[]);
    assert Field(stored, Quantidade).Num?;
    ValidateThrows(stored, AsWritten);
  }

  /** The store keeps a submitted form's other fields as they were. */
  lemma StoredField(data: Record, now: nat, k: string)
    requires k !in {"id", "created_date", "quantidade", "valor_unitario", "estoque_minimo"}
    ensures Get(NewMaterial(Submitted(data), now), k) == Get(data, k)
  {
    var sub := Submitted(data);
    StampedGet(sub, "mat", now, k);
    assert k in sub <==> k in data;
  }

  /** The intended check accepts the stored record again. */
  lemma ResubmitPasses(data: Record, now: nat)
    requires Expected(data, Intended) == Errors([])
    ensures Expected(NewMaterial(Submitted(data), now), Intended) == Errors([])
  {
    var stored := NewMaterial(Submitted(data), now);
    ValidatePasses(data, Intended);
    SubmittedIsParsed(data, Intended);
    StoredField(data, now, "nome");
    StoredField(data, now, "unidade_medida");
    StoredKeepsNumbers(data, now, map[]);
    forall f: NumField
      ensures ParseFloatOf(Field(stored, f)).Num? && ParseFloatOf(Field(stored, f)).n >= 0.0
    {
      assert Field(stored, f) == Field(Submitted(data), f);
    }
    ValidateThrows(stored, Intended);
    assert Acceptable(stored);
    ValidatePasses(stored, Intended);
  }

  /** The intended check agrees with the code as written wherever that
      does not throw. */
  lemma IntendedAgrees(data: Record)
    requires Expected(data, AsWritten).Errors?
    ensures Expected(data, AsWritten) == Expected(data, Intended)
  {
    ValidateThrows(data, AsWritten);
    SameWithoutNumbers(data, NumFields, Required(data));
  }

  /** With no number among the numeric fields the two readings agree. */
  lemma {:induction false} SameWithoutNumbers(data: Record, fields: seq<NumField>, start: Validation)
    requires forall f: NumField :: !Field(data, f).Num?
    ensures Checked(data, fields, start, AsWritten) == Checked(data, fields, start, Intended)
    decreases |fields|
  {
    if fields != [] {
      SameWithoutNumbers(data, fields[..|fields| - 1], start);
    }
  }

  // ---------------------------------------------------------------- the screen

  /** The screen's state: the record being edited, if any (the `material`
      route parameter), and the form's fields. */
  class MaterialScreen {
    const store: DataStore
    const materialToEdit: Option<Record>
    var formData: Record

    /** The form opens on the record being edited, or on the blank form. */
    constructor(store: DataStore, materialToEdit: Option<Record>)
      ensures this.store == store && this.materialToEdit == materialToEdit
      ensures formData == materialToEdit.GetOr(NewForm())
    {
      this.store := store;
      this.materialToEdit := materialToEdit;
      formData := materialToEdit.GetOr(NewForm());
    }

    /** `handleChange(name, value)`: only field `name` changes. */
    method HandleChange(name: string, value: Value)
      modifies this
      ensures formData == old(formData)[name := value]
      ensures forall k | k != name :: Get(formData, k) == Get(old(formData), k)
    {
      formData := formData[name := value];
    }

    function SaveButtonEnabled(): bool
      reads this, store
    {
      SaveEnabled(store.isLoading, formData)
    }

    /** `handleSubmit`: when `validate` passes, the coerced record is merged
        into the edited one or created; otherwise (messages, or a throw that
        leaves the handler) the store is untouched. */
    method HandleSubmit(reading: Reading, now: nat) returns (r: Validation)
      modifies store
      ensures r == Expected(formData, reading)
      ensures r == Errors([]) && materialToEdit.Some? ==>
                store.materials == Updated(old(store.materials), Get(materialToEdit.value, "id"), Submitted(formData))
      ensures r == Errors([]) && materialToEdit.None? ==>
                store.materials == [NewMaterial(Submitted(formData), now)] + old(store.materials)
      ensures r == Errors([]) ==> store.storedMaterials == Saved(store.materials)
      ensures r != Errors([]) ==> store.materials == old(store.materials) && store.storedMaterials == old(store.storedMaterials)
      ensures store.obras == old(store.obras) && store.movimentacoes == old(store.movimentacoes)
      ensures store.storedObras == old(store.storedObras) && store.storedMovimentacoes == old(store.storedMovimentacoes)
      ensures store.isLoading == old(store.isLoading)
    {
      r := Validate(formData, reading);
      if r == Errors([]) {
        var submittedData := Submitted(formData);
        if materialToEdit.Some? {
          store.UpdateMaterial(Get(materialToEdit.value, "id"), submittedData);
        } else {
          var _ := store.CreateMaterial(submittedData, now);
        }
      }
    }

    /** The delete button, shown only when editing: confirming removes the
        records with the edited id; cancelling does nothing. */
    method HandleDelete(confirm: bool)
      requires materialToEdit.Some?
      modifies store
      ensures confirm ==> store.materials == Deleted(old(store.materials), Get(materialToEdit.value, "id"))
                          && store.storedMaterials == Saved(store.materials)
      ensures !confirm ==> store.materials == old(store.materials) && store.storedMaterials == old(store.storedMaterials)
      ensures store.obras == old(store.obras) && store.movimentacoes == old(store.movimentacoes)
      ensures store.storedObras == old(store.storedObras) && store.storedMovimentacoes == old(store.storedMovimentacoes)
      ensures store.isLoading == old(store.isLoading)
    {
      if confirm {
        store.DeleteMaterial(Get(materialToEdit.value, "id"));
      }
    }
  }
}
