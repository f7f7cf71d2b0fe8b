/** The movement form of `src/screens/MovimentacaoForm.js`: the choice of
    material, destination site and quantity, the stock check, and the
    movement record it hands to the store. */
module MovimentacaoForm {
  import opened Optional
  import opened JsText
  import opened JsNumber
  import opened JsValue
  import opened Seqs
  import opened DataService
  import opened Obras

  /** The two buttons at the top; the form opens on `saida`. */
  datatype MovType = Saida | Entrada {
    function Name(): string {
      match this
      case Saida => "saida"
      case Entrada => "entrada"
    }
  }

  /** The text fields, as the pickers and inputs fill them. */
  datatype Form = Form(material_id: string, obra_id: string, quantidade: string, observacao: string)

  const InitialType: MovType := Saida
  const InitialForm: Form := Form("", "", "", "")

  /** `obras.filter(o => o.status === "ativa")`: the sites a movement can go to
      are those the active tab lists, in the same order. */
  function ActiveObras(obras: seq<Record>): (r: seq<Record>)
    ensures r == FilteredObras(obras, "ativas")
    ensures forall i :: 0 <= i < |r| ==> HasStatus(r[i], "ativa")
    ensures forall i :: 0 <= i < |obras| && HasStatus(obras[i], "ativa") ==> obras[i] in r
  {
    var active := (o: Record) => HasStatus(o, "ativa");
    FilterSame(obras, active, Shows("ativas"));
    Filter(obras, active)
  }

  /** `materials.find(m => m.id === formData.material_id)` */
  function Selected(materials: seq<Record>, form: Form): (r: Option<Record>)
    ensures r.Some? <==> exists i :: 0 <= i < |materials| && HasId(materials[i], Str(form.material_id))
    ensures r.Some? ==> r.value in materials && HasId(r.value, Str(form.material_id))
    ensures forall k :: 0 <= k < |materials| && HasId(materials[k], Str(form.material_id))
                        && (forall j :: 0 <= j < k ==> !HasId(materials[j], Str(form.material_id)))
                        ==> r == Some(materials[k])
  {
    var k := FindFirst(materials, Str(form.material_id));
    if k < |materials| then Some(materials[k]) else None
  }

  /** `selectedMaterial?.[field] || 0`: 0 when no material is selected or the
      field is falsy. */
  function OrZero(sel: Option<Record>, field: string): (r: Value)
    ensures sel.None? ==> r == Num(0.0)
    ensures sel.Some? && Truthy(Get(sel.value, field)) ==> r == Get(sel.value, field)
    ensures sel.Some? && !Truthy(Get(sel.value, field)) ==> r == Num(0.0)
  {
    match sel
    case None => Num(0.0)
    case Some(m) => Or(Get(m, field), Num(0.0))
  }

  function UnitValue(materials: seq<Record>, form: Form): Value {
    OrZero(Selected(materials, form), "valor_unitario")
  }

  function CurrentStock(materials: seq<Record>, form: Form): Value {
    OrZero(Selected(materials, form), "quantidade")
  }

  /** `parseFloat(formData.quantidade)` */
  function Quantity(form: Form): Value {
    ParseFloatOf(Str(form.quantidade))
  }

  predicate PositiveQuantity(form: Form) {
    Quantity(form).Num? && Quantity(form).n > 0.0
  }

  /** `isFormValid`, which enables the save button: a material is chosen, the
      quantity is a positive number, and an outbound movement has a site. */
  predicate IsFormValid(form: Form, t: MovType) {
    form.material_id != "" && PositiveQuantity(form) && (t == Entrada || form.obra_id != "")
  }

  /** `valorTotal`: the quantity, read as 0 when it is not a number, times the
      unit value. */
  function ValorTotal(materials: seq<Record>, form: Form): (r: Value)
    ensures Quantity(form).Num? && UnitValue(materials, form).Num? ==>
              r == Num(Quantity(form).n * UnitValue(materials, form).n)
    ensures Quantity(form).NaN? && UnitValue(materials, form).Num? ==> r == Num(0.0)
    ensures Selected(materials, form).None? ==> r == Num(0.0)
  {
    if UnitValue(materials, form).Num? then
      TimesOrZero(Quantity(form), UnitValue(materials, form));
      Times(Or(Quantity(form), Num(0.0)), UnitValue(materials, form))
    else
      Times(Or(Quantity(form), Num(0.0)), UnitValue(materials, form))
  }

  /** The messages `validate` can collect. */
  datatype MovError = NoMaterial | NoObra | BadQuantity | InsufficientStock(stock: Value, unit: Value)

  /** The stock check: an outbound movement of a known material asking for
      more than its current stock. */
  predicate StockShort(materials: seq<Record>, form: Form, t: MovType) {
    t == Saida && Selected(materials, form).Some? && Greater(Quantity(form), CurrentStock(materials, form))
  }

  /** The stock check lets through a quantity equal to the stock, and never
      looks at an inbound movement. */
  lemma StockCheckBounds(materials: seq<Record>, form: Form, t: MovType)
    ensures t == Entrada ==> !StockShort(materials, form, t)
    ensures Quantity(form).Num? && CurrentStock(materials, form) == Quantity(form) ==> !StockShort(materials, form, t)
    ensures t == Saida && Selected(materials, form).Some? && Quantity(form).Num? && CurrentStock(materials, form).Num?
            ==> (StockShort(materials, form, t) <==> Quantity(form).n > CurrentStock(materials, form).n)
  {
  }

  /** The conditions under which `validate` collects no message. */
  predicate Accepted(materials: seq<Record>, form: Form, t: MovType) {
    form.material_id != "" && !(t == Saida && form.obra_id == "") && PositiveQuantity(form)
    && !StockShort(materials, form, t)
  }

  function StockMessage(materials: seq<Record>, form: Form): MovError
    requires Selected(materials, form).Some?
  {
    InsufficientStock(CurrentStock(materials, form), Get(Selected(materials, form).value, "unidade_medida"))
  }

  /** `validate`: collects one message per failed check, in this order, and
      succeeds when there is none. */
  method Validate(materials: seq<Record>, form: Form, t: MovType) returns (ok: bool, errors: seq<MovError>)
    ensures NoMaterial in errors <==> form.material_id == ""
    ensures NoObra in errors <==> t == Saida && form.obra_id == ""
    ensures BadQuantity in errors <==> !PositiveQuantity(form)
    ensures StockShort(materials, form, t) <==> Selected(materials, form).Some? && StockMessage(materials, form) in errors
    ensures forall e :: e in errors ==> e.NoMaterial? || e.NoObra? || e.BadQuantity?
                                         || (Selected(materials, form).Some? && e == StockMessage(materials, form))
    ensures ok <==> errors == []
    ensures ok <==> Accepted(materials, form, t)
  {
    errors := [];
    var quantidade := Quantity(form);
    var selected := Selected(materials, form);
    if form.material_id == "" {
      errors := errors + [NoMaterial];
    }
    if t == Saida && form.obra_id == "" {
      errors := errors + [NoObra];
    }
    if quantidade.NaN? || quantidade.n <= 0.0 {
      errors := errors + [BadQuantity];
    }
    if t == Saida && selected.Some? && Greater(quantidade, CurrentStock(materials, form)) {
      errors := errors + [StockMessage(materials, form)];
    }
    ok := |errors| == 0;
  }

  /** The save button is enabled on every form `validate` accepts; `validate`
      only adds the stock check. */
  lemma AcceptedIffValidAndStocked(materials: seq<Record>, form: Form, t: MovType)
    ensures Accepted(materials, form, t) <==> IsFormValid(form, t) && !StockShort(materials, form, t)
  {
  }

  /** `activeObras.find(o => o.id === formData.obra_id)?.nome_cliente || "Estoque"` */
  function ObraNome(obras: seq<Record>, form: Form): Value {
    var active := ActiveObras(obras);
    var k := FindFirst(active, Str(form.obra_id));
    Or(if k < |active| then Get(active[k], "nome_cliente") else Undefined, Str("Estoque"))
  }

  /** A site id that names no active site gives "Estoque"; one that does gives
      that site's name when it has one. */
  lemma ObraNomeCases(obras: seq<Record>, form: Form)
    ensures (forall i :: 0 <= i < |obras| && HasStatus(obras[i], "ativa") ==> !HasId(obras[i], Str(form.obra_id)))
            ==> ObraNome(obras, form) == Str("Estoque")
    ensures forall i :: (0 <= i < |obras| && HasStatus(obras[i], "ativa") && HasId(obras[i], Str(form.obra_id))
                          && (forall j :: 0 <= j < i ==> !(HasStatus(obras[j], "ativa") && HasId(obras[j], Str(form.obra_id))))
                          && Truthy(Get(obras[i], "nome_cliente")))
                         ==> ObraNome(obras, form) == Get(obras[i], "nome_cliente")
  {
    var active := ActiveObras(obras);
    var k := FindFirst(active, Str(form.obra_id));
    if k < |active| {
      assert active[k] in obras;
    }
    forall i | 0 <= i < |obras| && HasStatus(obras[i], "ativa") && HasId(obras[i], Str(form.obra_id))
            && (forall j :: 0 <= j < i ==> !(HasStatus(obras[j], "ativa") && HasId(obras[j], Str(form.obra_id))))
      ensures k < |active| && active[k] == obras[i]
    {
      FirstActiveMatch(obras, Str(form.obra_id), i);
    }
  }

  /** The first active site with an id is the first match among the active
      sites. */
  lemma {:induction false} FirstActiveMatch(obras: seq<Record>, id: Value, i: nat)
    requires i < |obras| && HasStatus(obras[i], "ativa") && HasId(obras[i], id)
    requires forall j :: 0 <= j < i ==> !(HasStatus(obras[j], "ativa") && HasId(obras[j], id))
    ensures FindFirst(ActiveObras(obras), id) < |ActiveObras(obras)|
    ensures ActiveObras(obras)[FindFirst(ActiveObras(obras), id)] == obras[i]
  {
    var active := (o: Record) => HasStatus(o, "ativa");
    assert ActiveObras(obras) == Filter(obras, active);
    FilterConcat(obras[..i], obras[i..], active);
    assert obras == obras[..i] + obras[i..];
    NoMatchInFiltered(obras[..i], active, id);
    FilterConcat([obras[i]], obras[i + 1..], active);
    assert obras[i..] == [obras[i]] + obras[i + 1..];
    FindFirstSkips(Filter(obras[..i], active), Filter(obras[i..], active), id);
  }

  lemma {:induction false} NoMatchInFiltered(s: seq<Record>, p: Record -> bool, id: Value)
    requires forall j :: 0 <= j < |s| ==> !(p(s[j]) && HasId(s[j], id))
    ensures forall j :: 0 <= j < |Filter(s, p)| ==> !HasId(Filter(s, p)[j], id)
  {
  }

  /** Past a prefix with no match, the first match is the first record after it. */
  lemma FindFirstSkips(a: seq<Record>, b: seq<Record>, id: Value)
    requires forall j :: 0 <= j < |a| ==> !HasId(a[j], id)
    requires b != [] && HasId(b[0], id)
    ensures FindFirst(a + b, id) == |a|
  {
    assert (a + b)[|a|] == b[0];
  }

  /** The `newMov` literal, given the looked-up name of the material, the
      site's name and the total value. */
  function Payload(form: Form, t: MovType, materialNome: Value, obraNome: Value, valorTotal: Value): (p: Record)
    ensures Get(p, "tipo") == Str(t.Name()) && Get(p, "quantidade") == Quantity(form)
    ensures Get(p, "material_id") == Str(form.material_id) && Get(p, "obra_id") == Str(form.obra_id)
    ensures Get(p, "observacao") == Str(form.observacao)
    ensures Get(p, "material_nome") == materialNome && Get(p, "obra_nome") == obraNome
    ensures Get(p, "valor_total") == valorTotal
  {
    map["material_id" := Str(form.material_id), "obra_id" := Str(form.obra_id),
        "tipo" := Str(t.Name()), "quantidade" := Quantity(form),
        "observacao" := Str(form.observacao), "valor_total" := valorTotal,
        "material_nome" := materialNome, "obra_nome" := obraNome]
  }

  /** The movement `handleSubmit` builds, or None where reading the selected
      material's name throws because no material has the chosen id. */
  function NewMov(materials: seq<Record>, obras: seq<Record>, form: Form, t: MovType): (r: Option<Record>)
    ensures r.Some? <==> Selected(materials, form).Some?
    ensures r.Some? ==> r.value == Payload(form, t, Get(Selected(materials, form).value, "nome"),
                                           ObraNome(obras, form), ValorTotal(materials, form))
  {
    match Selected(materials, form)
    case None => None
    case Some(m) => Some(Payload(form, t, Get(m, "nome"), ObraNome(obras, form), ValorTotal(materials, form)))
  }

  /** The payload's material id leads the store to the material the form
      selected. */
  lemma PayloadFindsSelected(materials: seq<Record>, form: Form, t: MovType, materialNome: Value, obraNome: Value, valorTotal: Value)
    requires Selected(materials, form).Some?
    ensures var k := FindFirst(materials, Get(Payload(form, t, materialNome, obraNome, valorTotal), "material_id"));
            k < |materials| && materials[k] == Selected(materials, form).value
  {
  }

  /** Handing a movement of type `t` and numeric quantity `q` to the store
      moves the stock of the material it names: down by `q` for `saida`, up
      by `q` for `entrada`. */
  lemma MovementMovesStock(materials: seq<Record>, p: Record, t: MovType, q: real)
    requires Get(p, "tipo") == Str(t.Name()) && Get(p, "quantidade") == Num(q)
    requires FindFirst(materials, Get(p, "material_id")) < |materials|
    requires Get(materials[FindFirst(materials, Get(p, "material_id"))], "quantidade").Num?
    ensures var k := FindFirst(materials, Get(p, "material_id"));
            var s := Get(materials[k], "quantidade").n;
            MovedStock(materials, p)[k] == materials[k]["quantidade" := Num(if t == Saida then s - q else s + q)]
  {
    var k := FindFirst(materials, Get(p, "material_id"));
    AdjustedByType(Get(materials[k], "quantidade").n, q, t);
  }

  lemma MovedStockAt(materials: seq<Record>, p: Record)
    requires FindFirst(materials, Get(p, "material_id")) < |materials|
    ensures var k := FindFirst(materials, Get(p, "material_id"));
            MovedStock(materials, p)[k]
            == materials[k]["quantidade" := Adjusted(Get(materials[k], "quantidade"), Get(p, "tipo"), Get(p, "quantidade"))]
  {
  }

  lemma AdjustedByType(s: real, q: real, t: MovType)
    ensures Adjusted(Num(s), Str(t.Name()), Num(q)) == Num(if t == Saida then s - q else s + q)
  {
  }

  /** The site picker is shown only for `saida`, but switching to `entrada`
      keeps the chosen site: such an inbound movement still carries the
      site's id and is named after it rather than "Estoque". */
  lemma EntradaKeepsSite(materials: seq<Record>, obras: seq<Record>, form: Form, i: nat)
    requires Selected(materials, form).Some?
    requires i < |obras| && HasStatus(obras[i], "ativa") && HasId(obras[i], Str(form.obra_id))
    requires forall j :: 0 <= j < i ==> !(HasStatus(obras[j], "ativa") && HasId(obras[j], Str(form.obra_id)))
    requires Truthy(Get(obras[i], "nome_cliente"))
    ensures NewMov(materials, obras, form, Entrada).Some?
    ensures Get(NewMov(materials, obras, form, Entrada).value, "obra_id") == Str(form.obra_id)
    ensures Get(NewMov(materials, obras, form, Entrada).value, "obra_nome") == Get(obras[i], "nome_cliente")
  {
    ObraNomeCases(obras, form);
  }

  /** The quantity input keeps digits and dots only: `t.replace(/[^0-9.]/g, "")`.
      A character survives exactly when it is a digit or a dot, a text made
      of those alone is kept whole, and nothing is added. */
  function QuantityInput(text: string): (r: string)
    ensures |r| <= |text|
    ensures forall i :: 0 <= i < |r| ==> IsDigit(r[i]) || r[i] == '.'
    ensures forall c :: c in r <==> c in text && (IsDigit(c) || c == '.')
    ensures (forall i :: 0 <= i < |text| ==> IsDigit(text[i]) || text[i] == '.') ==> r == text
    ensures KeepOnly(r, c => IsDigit(c) || c == '.') == r
  {
    var keep := (c: char) => IsDigit(c) || c == '.';
    KeepOnlyIdempotent(text, keep);
    KeepOnly(text, keep)
  }

  /** `handleSubmit`: validates, builds the movement and records it. Nothing
      reaches the store when validation fails or the material is not found. */
  method HandleSubmit(store: DataStore, form: Form, t: MovType, now: nat) returns (ok: bool)
    modifies store
    ensures ok <==> Accepted(old(store.materials), form, t) && NewMov(old(store.materials), old(store.obras), form, t).Some?
    ensures ok ==> var p := NewMov(old(store.materials), old(store.obras), form, t).value;
                   store.movimentacoes == [NewMovimentacao(p, now)] + old(store.movimentacoes)
                   && store.storedMovimentacoes == Saved(store.movimentacoes)
                   && store.materials == MovedStock(old(store.materials), p)
                   && store.storedMaterials == if FindFirst(old(store.materials), Get(p, "material_id")) < |old(store.materials)|
                                               then Saved(store.materials) else old(store.storedMaterials)
    ensures !ok ==> store.movimentacoes == old(store.movimentacoes) && store.materials == old(store.materials)
                    && store.storedMovimentacoes == old(store.storedMovimentacoes)
                    && store.storedMaterials == old(store.storedMaterials)
    ensures store.obras == old(store.obras) && store.storedObras == old(store.storedObras)
    ensures store.isLoading == old(store.isLoading)
  {
    var valid, errors := Validate(store.materials, form, t);
    ok := false;
    if valid {
      match NewMov(store.materials, store.obras, form, t)
      case None =>
      case Some(p) =>
        var _ := store.CreateMovimentacao(p, now);
        ok := true;
    }
  }
}
