/** The work-site form of `src/screens/WorkForm.js`: the two required
    fields, the per-field error flags, and the record it sends to the store
    when a site is created or edited. */
module WorkForm {
  import opened Optional
  import opened JsText
  import opened JsValue
  import opened DataService
  import opened Reading

  // ---------------------------------------------------------------- the form's fields

  /** The form a new site starts from; `today` is the current date as
      `format(new Date(), "yyyy-MM-dd")` prints it. */
  function NewForm(today: string): (r: Record)
    ensures Get(r, "status") == Str("ativa") && Get(r, "data_inicio") == Str(today)
    ensures Get(r, "nome_cliente") == Str("") && Get(r, "local") == Str("")
    ensures Get(r, "metragem") == Str("") && Get(r, "valor_total") == Str("")
    ensures Get(r, "data_fim_prevista") == Str("") && Get(r, "observacoes") == Str("")
    ensures "id" !in r
  {
    map["nome_cliente" := Str(""), "local" := Str(""), "metragem" := Str(""), "valor_total" := Str(""),
        "data_inicio" := Str(today), "data_fim_prevista" := Str(""), "status" := Str("ativa"),
        "observacoes" := Str("")]
  }

  /** The form opened on site `obra`. `metragemText` and `valorText` are the
      `toString()` of its `metragem` and of `valor_total ?? 0`; turning a
      number into text is not modelled. */
  function EditForm(obra: Record, metragemText: string, valorText: string): (r: Record)
    ensures Get(r, "id") == Get(obra, "id") && Get(r, "status") == Get(obra, "status")
    ensures Get(r, "nome_cliente") == Get(obra, "nome_cliente") && Get(r, "local") == Get(obra, "local")
    ensures Get(r, "metragem") == Str(if Nullish(Get(obra, "metragem")) then "" else metragemText)
    ensures Get(r, "valor_total") == Str(valorText)
    ensures Get(r, "data_inicio") == Get(obra, "data_inicio")
    ensures Get(r, "data_fim_prevista") == Or(Get(obra, "data_fim_prevista"), Str(""))
    ensures Get(r, "observacoes") == Or(Get(obra, "observacoes"), Str(""))
  {
    map["id" := Get(obra, "id"), "nome_cliente" := Get(obra, "nome_cliente"), "local" := Get(obra, "local"),
        "metragem" := Str(if Nullish(Get(obra, "metragem")) then "" else metragemText),
        "valor_total" := Str(valorText), "data_inicio" := Get(obra, "data_inicio"),
        "data_fim_prevista" := Or(Get(obra, "data_fim_prevista"), Str("")),
        "status" := Get(obra, "status"), "observacoes" := Or(Get(obra, "observacoes"), Str(""))]
  }

  /** The characters the value input keeps: digits, ',' and '.'. */
  predicate IsValueChar(c: char) {
    '0' <= c <= '9' || c == ',' || c == '.'
  }

  /** `text.replace(/[^0-9,.]/g, "")`, what the value input stores. */
  function ValueText(text: string): string {
    KeepOnly(text, IsValueChar)
  }

  /** The value input keeps only digits, ',' and '.', and its own output
      passes through it unchanged. */
  lemma ValueTextClean(text: string)
    ensures forall i :: 0 <= i < |ValueText(text)| ==> IsValueChar(ValueText(text)[i])
    ensures forall c :: c in ValueText(text) <==> c in text && IsValueChar(c)
    ensures ValueText(ValueText(text)) == ValueText(text)
  {
    KeepOnlyIdempotent(text, IsValueChar);
  }

  // ---------------------------------------------------------------- validation

  /** The error flags `validateForm` returns, or None when the `trim` of a
      field that is not text throws. */
  function Flags(formData: Record): Option<map<string, bool>> {
    match (TrimIsEmpty(Get(formData, "nome_cliente")), TrimIsEmpty(Get(formData, "local")))
    case (Some(nomeBlank), Some(localBlank)) =>
      var flagged: map<string, bool> := if nomeBlank then map["nome_cliente" := true] else map[];
      Some(if localBlank then flagged["local" := true] else flagged)
    case _ => None
  }

  /** `validateForm`: flags `nome_cliente` and `local` when blank. */
  method ValidateForm(formData: Record) returns (r: Option<map<string, bool>>)
    ensures r == Flags(formData)
  {
    var newErrors: map<string, bool> := map[];
    var nome := TrimIsEmpty(Get(formData, "nome_cliente"));
    if nome.None? {
      return None;
    }
    if nome.value {
      newErrors := newErrors["nome_cliente" := true];
    }
    var local := TrimIsEmpty(Get(formData, "local"));
    if local.None? {
      return None;
    }
    if local.value {
      newErrors := newErrors["local" := true];
    }
    return Some(newErrors);
  }

  /** `validateForm` throws exactly when one of the two fields is not text;
      otherwise it flags each of them exactly when it is blank, with `true`,
      and flags nothing else. */
  lemma FlagsMeaning(formData: Record)
    ensures Flags(formData).None? <==>
              (TrimIsEmpty(Get(formData, "nome_cliente")).None? || TrimIsEmpty(Get(formData, "local")).None?)
    ensures Flags(formData).Some? ==>
              var f := Flags(formData).value;
              ("nome_cliente" in f <==> TrimIsEmpty(Get(formData, "nome_cliente")) == Some(true))
              && ("local" in f <==> TrimIsEmpty(Get(formData, "local")) == Some(true))
              && f.Keys <= {"nome_cliente", "local"}
              && (forall k | k in f :: f[k])
  {
  }

  /** No other field is checked: changing any other field leaves the flags
      as they were. */
  lemma FlagsIgnoreOthers(formData: Record, name: string, value: Value)
    requires name != "nome_cliente" && name != "local"
    ensures Flags(formData[name := value]) == Flags(formData)
  {
    assert Get(formData[name := value], "nome_cliente") == Get(formData, "nome_cliente");
    assert Get(formData[name := value], "local") == Get(formData, "local");
  }

  /** A blank form flags both required fields. */
  lemma NewFormFlagged(today: string)
    ensures Flags(NewForm(today)) == Some(map["nome_cliente" := true, "local" := true])
  {
    assert Blank("");
  }

  // ---------------------------------------------------------------- the payload

  /** The fields every payload carries, besides `id` in edit mode. */
  const PayloadKeys: set<string> :=
    {"nome_cliente", "local", "metragem", "valor_total", "data_inicio", "data_fim_prevista", "status", "observacoes"}

  /** `parseFloat(formData.metragem || 0)` */
  function Metragem(formData: Record): Value {
    ParseFloatOf(Or(Get(formData, "metragem"), Num(0.0)))
  }

  /** `parseFloat(formData.valor_total.replace(",", ".") || 0)`; the value is
      text, so `replace` does not throw. */
  function ValorTotal(formData: Record): Value
    requires Get(formData, "valor_total").Str?
  {
    ParseFloatOf(Or(Str(ReplaceFirstComma(Get(formData, "valor_total").s)), Num(0.0)))
  }

  /** The text fields of `dataToSend`, sent as the form holds them. */
  function TextFields(formData: Record): (p: Record)
    ensures p.Keys == {"nome_cliente", "local", "data_inicio", "status", "observacoes"}
    ensures Get(p, "nome_cliente") == Get(formData, "nome_cliente") && Get(p, "local") == Get(formData, "local")
    ensures Get(p, "data_inicio") == Get(formData, "data_inicio") && Get(p, "status") == Get(formData, "status")
    ensures Get(p, "observacoes") == Get(formData, "observacoes")
  {
    map["nome_cliente" := Get(formData, "nome_cliente"), "local" := Get(formData, "local"),
        "data_inicio" := Get(formData, "data_inicio"), "status" := Get(formData, "status"),
        "observacoes" := Get(formData, "observacoes")]
  }

  /** The fields of `dataToSend` that are converted on the way. */
  function ConvertedFields(formData: Record): (p: Record)
    requires Get(formData, "valor_total").Str?
    ensures p.Keys == {"metragem", "valor_total", "data_fim_prevista"}
    ensures Get(p, "metragem") == Metragem(formData) && Get(p, "valor_total") == ValorTotal(formData)
    ensures Get(p, "data_fim_prevista") == Or(Get(formData, "data_fim_prevista"), Null)
  {
    map["metragem" := Metragem(formData), "valor_total" := ValorTotal(formData),
        "data_fim_prevista" := Or(Get(formData, "data_fim_prevista"), Null)]
  }

  /** The fields of `dataToSend` that every submission carries. */
  function Body(formData: Record): (p: Record)
    requires Get(formData, "valor_total").Str?
    ensures p.Keys == PayloadKeys
    ensures Get(p, "nome_cliente") == Get(formData, "nome_cliente") && Get(p, "local") == Get(formData, "local")
    ensures Get(p, "metragem") == Metragem(formData) && Get(p, "valor_total") == ValorTotal(formData)
    ensures Get(p, "data_inicio") == Get(formData, "data_inicio") && Get(p, "status") == Get(formData, "status")
    ensures Get(p, "data_fim_prevista") == Or(Get(formData, "data_fim_prevista"), Null)
    ensures Get(p, "observacoes") == Get(formData, "observacoes")
  {
    TextFields(formData) + ConvertedFields(formData)
  }

  /** `dataToSend`: `{...(obraToEdit && {id: formData.id}), ...}`. The
      payload carries `id` only in edit mode, and then it is the form's. */
  function DataToSend(formData: Record, editing: bool): (p: Record)
    requires Get(formData, "valor_total").Str?
    ensures p.Keys == PayloadKeys + (if editing then {"id"} else {})
    ensures "id" in p <==> editing
    ensures editing ==> p["id"] == Get(formData, "id")
    ensures forall k | k in PayloadKeys :: p[k] == Body(formData)[k]
  {
    assert "id" !in PayloadKeys;
    if editing then map["id" := Get(formData, "id")] + Body(formData) else Body(formData)
  }

  /** An empty area is sent as 0, an empty value as 0, and an empty end date
      as `null`; a date that is set is sent as it is. */
  lemma EmptyFieldsDefaults(formData: Record, editing: bool)
    requires Get(formData, "valor_total").Str?
    ensures !Truthy(Get(formData, "metragem")) ==> Get(DataToSend(formData, editing), "metragem") == Num(0.0)
    ensures Get(formData, "valor_total") == Str("") ==> Get(DataToSend(formData, editing), "valor_total") == Num(0.0)
    ensures !Truthy(Get(formData, "data_fim_prevista")) ==> Get(DataToSend(formData, editing), "data_fim_prevista") == Null
    ensures Truthy(Get(formData, "data_fim_prevista")) ==>
              Get(DataToSend(formData, editing), "data_fim_prevista") == Get(formData, "data_fim_prevista")
  {
    assert "metragem" in PayloadKeys && "valor_total" in PayloadKeys && "data_fim_prevista" in PayloadKeys;
    assert ReplaceFirstComma("") == "";
  }

  /** A comma in the typed value is read as the decimal point: "a,b" is sent
      as `parseFloat("a.b")`. Only the first comma is replaced. */
  lemma CommaIsDecimalPoint(formData: Record, editing: bool, a: string, b: string)
    requires ',' !in a
    ensures var typed := formData["valor_total" := Str(a + "," + b)];
            Get(DataToSend(typed, editing), "valor_total") == ParseFloatOf(Str(a + "." + b))
  {
    var typed := formData["valor_total" := Str(a + "," + b)];
    FirstComma(a, b);
    assert "valor_total" in PayloadKeys;
    assert Get(DataToSend(typed, editing), "valor_total") == ValorTotal(typed);
  }

  lemma FirstComma(a: string, b: string)
    requires ',' !in a
    ensures ReplaceFirstComma(a + "," + b) == a + "." + b
  {
    var s := a + "," + b;
    assert s[|a|] == ',';
    assert forall i :: 0 <= i < |a| ==> s[i] == a[i];
    assert IndexOf(s, ',') == |a|;
  }

  // ---------------------------------------------------------------- editing a site

  /** As written, the edit path calls `updateObra(dataToSend)`: the id
      argument is the payload object, which no stored id equals, so no site
      changes. */
  lemma EditAsWrittenChangesNothing(obras: seq<Record>, payload: Record)
    ensures Updated(obras, Obj(payload), map[]) == obras
  {
  }

  /** The evident intent, `updateObra(formData.id, dataToSend)`: the site
      with the form's id takes every sent field, and the others stay. */
  lemma EditIntendedUpdates(obras: seq<Record>, formData: Record, i: nat)
    requires Get(formData, "valor_total").Str?
    requires i < |obras|
    ensures var u := Updated(obras, Get(formData, "id"), DataToSend(formData, true));
            (HasId(obras[i], Get(formData, "id")) ==>
               u[i] == obras[i] + DataToSend(formData, true)
               && Get(u[i], "nome_cliente") == Get(formData, "nome_cliente")
               && Get(u[i], "local") == Get(formData, "local")
               && Get(u[i], "id") == Get(formData, "id"))
            && (!HasId(obras[i], Get(formData, "id")) ==> u[i] == obras[i])
  {
    var p := DataToSend(formData, true);
    var u := Updated(obras, Get(formData, "id"), p);
    if HasId(obras[i], Get(formData, "id")) {
      assert u[i] == obras[i] + p;
      assert "nome_cliente" in PayloadKeys && "local" in PayloadKeys;
      assert (obras[i] + p)["nome_cliente"] == p["nome_cliente"] == Body(formData)["nome_cliente"];
      assert (obras[i] + p)["local"] == p["local"] == Body(formData)["local"];
      assert (obras[i] + p)["id"] == p["id"];
    }
  }

  // ---------------------------------------------------------------- the screen

  /** The screen's state: the site being edited, if any (the `obra` route
      parameter), the form's fields and the error flags. */
  class WorkScreen {
    const store: DataStore
    const obraToEdit: Option<Record>
    var formData: Record
    var errors: map<string, bool>

    /** The value field always holds text. */
    predicate Valid()
      reads this
    {
      Get(formData, "valor_total").Str?
    }

    constructor(store: DataStore, obraToEdit: Option<Record>, today: string, metragemText: string, valorText: string)
      ensures this.store == store && this.obraToEdit == obraToEdit && Valid()
      ensures obraToEdit.Some? ==> formData == EditForm(obraToEdit.value, metragemText, valorText)
      ensures obraToEdit.None? ==> formData == NewForm(today)
      ensures errors == map[]
    {
      this.store := store;
      this.obraToEdit := obraToEdit;
      if obraToEdit.Some? {
        formData := EditForm(obraToEdit.value, metragemText, valorText);
      } else {
        formData := NewForm(today);
      }
      errors := map[];
    }

    /** `handleChange(name, value)`: sets only field `name` and clears only
        its flag. Every input hands it text for the value field. */
    method HandleChange(name: string, value: Value)
      requires Valid()
      requires name == "valor_total" ==> value.Str?
      modifies this
      ensures Valid()
      ensures formData == old(formData)[name := value] && errors == old(errors)[name := false]
      ensures forall k | k != name :: Get(formData, k) == Get(old(formData), k)
      ensures forall k | k != name && k in old(errors) :: k in errors && errors[k] == old(errors)[k]
    {
      formData := formData[name := value];
      errors := errors[name := false];
    }

    /** The value input. */
    method HandleValueInput(text: string)
      requires Valid()
      modifies this
      ensures Valid()
      ensures formData == old(formData)["valor_total" := Str(ValueText(text))]
      ensures errors == old(errors)["valor_total" := false]
    {
      HandleChange("valor_total", Str(ValueText(text)));
    }

    /** `handleSubmit`. A form with flags only shows them. Otherwise a new
        site is created; an edited site is, as written, passed to
        `updateObra` in the id position, so no site changes, and with the
        intended call the site with the form's id takes the payload. */
    method HandleSubmit(reading: Reading, now: nat) returns (sent: bool)
      requires Valid()
      modifies this, store
      ensures Valid() && formData == old(formData)
      ensures sent <==> Flags(formData) == Some(map[])
      ensures Flags(formData).Some? && !sent ==> errors == Flags(formData).value
      ensures !sent ==> store.obras == old(store.obras) && store.storedObras == old(store.storedObras)
      ensures sent && obraToEdit.None? ==> store.obras == [NewObra(DataToSend(formData, false), now)] + old(store.obras)
      ensures sent && obraToEdit.Some? && reading == AsWritten ==> store.obras == old(store.obras)
      ensures sent && obraToEdit.Some? && reading == Intended ==>
                store.obras == Updated(old(store.obras), Get(formData, "id"), DataToSend(formData, true))
      ensures sent ==> store.storedObras == Saved(store.obras)
      ensures store.materials == old(store.materials) && store.movimentacoes == old(store.movimentacoes)
      ensures store.storedMaterials == old(store.storedMaterials) && store.storedMovimentacoes == old(store.storedMovimentacoes)
      ensures store.isLoading == old(store.isLoading)
      ensures sent || Flags(formData).None? ==> errors == old(errors)
    {
      sent := false;
      var validationErrors := ValidateForm(formData);
      if validationErrors.None? {
        return;
      }
      if validationErrors.value != map[] {
        errors := validationErrors.value;
        return;
      }
      var dataToSend := DataToSend(formData, obraToEdit.Some?);
      if obraToEdit.Some? {
        if reading == AsWritten {
          store.UpdateObra(Obj(dataToSend), map[]);
          EditAsWrittenChangesNothing(old(store.obras), dataToSend);
        } else {
          store.UpdateObra(Get(formData, "id"), dataToSend);
        }
      } else {
        var _ := store.CreateObra(dataToSend, now);
      }
      sent := true;
    }
  }
}
