/** The in-memory inventory store of `src/context/DataService.js`: three
    lists of records (materials, work sites, movements), the sample data
    they start from, and the device storage they are written to. */
module DataService {
  import opened Optional
  import opened JsText
  import opened JsNumber
  import opened JsValue
  import opened Seqs

  // ---------------------------------------------------------------- sample data

  function Material(id: string, nome: string, unidade: string, qtd: real, minimo: real, valor: real): Record {
    map["id" := Str(id), "nome" := Str(nome), "unidade_medida" := Str(unidade),
        "quantidade" := Num(qtd), "estoque_minimo" := Num(minimo), "valor_unitario" := Num(valor)]
  }

  function Site(id: string, cliente: string, status: string, local: string): Record {
    map["id" := Str(id), "nome_cliente" := Str(cliente), "status" := Str(status), "local" := Str(local)]
  }

  /** The built-in materials. */
  const MaterialsMock: seq<Record> := [
    Material("mat1", "Cimento CP II-32", "sacos", 4.0, 5.0, 35.5),
    Material("mat2", "Tijolo Baiano 6 Furos", "unid", 500.0, 400.0, 1.1),
    Material("mat3", "Areia Média", "m³", 2.5, 5.0, 100.0),
    Material("mat4", "Vergalhão 3/8\"", "barras", 15.0, 20.0, 50.0)
  ]

  /** The built-in work sites. */
  const ObrasMock: seq<Record> := [
    Site("obra1", "Casa do João", "ativa", "Rua A, 123"),
    Site("obra2", "Residência Ana", "arquivada", "Av. B, 456"),
    Site("obra3", "Prédio Comercial", "ativa", "Centro")
  ]

  /** The built-in movements, dated one day and one hour before `boot`, the
      clock reading taken when the module is first evaluated. */
  function MovimentacoesMock(boot: int): seq<Record> {
    [ map["id" := Str("mov1"), "tipo" := Str("saida"), "material_id" := Str("mat1"),
          "material_nome" := Str("Cimento CP II-32"), "obra_id" := Str("obra1"),
          "obra_nome" := Str("Casa do João"), "quantidade" := Num(5.0),
          "valor_total" := Num(177.5), "observacao" := Str("Início da fundação"),
          "created_date" := Iso(boot - 86400000)],
      map["id" := Str("mov2"), "tipo" := Str("saida"), "material_id" := Str("mat3"),
          "material_nome" := Str("Areia Média"), "obra_id" := Str("obra3"),
          "obra_nome" := Str("Prédio Comercial"), "quantidade" := Num(1.0),
          "valor_total" := Num(100.0), "observacao" := Str("Primeira carga"),
          "created_date" := Iso(boot - 3600000)] ]
  }

  predicate AllClean(l: seq<Record>) {
    forall i :: 0 <= i < |l| ==> CleanRecord(l[i])
  }

  /** The sample data holds no NaN and no `undefined`, so JSON keeps it exactly. */
  lemma MocksClean(boot: int)
    ensures AllClean(MaterialsMock) && AllClean(ObrasMock) && AllClean(MovimentacoesMock(boot))
  {
    MaterialsClean();
    ObrasClean();
    MovimentacoesClean(boot);
  }

  lemma MaterialsClean()
    ensures AllClean(MaterialsMock)
  {
    forall i | 0 <= i < |MaterialsMock| ensures CleanRecord(MaterialsMock[i]) {
      var r := MaterialsMock[i];
      assert forall k | k in r :: r[k].Str? || r[k].Num?;
    }
  }

  lemma ObrasClean()
    ensures AllClean(ObrasMock)
  {
    forall i | 0 <= i < |ObrasMock| ensures CleanRecord(ObrasMock[i]) {
      var r := ObrasMock[i];
      assert forall k | k in r :: r[k].Str?;
    }
  }

  lemma MovimentacoesClean(boot: int)
    ensures AllClean(MovimentacoesMock(boot))
  {
    var v := MovimentacoesMock(boot);
    forall i | 0 <= i < |v| ensures CleanRecord(v[i]) {
      var r := v[i];
      assert forall k | k in r :: r[k].Str? || r[k].Num? || r[k].Iso?;
    }
  }

  // ---------------------------------------------------------------- storage

  /** What the device holds under one storage key: nothing, or the JSON text
      written from a list (represented by that list). */
  datatype Stored = Absent | Saved(items: seq<Record>)

  /** `stored ? JSON.parse(stored) : mock`. A written list is never empty text
      (`[]` at least), so only an absent key falls back to the sample data. */
  function Restored(s: Stored, mock: seq<Record>): seq<Record> {
    match s
    case Absent => mock
    case Saved(items) => JsonList(items)
  }

  /** A list free of NaN and `undefined` reads back exactly as it was written. */
  lemma {:induction false} SaveThenRestore(l: seq<Record>, mock: seq<Record>)
    requires AllClean(l)
    ensures Restored(Saved(l), mock) == l
  {
    JsonListClean(l);
  }

  /** Writing back what was read and reading it again gives the same lists,
      whether the key was absent or held data. */
  lemma {:induction false} RestoreStable(s: Stored, mock: seq<Record>)
    requires AllClean(mock)
    ensures Restored(Saved(Restored(s, mock)), mock) == Restored(s, mock)
  {
    match s
    case Absent => JsonListClean(mock);
    case Saved(items) => JsonListIdempotent(items);
  }

  // ---------------------------------------------------------------- record builders

  /** `{...data, id: prefix + now, created_date: new Date(now).toISOString()}`:
      the stamp wins over any `id` or `created_date` the caller supplied. */
  function Stamped(data: Record, prefix: string, now: nat): (r: Record)
    ensures r.Keys == data.Keys + {"id", "created_date"}
    ensures Get(r, "id") == Str(prefix + Decimal(now))
    ensures Get(r, "created_date") == Iso(now)
    ensures forall k | k in data && k != "id" && k != "created_date" :: r[k] == data[k]
  {
    data + map["id" := Str(prefix + Decimal(now)), "created_date" := Iso(now)]
  }

  /** Every other property reads the same before and after stamping. */
  lemma StampedGet(data: Record, prefix: string, now: nat, k: string)
    requires k != "id" && k != "created_date"
    ensures Get(Stamped(data, prefix, now), k) == Get(data, k)
  {
    var r := Stamped(data, prefix, now);
    assert k in r <==> k in data;
  }

  function NewMaterial(data: Record, now: nat): Record {
    Stamped(data, "mat", now)
  }

  /** A new work site is always stored as active, whatever status it came with. */
  function NewObra(data: Record, now: nat): (r: Record)
    ensures Get(r, "status") == Str("ativa")
    ensures Get(r, "id") == Str("obra" + Decimal(now)) && Get(r, "created_date") == Iso(now)
    ensures r.Keys == data.Keys + {"id", "created_date", "status"}
    ensures forall k | k in data && k !in {"id", "created_date", "status"} :: r[k] == data[k]
  {
    Stamped(data, "obra", now) + map["status" := Str("ativa")]
  }

  function NewMovimentacao(data: Record, now: nat): Record {
    Stamped(data, "mov", now)
  }

  // ---------------------------------------------------------------- list operations

  /** The record matches `id` under `===`. */
  predicate HasId(r: Record, id: Value) {
    StrictEq(Get(r, "id"), id)
  }

  /** `list.map(m => m.id === id ? {...m, ...data} : m)` */
  function Updated(list: seq<Record>, id: Value, data: Record): (r: seq<Record>)
    ensures |r| == |list|
    ensures forall i :: 0 <= i < |list| ==> r[i] == if HasId(list[i], id) then list[i] + data else list[i]
    ensures (forall i :: 0 <= i < |list| ==> !HasId(list[i], id)) ==> r == list
  {
    if list == [] then []
    else [if HasId(list[0], id) then list[0] + data else list[0]] + Updated(list[1..], id, data)
  }

  /** `list.filter(m => m.id !== id)`: exactly the records with that id go, the
      others stay in their order. */
  function Deleted(list: seq<Record>, id: Value): (r: seq<Record>)
    ensures forall i :: 0 <= i < |r| ==> !HasId(r[i], id) && r[i] in list
    ensures forall i :: 0 <= i < |list| && !HasId(list[i], id) ==> list[i] in r
    ensures Subsequence(r, list)
    ensures |r| + Count(list, m => HasId(m, id)) == |list|
  {
    var keep := (m: Record) => !HasId(m, id);
    FilterIsSubsequence(list, keep);
    FilterLength(list, keep);
    CountComplement(list, m => HasId(m, id), keep);
    Filter(list, keep)
  }

  lemma {:induction false} CountComplement<T>(s: seq<T>, p: T -> bool, q: T -> bool)
    requires forall x :: q(x) == !p(x)
    ensures Count(s, q) + Count(s, p) == |s|
  {
    if s != [] {
      CountComplement(s[1..], p, q);
    }
  }

  /** `list.find(m => m.id === id)` as a position, |list| when nothing matches. */
  function FindFirst(list: seq<Record>, id: Value): (k: nat)
    ensures k <= |list|
    ensures forall i :: 0 <= i < k ==> !HasId(list[i], id)
    ensures k < |list| ==> HasId(list[k], id)
  {
    FindFrom(list, id, 0)
  }

  /** The first index from `i` on whose record has the id, or `|list|`. */
  function FindFrom(list: seq<Record>, id: Value, i: nat): (k: nat)
    requires i <= |list|
    ensures i <= k <= |list|
    ensures forall j :: i <= j < k ==> !HasId(list[j], id)
    ensures k < |list| ==> HasId(list[k], id)
    decreases |list| - i
  {
    if i == |list| || HasId(list[i], id) then i else FindFrom(list, id, i + 1)
  }

  /** The stock a movement leaves: `saida` subtracts the parsed quantity,
      `entrada` adds it, any other type keeps the old value. There is no
      lower bound. */
  function Adjusted(stock: Value, tipo: Value, qty: Value): (r: Value)
    ensures tipo == Str("saida") && stock.Num? && ParseFloatOf(qty).Num? ==>
              r == Num(stock.n - ParseFloatOf(qty).n)
    ensures tipo == Str("entrada") && stock.Num? && ParseFloatOf(qty).Num? ==>
              r == Num(stock.n + ParseFloatOf(qty).n)
    ensures tipo != Str("saida") && tipo != Str("entrada") ==> r == stock
    ensures (tipo == Str("saida") || tipo == Str("entrada")) && ParseFloatOf(qty).NaN? ==> r == NaN
  {
    var q := ParseFloatOf(qty);
    if StrictEq(tipo, Str("saida")) then Minus(stock, q)
    else if StrictEq(tipo, Str("entrada")) then Plus(stock, q)
    else stock
  }

  /** Taking out more than is in stock leaves a negative quantity. */
  lemma SaidaBelowZero(stock: real, qty: real)
    requires 0.0 <= stock < qty
    ensures Adjusted(Num(stock), Str("saida"), Num(qty)).n < 0.0
  {
  }

  /** The material list after recording movement `data`: the first material
      whose id is `data.material_id` gives the old stock, and every record
      with that id gets the adjusted stock; no match, no change. */
  function MovedStock(materials: seq<Record>, data: Record): (r: seq<Record>)
    ensures |r| == |materials|
    ensures FindFirst(materials, Get(data, "material_id")) == |materials| ==> r == materials
    ensures forall i :: 0 <= i < |materials| && !HasId(materials[i], Get(data, "material_id")) ==>
              r[i] == materials[i]
    ensures var k := FindFirst(materials, Get(data, "material_id"));
            forall i :: 0 <= i < |materials| && HasId(materials[i], Get(data, "material_id")) ==>
              r[i] == materials[i]["quantidade" := Adjusted(Get(materials[k], "quantidade"), Get(data, "tipo"), Get(data, "quantidade"))]
  {
    var k := FindFirst(materials, Get(data, "material_id"));
    if k == |materials| then materials
    else
      var m := materials[k];
      Updated(materials, Get(m, "id"),
              map["quantidade" := Adjusted(Get(m, "quantidade"), Get(data, "tipo"), Get(data, "quantidade"))])
  }

  /** With a match at `k`, the list is the one `updateMaterial` gives for the
      match's id and adjusted stock. */
  lemma MovedStockFound(materials: seq<Record>, data: Record)
    requires FindFirst(materials, Get(data, "material_id")) < |materials|
    ensures var m := materials[FindFirst(materials, Get(data, "material_id"))];
            MovedStock(materials, data)
              == Updated(materials, Get(m, "id"),
                         map["quantidade" := Adjusted(Get(m, "quantidade"), Get(data, "tipo"), Get(data, "quantidade"))])
  {
  }

  /** A movement that names a material deleted earlier leaves the materials
      as they are: the movement list still refers to it, nothing else does. */
  lemma DeletedThenMoved(materials: seq<Record>, data: Record)
    ensures MovedStock(Deleted(materials, Get(data, "material_id")), data)
         == Deleted(materials, Get(data, "material_id"))
  {
    var d := Deleted(materials, Get(data, "material_id"));
    assert FindFirst(d, Get(data, "material_id")) == |d|;
  }

  /** No two records share an id. */
  predicate DistinctIds(l: seq<Record>) {
    forall i, j :: 0 <= i < j < |l| ==> !StrictEq(Get(l[i], "id"), Get(l[j], "id"))
  }

  /** Prepending a stamped record keeps ids distinct as long as its new id
      is not already a record's id. */
  lemma {:induction false} StampedKeepsDistinct(l: seq<Record>, data: Record, prefix: string, now: nat)
    requires DistinctIds(l)
    requires forall i :: 0 <= i < |l| ==> Get(l[i], "id") != Str(prefix + Decimal(now))
    ensures DistinctIds([Stamped(data, prefix, now)] + l)
  {
    var l' := [Stamped(data, prefix, now)] + l;
    forall i, j | 0 <= i < j < |l'|
      ensures !StrictEq(Get(l'[i], "id"), Get(l'[j], "id"))
    {
      if i == 0 {
        assert l'[j] == l[j - 1];
      } else {
        assert l'[i] == l[i - 1] && l'[j] == l[j - 1];
      }
    }
  }

  /** Every id in `l` is `prefix` followed by a clock reading taken before `now`. */
  predicate StampedBefore(l: seq<Record>, prefix: string, now: nat) {
    forall i :: 0 <= i < |l| ==> StampedAt(l[i], prefix, now)
  }

  /** The id of `r` is `prefix` followed by a reading taken before `now`. */
  predicate StampedAt(r: Record, prefix: string, now: nat) {
    exists t: nat :: t < now && Get(r, "id") == Str(prefix + Decimal(t))
  }

  /** When every id was stamped before `now`, the id stamped at `now` is new. */
  lemma ClockFresh(l: seq<Record>, prefix: string, now: nat)
    requires StampedBefore(l, prefix, now)
    ensures forall i :: 0 <= i < |l| ==> Get(l[i], "id") != Str(prefix + Decimal(now))
  {
    forall i | 0 <= i < |l|
      ensures Get(l[i], "id") != Str(prefix + Decimal(now))
    {
      var t: nat :| t < now && Get(l[i], "id") == Str(prefix + Decimal(t));
      if Decimal(t) == Decimal(now) {
        DecimalInjective(t, now);
      }
      assert (prefix + Decimal(t))[|prefix|..] == Decimal(t);
      assert (prefix + Decimal(now))[|prefix|..] == Decimal(now);
    }
  }

  /** A record created at `now` keeps the list stamped before any later
      reading, so the next creation is fresh again. */
  lemma StampedStaysBefore(l: seq<Record>, data: Record, prefix: string, now: nat, later: nat)
    requires StampedBefore(l, prefix, now) && now < later
    ensures StampedBefore([Stamped(data, prefix, now)] + l, prefix, later)
  {
    var l' := [Stamped(data, prefix, now)] + l;
    forall i | 0 <= i < |l'|
      ensures StampedAt(l'[i], prefix, later)
    {
      if i == 0 {
        assert Get(l'[0], "id") == Str(prefix + Decimal(now));
      } else {
        assert l'[i] == l[i - 1];
        var t: nat :| t < now && Get(l[i - 1], "id") == Str(prefix + Decimal(t));
      }
    }
  }

  /** A list whose `i`-th id is `prefix` and the reading `i + 1` was stamped
      before any reading past its length. */
  lemma NumberedStampedBefore(l: seq<Record>, prefix: string, now: nat)
    requires |l| < now
    requires forall i :: 0 <= i < |l| ==> Get(l[i], "id") == Str(prefix + Decimal(i + 1))
    ensures StampedBefore(l, prefix, now)
  {
    forall i | 0 <= i < |l|
      ensures StampedAt(l[i], prefix, now)
    {
      var t: nat := i + 1;
      assert t < now && Get(l[i], "id") == Str(prefix + Decimal(t));
    }
  }

  /** The sample ids `mat1`..`mat4`, `obra1`..`obra3` and `mov1`, `mov2` are
      stamps of the readings 1 to 4, so any clock reading past 4 is fresh. */
  lemma MocksStampedBefore(boot: int)
    ensures StampedBefore(MaterialsMock, "mat", 5)
    ensures StampedBefore(ObrasMock, "obra", 5)
    ensures StampedBefore(MovimentacoesMock(boot), "mov", 5)
  {
    MaterialsNumbered();
    NumberedStampedBefore(MaterialsMock, "mat", 5);
    ObrasNumbered();
    NumberedStampedBefore(ObrasMock, "obra", 5);
    MovimentacoesNumbered(boot);
    NumberedStampedBefore(MovimentacoesMock(boot), "mov", 5);
  }

  lemma MaterialsNumbered()
    ensures forall i :: 0 <= i < |MaterialsMock| ==> Get(MaterialsMock[i], "id") == Str("mat" + Decimal(i + 1))
  {
    assert Decimal(1) == "1" && Decimal(2) == "2" && Decimal(3) == "3" && Decimal(4) == "4";
  }

  lemma ObrasNumbered()
    ensures forall i :: 0 <= i < |ObrasMock| ==> Get(ObrasMock[i], "id") == Str("obra" + Decimal(i + 1))
  {
    assert Decimal(1) == "1" && Decimal(2) == "2" && Decimal(3) == "3";
  }

  lemma MovimentacoesNumbered(boot: int)
    ensures var v := MovimentacoesMock(boot);
            forall i :: 0 <= i < |v| ==> Get(v[i], "id") == Str("mov" + Decimal(i + 1))
  {
    assert Decimal(1) == "1" && Decimal(2) == "2";
  }

  /** An update whose data carries no `id` keeps ids distinct. */
  lemma {:induction false} UpdatedKeepsDistinct(l: seq<Record>, id: Value, data: Record)
    requires DistinctIds(l)
    requires "id" in data ==> data["id"] == id
    ensures DistinctIds(Updated(l, id, data))
  {
    UpdatedKeepsIds(l, id, data);
  }

  /** An update whose data carries no `id`, or the matched id itself, leaves
      every record's id as it was. */
  lemma UpdatedKeepsIds(l: seq<Record>, id: Value, data: Record)
    requires "id" in data ==> data["id"] == id
    ensures forall i :: 0 <= i < |l| ==> Get(Updated(l, id, data)[i], "id") == Get(l[i], "id")
  {
    var r := Updated(l, id, data);
    forall i | 0 <= i < |l|
      ensures Get(r[i], "id") == Get(l[i], "id")
    {
    }
  }

  /** Such an update keeps every id stamped before `now`. */
  lemma UpdatedStampedBefore(l: seq<Record>, id: Value, data: Record, prefix: string, now: nat)
    requires StampedBefore(l, prefix, now)
    requires "id" in data ==> data["id"] == id
    ensures StampedBefore(Updated(l, id, data), prefix, now)
  {
    var r := Updated(l, id, data);
    UpdatedKeepsIds(l, id, data);
    forall i | 0 <= i < |r|
      ensures StampedAt(r[i], prefix, now)
    {
      var t: nat :| t < now && Get(l[i], "id") == Str(prefix + Decimal(t));
      assert Get(r[i], "id") == Str(prefix + Decimal(t));
    }
  }

  /** Deleting keeps every id stamped before `now`. */
  lemma DeletedStampedBefore(l: seq<Record>, id: Value, prefix: string, now: nat)
    requires StampedBefore(l, prefix, now)
    ensures StampedBefore(Deleted(l, id), prefix, now)
  {
    var r := Deleted(l, id);
    forall i | 0 <= i < |r|
      ensures StampedAt(r[i], prefix, now)
    {
      var j :| 0 <= j < |l| && l[j] == r[i];
    }
  }

  /** Deleting keeps ids distinct. */
  lemma {:induction false} DeletedKeepsDistinct(l: seq<Record>, id: Value)
    requires DistinctIds(l)
    ensures DistinctIds(Deleted(l, id))
  {
    SubsequenceKeepsDistinct(Deleted(l, id), l);
  }

  lemma {:induction false} SubsequenceKeepsDistinct(a: seq<Record>, b: seq<Record>)
    requires Subsequence(a, b) && DistinctIds(b)
    ensures DistinctIds(a)
    decreases |b|
  {
    if a != [] {
      assert forall j :: 0 <= j < |b| - 1 ==> b[1..][j] == b[j + 1];
      if a[0] == b[0] && Subsequence(a[1..], b[1..]) {
        SubsequenceKeepsDistinct(a[1..], b[1..]);
        forall j | 0 < j < |a|
          ensures !StrictEq(Get(a[0], "id"), Get(a[j], "id"))
        {
          SubsequenceMember(a[1..], b[1..], j - 1);
        }
        assert forall i, j :: 0 < i < j < |a| ==> a[i] == a[1..][i - 1] && a[j] == a[1..][j - 1];
      } else {
        SubsequenceKeepsDistinct(a, b[1..]);
      }
    }
  }

  lemma {:induction false} SubsequenceMember<T>(a: seq<T>, b: seq<T>, j: nat)
    requires Subsequence(a, b) && j < |a|
    ensures a[j] in b
    decreases |b|
  {
    if a[0] == b[0] && Subsequence(a[1..], b[1..]) {
      if j > 0 {
        SubsequenceMember(a[1..], b[1..], j - 1);
      }
    } else {
      SubsequenceMember(a, b[1..], j);
    }
  }

  // ---------------------------------------------------------------- context value

  /** The value the provider hands to every screen (`useData()`). */
  datatype ContextValue = ContextValue(isLoading: bool, materials: seq<Record>, obras: seq<Record>, movimentacoes: seq<Record>)

  /** Reading a list out of the context by property name: only `materials`,
      `obras` and `movimentacoes` exist; any other name reads `undefined`. */
  function ContextList(ctx: ContextValue, name: string): (r: Option<seq<Record>>)
    ensures r.Some? <==> name == "materials" || name == "obras" || name == "movimentacoes"
    ensures name == "materials" ==> r == Some(ctx.materials)
    ensures name == "obras" ==> r == Some(ctx.obras)
    ensures name == "movimentacoes" ==> r == Some(ctx.movimentacoes)
  {
    if name == "materials" then Some(ctx.materials)
    else if name == "obras" then Some(ctx.obras)
    else if name == "movimentacoes" then Some(ctx.movimentacoes)
    else None
  }

  // ---------------------------------------------------------------- the store

  /** The provider's state. `now` arguments are `Date.now()` at the call;
      storage writes are taken to succeed, and a stored key is represented
      by the list last written to it. */
  class DataStore {
    const boot: nat
    var isLoading: bool
    var materials: seq<Record>
    var obras: seq<Record>
    var movimentacoes: seq<Record>
    var storedMaterials: Stored
    var storedObras: Stored
    var storedMovimentacoes: Stored

    /** A fresh app start over whatever the device holds: empty lists,
        loading. */
    constructor(boot: nat, m: Stored, o: Stored, v: Stored)
      ensures this.boot == boot && isLoading
      ensures materials == [] && obras == [] && movimentacoes == []
      ensures storedMaterials == m && storedObras == o && storedMovimentacoes == v
    {
      this.boot := boot;
      isLoading := true;
      materials, obras, movimentacoes := [], [], [];
      storedMaterials, storedObras, storedMovimentacoes := m, o, v;
    }

    function Value(): ContextValue
      reads this
    {
      ContextValue(isLoading, materials, obras, movimentacoes)
    }

    /** The initial load: each list is what its key holds, or the sample data
        when the key is absent. When reading the device fails nothing is set.
        Loading ends either way. */
    method Load(readOk: bool)
      modifies this
      ensures readOk ==> (materials == Restored(storedMaterials, MaterialsMock)
                          && obras == Restored(storedObras, ObrasMock)
                          && movimentacoes == Restored(storedMovimentacoes, MovimentacoesMock(boot)))
      ensures !readOk ==> (materials == old(materials) && obras == old(obras)
                           && movimentacoes == old(movimentacoes))
      ensures !isLoading
      ensures storedMaterials == old(storedMaterials) && storedObras == old(storedObras)
           && storedMovimentacoes == old(storedMovimentacoes)
    {
      if readOk {
        materials := Restored(storedMaterials, MaterialsMock);
        obras := Restored(storedObras, ObrasMock);
        movimentacoes := Restored(storedMovimentacoes, MovimentacoesMock(boot));
      }
      isLoading := false;
    }

    method CreateMaterial(data: Record, now: nat) returns (newMaterial: Record)
      modifies this
      ensures newMaterial == NewMaterial(data, now)
      ensures materials == [newMaterial] + old(materials) && storedMaterials == Saved(materials)
      ensures obras == old(obras) && movimentacoes == old(movimentacoes) && isLoading == old(isLoading)
      ensures storedObras == old(storedObras) && storedMovimentacoes == old(storedMovimentacoes)
    {
      newMaterial := NewMaterial(data, now);
      materials := [newMaterial] + materials;
      storedMaterials := Saved(materials);
    }

    method UpdateMaterial(id: Value, data: Record)
      modifies this
      ensures materials == Updated(old(materials), id, data) && storedMaterials == Saved(materials)
      ensures obras == old(obras) && movimentacoes == old(movimentacoes) && isLoading == old(isLoading)
      ensures storedObras == old(storedObras) && storedMovimentacoes == old(storedMovimentacoes)
    {
      materials := Updated(materials, id, data);
      storedMaterials := Saved(materials);
    }

    /** Movements that name the deleted material are kept. */
    method DeleteMaterial(id: Value)
      modifies this
      ensures materials == Deleted(old(materials), id) && storedMaterials == Saved(materials)
      ensures obras == old(obras) && movimentacoes == old(movimentacoes) && isLoading == old(isLoading)
      ensures storedObras == old(storedObras) && storedMovimentacoes == old(storedMovimentacoes)
    {
      materials := Deleted(materials, id);
      storedMaterials := Saved(materials);
    }

    method CreateObra(data: Record, now: nat) returns (newObra: Record)
      modifies this
      ensures newObra == NewObra(data, now)
      ensures obras == [newObra] + old(obras) && storedObras == Saved(obras)
      ensures materials == old(materials) && movimentacoes == old(movimentacoes) && isLoading == old(isLoading)
      ensures storedMaterials == old(storedMaterials) && storedMovimentacoes == old(storedMovimentacoes)
    {
      newObra := NewObra(data, now);
      obras := [newObra] + obras;
      storedObras := Saved(obras);
    }

    method UpdateObra(id: Value, data: Record)
      modifies this
      ensures obras == Updated(old(obras), id, data) && storedObras == Saved(obras)
      ensures materials == old(materials) && movimentacoes == old(movimentacoes) && isLoading == old(isLoading)
      ensures storedMaterials == old(storedMaterials) && storedMovimentacoes == old(storedMovimentacoes)
    {
      obras := Updated(obras, id, data);
      storedObras := Saved(obras);
    }

    method DeleteObra(id: Value)
      modifies this
      ensures obras == Deleted(old(obras), id) && storedObras == Saved(obras)
      ensures materials == old(materials) && movimentacoes == old(movimentacoes) && isLoading == old(isLoading)
      ensures storedMaterials == old(storedMaterials) && storedMovimentacoes == old(storedMovimentacoes)
    {
      obras := Deleted(obras, id);
      storedObras := Saved(obras);
    }

    /** Records movement `data`: adjusts the stock of the material it names,
        if any, and prepends the stamped movement in every case. */
    method CreateMovimentacao(data: Record, now: nat) returns (newMov: Record)
      modifies this
      ensures newMov == NewMovimentacao(data, now)
      ensures movimentacoes == [newMov] + old(movimentacoes) && storedMovimentacoes == Saved(movimentacoes)
      ensures materials == MovedStock(old(materials), data)
      ensures storedMaterials == if FindFirst(old(materials), Get(data, "material_id")) < |old(materials)|
                                 then Saved(materials) else old(storedMaterials)
      ensures obras == old(obras) && isLoading == old(isLoading) && storedObras == old(storedObras)
    {
      newMov := NewMovimentacao(data, now);
      ghost var before := materials;
      var k := FindFirst(materials, Get(data, "material_id"));
      if k < |materials| {
        var materialToUpdate := materials[k];
        var quantidadeMov := ParseFloatOf(Get(data, "quantidade"));
        var novaQuantidade := Get(materialToUpdate, "quantidade");
        if StrictEq(Get(data, "tipo"), Str("saida")) {
          novaQuantidade := Minus(novaQuantidade, quantidadeMov);
        } else if StrictEq(Get(data, "tipo"), Str("entrada")) {
          novaQuantidade := Plus(novaQuantidade, quantidadeMov);
        }
        assert novaQuantidade == Adjusted(Get(materialToUpdate, "quantidade"), Get(data, "tipo"), Get(data, "quantidade"));
        MovedStockFound(before, data);
        UpdateMaterial(Get(materialToUpdate, "id"), map["quantidade" := novaQuantidade]);
      }
      movimentacoes := [newMov] + movimentacoes;
      storedMovimentacoes := Saved(movimentacoes);
    }

    /** Restores the sample data. When clearing the device fails nothing
        else happens. Otherwise the lists become the sample data and the first
        `written` of the three keys are written again (a failed write stops
        the rest); the keys not written stay absent. */
    method ResetDatabase(removed: bool, written: nat)
      modifies this
      ensures removed ==> (materials == MaterialsMock && obras == ObrasMock
                           && movimentacoes == MovimentacoesMock(boot))
      ensures removed ==> (storedMaterials == (if written >= 1 then Saved(MaterialsMock) else Absent)
                           && storedObras == (if written >= 2 then Saved(ObrasMock) else Absent)
                           && storedMovimentacoes == (if written >= 3 then Saved(MovimentacoesMock(boot)) else Absent))
      ensures !removed ==> (materials == old(materials) && obras == old(obras)
                            && movimentacoes == old(movimentacoes)
                            && storedMaterials == old(storedMaterials) && storedObras == old(storedObras)
                            && storedMovimentacoes == old(storedMovimentacoes))
      ensures !isLoading
    {
      isLoading := true;
      if removed {
        storedMaterials, storedObras, storedMovimentacoes := Absent, Absent, Absent;
        materials := MaterialsMock;
        obras := ObrasMock;
        movimentacoes := MovimentacoesMock(boot);
        if written >= 1 {
          storedMaterials := Saved(MaterialsMock);
          if written >= 2 {
            storedObras := Saved(ObrasMock);
            if written >= 3 {
              storedMovimentacoes := Saved(MovimentacoesMock(boot));
            }
          }
        }
      }
      isLoading := false;
    }
  }

  /** After a reset that cleared the device, the next start, whose module
      load reads the clock as `next`, loads the sample data again, however
      many of the writes went through. The sample movements keep the reset's
      dates when their key was written and are dated from `next` when it
      was not. */
  lemma ResetThenRestore(boot: int, next: int, written: nat)
    ensures Restored(if written >= 1 then Saved(MaterialsMock) else Absent, MaterialsMock) == MaterialsMock
    ensures Restored(if written >= 2 then Saved(ObrasMock) else Absent, ObrasMock) == ObrasMock
    ensures Restored(if written >= 3 then Saved(MovimentacoesMock(boot)) else Absent, MovimentacoesMock(next))
         == if written >= 3 then MovimentacoesMock(boot) else MovimentacoesMock(next)
  {
    MocksClean(boot);
    JsonListClean(MaterialsMock);
    JsonListClean(ObrasMock);
    JsonListClean(MovimentacoesMock(boot));
  }
}
