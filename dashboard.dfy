/** The summary screen of `src/screens/Dashboard.js`: counts and sums over
    the three lists, and the value moved per site. The screen reads a list
    and three properties under names the store does not use; members that
    depend on those names take a `Reading`: the names as written, or the
    ones the store has. */
module Dashboard {
  import opened Optional
  import opened JsValue
  import opened Seqs
  import opened DataService
  import opened Materiais
  import opened Reading

  // ---------------------------------------------------------------- the names read

  /** The context property the material list is read from. */
  function MaterialsName(reading: Reading): string {
    if reading == AsWritten then "materiais" else "materials"
  }

  /** The property holding a material's stock. */
  function StockKey(reading: Reading): string {
    if reading == AsWritten then "estoque_atual" else "quantidade"
  }

  /** The property holding a movement's site. */
  function SiteKey(reading: Reading): string {
    if reading == AsWritten then "obraId" else "obra_id"
  }

  /** The value of one movement: as written `mov.quantidade * mov.valorUnitario`;
      a stored movement carries that product as `valor_total`. */
  function MovValue(mov: Record, reading: Reading): Value {
    if reading == AsWritten then Times(Get(mov, "quantidade"), Get(mov, "valorUnitario"))
    else Get(mov, "valor_total")
  }

  /** `list || []` */
  function SafeList(list: Option<seq<Record>>): (r: seq<Record>)
    ensures list.None? ==> r == []
    ensures list.Some? ==> r == list.value
  {
    list.GetOr([])
  }

  /** `safeMateriais`: as written the context has no `materiais`, so the
      list is always empty. */
  function SafeMateriais(ctx: ContextValue, reading: Reading): (r: seq<Record>)
    ensures reading == AsWritten ==> r == []
    ensures reading == Intended ==> r == ctx.materials
  {
    SafeList(ContextList(ctx, MaterialsName(reading)))
  }

  function SafeObras(ctx: ContextValue): (r: seq<Record>)
    ensures r == ctx.obras
  {
    SafeList(ContextList(ctx, "obras"))
  }

  function SafeMovs(ctx: ContextValue): (r: seq<Record>)
    ensures r == ctx.movimentacoes
  {
    SafeList(ContextList(ctx, "movimentacoes"))
  }

  // ---------------------------------------------------------------- the cards

  /** `totalMateriais` */
  function TotalMateriais(ctx: ContextValue, reading: Reading): nat {
    |SafeMateriais(ctx, reading)|
  }

  /** `totalMovMes`: every movement counts, whatever its date. */
  function TotalMovMes(ctx: ContextValue): nat {
    |SafeMovs(ctx)|
  }

  /** `list.reduce((sum, x) => sum + f(x), 0)`, left to right. */
  function SumBy(list: seq<Record>, f: Record -> Value): Value {
    if list == [] then Num(0.0) else Plus(SumBy(list[..|list| - 1], f), f(list[|list| - 1]))
  }

  /** `(item.valor_unitario || 0) * (item.estoque_atual || 0)`, one term of `totalEstoque`. */
  function StockTerm(m: Record, reading: Reading): Value {
    Times(Or(Get(m, "valor_unitario"), Num(0.0)), Or(Get(m, StockKey(reading)), Num(0.0)))
  }

  function StockTerms(reading: Reading): Record -> Value {
    m => StockTerm(m, reading)
  }

  /** `totalEstoque` */
  function TotalEstoque(ctx: ContextValue, reading: Reading): Value {
    SumBy(SafeMateriais(ctx, reading), StockTerms(reading))
  }

  /** `(parseFloat(o.metragem) || 0)`, one term of `totalMetragem`. */
  function AreaTerm(o: Record): Value {
    Or(ParseFloatOf(Get(o, "metragem")), Num(0.0))
  }

  /** `totalMetragem` */
  function TotalMetragem(ctx: ContextValue): Value {
    SumBy(SafeObras(ctx), o => AreaTerm(o))
  }

  /** `item.estoque_atual <= item.estoque_minimo` */
  function AlertTest(reading: Reading): Record -> bool {
    m => LessEq(Get(m, StockKey(reading)), Get(m, "estoque_minimo"))
  }

  /** `alertsCount` */
  function AlertsCount(ctx: ContextValue, reading: Reading): nat {
    |Filter(SafeMateriais(ctx, reading), AlertTest(reading))|
  }

  // ---------------------------------------------------------------- reference sums

  /** The number a value contributes once `|| 0` has replaced a falsy one. */
  function Amount(v: Value): real {
    if v.Num? then v.n else 0.0
  }

  /** A number, or a falsy value that `|| 0` turns into 0. */
  predicate NumberOrFalsy(v: Value) {
    v.Num? || !Truthy(v)
  }

  /** Unit price × stock of one material, in reals. */
  function Worth(m: Record, reading: Reading): real {
    Amount(Get(m, "valor_unitario")) * Amount(Get(m, StockKey(reading)))
  }

  /** Σ of `g` over `list`, in reals. */
  function RealSumBy(list: seq<Record>, g: Record -> real): real {
    if list == [] then 0.0 else RealSumBy(list[..|list| - 1], g) + g(list[|list| - 1])
  }

  /** The area `parseFloat` reads from a site, 0 when it reads none. */
  function AreaOf(o: Record): real {
    Amount(ParseFloatOf(Get(o, "metragem")))
  }

  /** A sum of terms that are all numbers is the sum of those numbers. */
  lemma {:induction false} SumByReal(list: seq<Record>, f: Record -> Value, g: Record -> real)
    requires forall i :: 0 <= i < |list| ==> f(list[i]) == Num(g(list[i]))
    ensures SumBy(list, f) == Num(RealSumBy(list, g))
  {
    if list != [] {
      var init := list[..|list| - 1];
      assert forall i :: 0 <= i < |init| ==> init[i] == list[i];
      SumByReal(init, f, g);
      PlusNumbers(RealSumBy(init, g), g(list[|list| - 1]));
    }
  }

  /** `v || 0` on a number or a falsy value is the number it stands for. */
  lemma OrZero(v: Value)
    requires NumberOrFalsy(v)
    ensures Or(v, Num(0.0)) == Num(Amount(v))
  {
  }

  lemma StockTermReal(m: Record, reading: Reading)
    requires NumberOrFalsy(Get(m, "valor_unitario")) && NumberOrFalsy(Get(m, StockKey(reading)))
    ensures StockTerm(m, reading) == Num(Worth(m, reading))
  {
    OrZero(Get(m, "valor_unitario"));
    OrZero(Get(m, StockKey(reading)));
  }

  /** `parseFloat(o.metragem) || 0` is always a number. */
  lemma AreaTermReal(o: Record)
    ensures AreaTerm(o) == Num(AreaOf(o))
  {
    var p := ParseFloatOf(Get(o, "metragem"));
    assert p.Num? || p.NaN?;
    OrZero(p);
  }

  /** With prices and stocks that are numbers or missing, `totalEstoque` is
      the sum of price × stock, a missing field counting as 0. */
  lemma StockSumReal(list: seq<Record>, reading: Reading)
    requires forall i :: 0 <= i < |list| ==>
               NumberOrFalsy(Get(list[i], "valor_unitario")) && NumberOrFalsy(Get(list[i], StockKey(reading)))
    ensures SumBy(list, StockTerms(reading)) == Num(RealSumBy(list, m => Worth(m, reading)))
  {
    forall i | 0 <= i < |list|
      ensures StockTerms(reading)(list[i]) == Num(Worth(list[i], reading))
    {
      StockTermReal(list[i], reading);
    }
    SumByReal(list, StockTerms(reading), m => Worth(m, reading));
  }

  /** `totalMetragem` is always a number: the sum of the areas `parseFloat`
      reads, a site without one counting as 0. */
  lemma AreaSumReal(list: seq<Record>)
    ensures SumBy(list, o => AreaTerm(o)) == Num(RealSumBy(list, AreaOf))
  {
    forall i | 0 <= i < |list|
      ensures AreaTerm(list[i]) == Num(AreaOf(list[i]))
    {
      AreaTermReal(list[i]);
    }
    SumByReal(list, o => AreaTerm(o), AreaOf);
  }

  /** Missing lists count as empty; `totalMovMes` counts every movement. */
  lemma ListsDefault(ctx: ContextValue, reading: Reading)
    ensures TotalMateriais(ctx, reading) == if reading == AsWritten then 0 else |ctx.materials|
    ensures TotalMovMes(ctx) == |ctx.movimentacoes|
    ensures TotalMetragem(ctx) == Num(RealSumBy(ctx.obras, AreaOf))
  {
    AreaSumReal(ctx.obras);
  }

  /** As written, the dashboard reads `materiais`, which the context does
      not have: the material count, the stock value and the alert count are
      all 0 whatever is stored. */
  lemma AsWrittenStatsZero(ctx: ContextValue)
    ensures TotalMateriais(ctx, AsWritten) == 0
    ensures TotalEstoque(ctx, AsWritten) == Num(0.0)
    ensures AlertsCount(ctx, AsWritten) == 0
  {
  }

  /** Even on the stored list, the as-written alert test finds nothing:
      stored materials have no `estoque_atual`, and `undefined <= x` is
      false. */
  lemma AsWrittenNoAlerts(list: seq<Record>)
    requires forall i :: 0 <= i < |list| ==> "estoque_atual" !in list[i]
    ensures Filter(list, AlertTest(AsWritten)) == []
  {
    forall i | 0 <= i < |list|
      ensures !AlertTest(AsWritten)(list[i])
    {
      assert Get(list[i], "estoque_atual") == Undefined;
      LessEqUndefined(Get(list[i], "estoque_minimo"));
    }
    FilterNone(list, AlertTest(AsWritten));
  }

  /** With the store's names, the cards count the stored materials, value
      the stock by `quantidade`, and the alert count is the size of the
      low-stock list of the materials screen. */
  lemma IntendedStats(ctx: ContextValue)
    ensures TotalMateriais(ctx, Intended) == |ctx.materials|
    ensures AlertsCount(ctx, Intended) == |FilteredMaterials(ctx.materials, "low", "")|
    ensures AlertsCount(ctx, Intended) == Count(ctx.materials, m => LowStock(m))
    ensures (forall i :: 0 <= i < |ctx.materials| ==>
               NumberOrFalsy(Get(ctx.materials[i], "valor_unitario"))
               && NumberOrFalsy(Get(ctx.materials[i], "quantidade")))
            ==> TotalEstoque(ctx, Intended) == Num(RealSumBy(ctx.materials, m => Worth(m, Intended)))
  {
    var list := ctx.materials;
    FilterSame(list, AlertTest(Intended), StockTest("low"));
    FilterSame(list, AlertTest(Intended), m => LowStock(m));
    FilterLength(list, m => LowStock(m));
    if forall i :: 0 <= i < |list| ==>
         NumberOrFalsy(Get(list[i], "valor_unitario")) && NumberOrFalsy(Get(list[i], "quantidade")) {
      StockSumReal(list, Intended);
    }
  }

  // ---------------------------------------------------------------- value per site

  /** One property of `mapa`. A JavaScript object keeps non-numeric string
      keys, such as the app's site ids, in insertion order (keys that read as
      array indices would come first, in ascending order), so the object is
      the list of its entries. */
  datatype Entry = Entry(site: Value, total: Value)

  /** The first entry at or after `from` whose key is `k`, or `|es|`. */
  function SiteIndex(es: seq<Entry>, k: Value, from: nat): (i: nat)
    requires from <= |es|
    ensures from <= i <= |es|
    ensures i < |es| ==> es[i].site == k
    ensures forall j :: from <= j < i ==> es[j].site != k
    decreases |es| - from
  {
    if from == |es| then |es| else if es[from].site == k then from else SiteIndex(es, k, from + 1)
  }

  /** Where key `k` is in `es`, `|es|` when it is not a key. */
  function Find(es: seq<Entry>, k: Value): (i: nat)
    ensures i <= |es|
    ensures i < |es| ==> es[i].site == k
    ensures forall j :: 0 <= j < i ==> es[j].site != k
  {
    SiteIndex(es, k, 0)
  }

  /** `mapa[k]` */
  function Lookup(es: seq<Entry>, k: Value): Value {
    var i := Find(es, k);
    if i < |es| then es[i].total else Undefined
  }

  /** `mapa[k] = v`: a key keeps its place, a new key goes last. */
  function Assign(es: seq<Entry>, k: Value, v: Value): seq<Entry> {
    var i := Find(es, k);
    if i < |es| then es[i := Entry(k, v)] else es + [Entry(k, v)]
  }

  /** One pass of the `forEach` body. */
  function Step(es: seq<Entry>, mov: Record, key: string, value: Record -> Value): seq<Entry> {
    var site := Get(mov, key);
    if !Truthy(site) then es
    else
      var valor := value(mov);
      var started := if !Truthy(Lookup(es, site)) then Assign(es, site, Num(0.0)) else es;
      Assign(started, site, Plus(Lookup(started, site), valor))
  }

  /** `mapa` after the movements `movs`, in order. */
  function PerSite(movs: seq<Record>, key: string, value: Record -> Value): seq<Entry> {
    if movs == [] then [] else Step(PerSite(movs[..|movs| - 1], key, value), movs[|movs| - 1], key, value)
  }

  /** The movement values as a function. */
  function MovValues(reading: Reading): Record -> Value {
    mov => MovValue(mov, reading)
  }

  /** The `forEach` callback of `valoresPorObra`: adds one movement to `mapa`. */
  method AddMovement(mapa: seq<Entry>, mov: Record, reading: Reading) returns (next: seq<Entry>)
    ensures next == Step(mapa, mov, SiteKey(reading), MovValues(reading))
  {
    next := mapa;
    var site := Get(mov, SiteKey(reading));
    if Truthy(site) {
      var valor := MovValue(mov, reading);
      if !Truthy(Lookup(next, site)) {
        next := Assign(next, site, Num(0.0));
      }
      next := Assign(next, site, Plus(Lookup(next, site), valor));
    }
  }

  /** `valoresPorObra`: fills `mapa` one movement at a time. */
  method ValoresPorObra(movs: seq<Record>, reading: Reading) returns (mapa: seq<Entry>)
    ensures mapa == PerSite(movs, SiteKey(reading), MovValues(reading))
  {
    mapa := [];
    for i := 0 to |movs|
      invariant mapa == PerSite(movs[..i], SiteKey(reading), MovValues(reading))
    {
      mapa := AddMovement(mapa, movs[i], reading);
      assert movs[..i + 1] == movs[..i] + [movs[i]];
      PerSiteSnoc(movs[..i], movs[i], SiteKey(reading), MovValues(reading));
    }
    assert movs[..|movs|] == movs;
  }

  /** `Object.values(mapa).reduce((a, b) => a + b, 0)` */
  function GrandTotal(es: seq<Entry>): Value {
    if es == [] then Num(0.0) else Plus(GrandTotal(es[..|es| - 1]), es[|es| - 1].total)
  }

  // ---------------------------------------------------------------- the dictionary

  /** `Find` is the first position holding the key. */
  lemma FindIs(es: seq<Entry>, k: Value, i: nat)
    requires i <= |es| && (i < |es| ==> es[i].site == k)
    requires forall j :: 0 <= j < i ==> es[j].site != k
    ensures Find(es, k) == i
  {
  }

  /** Reading a key just written gives the written value. */
  lemma LookupAssignSame(es: seq<Entry>, k: Value, v: Value)
    ensures Lookup(Assign(es, k, v), k) == v
  {
    var i := Find(es, k);
    if i < |es| {
      FindIs(es[i := Entry(k, v)], k, i);
    } else {
      FindIs(es + [Entry(k, v)], k, |es|);
    }
  }

  /** Writing one key leaves every other key as it was. */
  lemma LookupAssignOther(es: seq<Entry>, k: Value, v: Value, other: Value)
    requires other != k
    ensures Lookup(Assign(es, k, v), other) == Lookup(es, other)
    ensures (Find(Assign(es, k, v), other) < |Assign(es, k, v)|) == (Find(es, other) < |es|)
  {
    var i := Find(es, k);
    var j := Find(es, other);
    var es' := Assign(es, k, v);
    if i < |es| {
      assert forall m :: 0 <= m < |es| ==> es'[m].site == es[m].site;
      FindIs(es', other, j);
    } else if j < |es| {
      FindIs(es', other, j);
    } else {
      FindIs(es', other, |es'|);
    }
  }

  /** A new key is a key afterwards. */
  lemma AssignFinds(es: seq<Entry>, k: Value, v: Value)
    ensures Find(Assign(es, k, v), k) < |Assign(es, k, v)|
  {
    var i := Find(es, k);
    if i < |es| {
      FindIs(es[i := Entry(k, v)], k, i);
    } else {
      FindIs(es + [Entry(k, v)], k, |es|);
    }
  }

  // ---------------------------------------------------------------- what `valoresPorObra` holds

  /** The test "has a site". */
  function Sited(key: string): Record -> bool {
    m => Truthy(Get(m, key))
  }

  /** Some movement in `movs` names site `k`. */
  predicate Occurs(movs: seq<Record>, k: Value, key: string) {
    exists i :: 0 <= i < |movs| && Get(movs[i], key) == k
  }

  lemma OccursSnoc(movs: seq<Record>, k: Value, key: string)
    requires movs != []
    ensures Occurs(movs, k, key) <==>
              Occurs(movs[..|movs| - 1], k, key) || Get(movs[|movs| - 1], key) == k
  {
    var init := movs[..|movs| - 1];
    if Occurs(movs, k, key) && Get(movs[|movs| - 1], key) != k {
      var i :| 0 <= i < |movs| && Get(movs[i], key) == k;
      assert init[i] == movs[i];
    }
    if Occurs(init, k, key) {
      var i :| 0 <= i < |init| && Get(init[i], key) == k;
      assert movs[i] == init[i];
    }
  }

  /** The keys of `valoresPorObra` are exactly the truthy sites the
      movements name: a movement without a site adds no key. */
  lemma {:induction false} PerSiteKeys(movs: seq<Record>, key: string, value: Record -> Value, k: Value)
    ensures Find(PerSite(movs, key, value), k) < |PerSite(movs, key, value)| <==> Truthy(k) && Occurs(movs, k, key)
  {
    if movs != [] {
      var init := movs[..|movs| - 1];
      var mov := movs[|movs| - 1];
      var es := PerSite(init, key, value);
      PerSiteKeys(init, key, value, k);
      OccursSnoc(movs, k, key);
      var site := Get(mov, key);
      if Truthy(site) {
        var started := if !Truthy(Lookup(es, site)) then Assign(es, site, Num(0.0)) else es;
        var v := Plus(Lookup(started, site), value(mov));
        if k == site {
          AssignFinds(started, site, v);
        } else {
          if !Truthy(Lookup(es, site)) {
            LookupAssignOther(es, site, Num(0.0), k);
          }
          LookupAssignOther(started, site, v, k);
        }
      }
    }
  }

  /** Movements without a site change nothing: the result is the one the
      sited movements alone give. */
  lemma {:induction false} PerSiteIgnoresUnsited(movs: seq<Record>, key: string, value: Record -> Value)
    ensures PerSite(movs, key, value) == PerSite(Filter(movs, Sited(key)), key, value)
  {
    if movs != [] {
      PerSiteIgnoresUnsited(movs[..|movs| - 1], key, value);
      IgnoresUnsitedStep(movs, key, value);
    }
  }

  /** The step of `PerSiteIgnoresUnsited`: one more movement at the end. */
  lemma IgnoresUnsitedStep(movs: seq<Record>, key: string, value: Record -> Value)
    requires movs != []
    requires PerSite(movs[..|movs| - 1], key, value)
               == PerSite(Filter(movs[..|movs| - 1], Sited(key)), key, value)
    ensures PerSite(movs, key, value) == PerSite(Filter(movs, Sited(key)), key, value)
  {
    FilterLast(movs, Sited(key));
    if Truthy(Get(movs[|movs| - 1], key)) {
      SitedStep(movs, key, value);
    } else {
      UnsitedStep(movs, key, value);
    }
  }

  /** A last movement with a site is added on both sides. */
  lemma SitedStep(movs: seq<Record>, key: string, value: Record -> Value)
    requires movs != [] && Truthy(Get(movs[|movs| - 1], key))
    requires PerSite(movs[..|movs| - 1], key, value)
               == PerSite(Filter(movs[..|movs| - 1], Sited(key)), key, value)
    requires Filter(movs, Sited(key)) == Filter(movs[..|movs| - 1], Sited(key)) + [movs[|movs| - 1]]
    ensures PerSite(movs, key, value) == PerSite(Filter(movs, Sited(key)), key, value)
  {
    PerSiteSnoc(Filter(movs[..|movs| - 1], Sited(key)), movs[|movs| - 1], key, value);
  }

  /** A last movement without a site is skipped on both sides. */
  lemma UnsitedStep(movs: seq<Record>, key: string, value: Record -> Value)
    requires movs != [] && !Truthy(Get(movs[|movs| - 1], key))
    requires PerSite(movs[..|movs| - 1], key, value)
               == PerSite(Filter(movs[..|movs| - 1], Sited(key)), key, value)
    requires Filter(movs, Sited(key)) == Filter(movs[..|movs| - 1], Sited(key)) + []
    ensures PerSite(movs, key, value) == PerSite(Filter(movs, Sited(key)), key, value)
  {
    StepUnsited(PerSite(movs[..|movs| - 1], key, value), movs[|movs| - 1], key, value);
    assert Filter(movs[..|movs| - 1], Sited(key)) + [] == Filter(movs[..|movs| - 1], Sited(key));
  }

  /** A movement without a site leaves the dictionary as it is. */
  lemma StepUnsited(es: seq<Entry>, mov: Record, key: string, value: Record -> Value)
    requires !Truthy(Get(mov, key))
    ensures Step(es, mov, key, value) == es
  {
  }

  lemma PerSiteSnoc(movs: seq<Record>, mov: Record, key: string, value: Record -> Value)
    ensures PerSite(movs + [mov], key, value) == Step(PerSite(movs, key, value), mov, key, value)
  {
    assert (movs + [mov])[..|movs|] == movs;
  }

  /** Every movement has a numeric value. */
  predicate Priced(movs: seq<Record>, value: Record -> Value) {
    forall i :: 0 <= i < |movs| ==> value(movs[i]).Num?
  }

  /** Σ of the values of the movements naming site `k`. */
  function SiteSum(movs: seq<Record>, k: Value, key: string, value: Record -> Value): real {
    if movs == [] then 0.0
    else
      var mov := movs[|movs| - 1];
      SiteSum(movs[..|movs| - 1], k, key, value)
        + (if Get(mov, key) == k then Amount(value(mov)) else 0.0)
  }

  /** Σ of the values of the movements that have a site. */
  function SitedSum(movs: seq<Record>, key: string, value: Record -> Value): real {
    if movs == [] then 0.0
    else
      var mov := movs[|movs| - 1];
      SitedSum(movs[..|movs| - 1], key, value)
        + (if Truthy(Get(mov, key)) then Amount(value(mov)) else 0.0)
  }

  lemma {:induction false} SiteSumAbsent(movs: seq<Record>, k: Value, key: string, value: Record -> Value)
    requires !Occurs(movs, k, key)
    ensures SiteSum(movs, k, key, value) == 0.0
  {
    if movs != [] {
      OccursSnoc(movs, k, key);
      SiteSumAbsent(movs[..|movs| - 1], k, key, value);
    }
  }

  /** One movement adds its value to its own site's entry, starting from 0
      when the entry is missing or falsy, and leaves every other entry. */
  lemma StepLookup(es: seq<Entry>, mov: Record, key: string, value: Record -> Value, k: Value)
    requires Truthy(k) && value(mov).Num?
    requires Lookup(es, k).Num? || Lookup(es, k).Undefined?
    ensures Get(mov, key) != k ==> Lookup(Step(es, mov, key, value), k) == Lookup(es, k)
    ensures Get(mov, key) == k ==>
              Lookup(Step(es, mov, key, value), k) == Num(Amount(Lookup(es, k)) + value(mov).n)
  {
    var site := Get(mov, key);
    if Truthy(site) {
      var started := if !Truthy(Lookup(es, site)) then Assign(es, site, Num(0.0)) else es;
      var v := Plus(Lookup(started, site), value(mov));
      if k == site {
        if !Truthy(Lookup(es, site)) {
          LookupAssignSame(es, site, Num(0.0));
        }
        assert Lookup(started, site) == Num(Amount(Lookup(es, k)));
        LookupAssignSame(started, site, v);
        PlusNumbers(Amount(Lookup(es, k)), value(mov).n);
      } else {
        if !Truthy(Lookup(es, site)) {
          LookupAssignOther(es, site, Num(0.0), k);
        }
        LookupAssignOther(started, site, v, k);
      }
    }
  }

  /** With priced movements, `valoresPorObra[k]` is the sum of the values of
      the movements naming site `k`, and `undefined` for a site none names. */
  lemma {:induction false} PerSiteValues(movs: seq<Record>, key: string, value: Record -> Value, k: Value)
    requires Priced(movs, value) && Truthy(k)
    ensures Lookup(PerSite(movs, key, value), k)
         == if Occurs(movs, k, key) then Num(SiteSum(movs, k, key, value)) else Undefined
  {
    if movs != [] {
      var init := movs[..|movs| - 1];
      assert forall i :: 0 <= i < |init| ==> init[i] == movs[i];
      PerSiteValues(init, key, value, k);
      assert movs == init + [movs[|movs| - 1]];
      PerSiteValuesStep(init, movs[|movs| - 1], key, value, k);
    }
  }

  /** The step of `PerSiteValues`: one more movement at the end. */
  lemma PerSiteValuesStep(init: seq<Record>, mov: Record, key: string, value: Record -> Value, k: Value)
    requires Priced(init, value) && value(mov).Num? && Truthy(k)
    requires Lookup(PerSite(init, key, value), k)
          == if Occurs(init, k, key) then Num(SiteSum(init, k, key, value)) else Undefined
    ensures Lookup(PerSite(init + [mov], key, value), k)
         == if Occurs(init + [mov], k, key) then Num(SiteSum(init + [mov], k, key, value)) else Undefined
  {
    var movs := init + [mov];
    assert movs[..|init|] == init && movs[|init|] == mov;
    PerSiteSnoc(init, mov, key, value);
    OccursSnoc(movs, k, key);
    StepLookup(PerSite(init, key, value), mov, key, value, k);
    if !Occurs(init, k, key) {
      SiteSumAbsent(init, k, key, value);
    }
  }

  /** The valued entries, as reals. */
  function EntrySum(es: seq<Entry>): real {
    if es == [] then 0.0 else EntrySum(es[..|es| - 1]) + Amount(es[|es| - 1].total)
  }

  predicate AllNumbers(es: seq<Entry>) {
    forall i :: 0 <= i < |es| ==> es[i].total.Num?
  }

  /** Adding up numeric entries gives their sum. */
  lemma {:induction false} GrandTotalSum(es: seq<Entry>)
    requires AllNumbers(es)
    ensures GrandTotal(es) == Num(EntrySum(es))
  {
    if es != [] {
      GrandTotalSum(es[..|es| - 1]);
    }
  }

  lemma {:induction false} EntrySumUpdate(es: seq<Entry>, i: nat, e: Entry)
    requires i < |es|
    ensures EntrySum(es[i := e]) == EntrySum(es) - Amount(es[i].total) + Amount(e.total)
    decreases |es|
  {
    var n := |es| - 1;
    if i < n {
      assert es[i := e][..n] == es[..n][i := e];
      EntrySumUpdate(es[..n], i, e);
    } else {
      assert es[i := e][..n] == es[..n];
    }
  }

  /** Writing a number under a key replaces that key's share of the sum. */
  lemma EntrySumAssign(es: seq<Entry>, k: Value, v: Value)
    requires AllNumbers(es) && v.Num?
    ensures AllNumbers(Assign(es, k, v))
    ensures EntrySum(Assign(es, k, v)) == EntrySum(es) - Amount(Lookup(es, k)) + v.n
  {
    var i := Find(es, k);
    if i < |es| {
      EntrySumUpdate(es, i, Entry(k, v));
    } else {
      assert (es + [Entry(k, v)])[..|es|] == es;
    }
  }

  /** With priced movements, every entry of `valoresPorObra` is a number
      and they add up to the values of the movements that have a site. */
  lemma {:induction false} PerSiteSum(movs: seq<Record>, key: string, value: Record -> Value)
    requires Priced(movs, value)
    ensures AllNumbers(PerSite(movs, key, value))
    ensures EntrySum(PerSite(movs, key, value)) == SitedSum(movs, key, value)
  {
    if movs != [] {
      var init := movs[..|movs| - 1];
      var mov := movs[|movs| - 1];
      var es := PerSite(init, key, value);
      assert Priced(init, value) by {
        forall i | 0 <= i < |init| ensures value(init[i]).Num? {
          assert init[i] == movs[i];
        }
      }
      PerSiteSum(init, key, value);
      var site := Get(mov, key);
      if Truthy(site) {
        var started := if !Truthy(Lookup(es, site)) then Assign(es, site, Num(0.0)) else es;
        if !Truthy(Lookup(es, site)) {
          EntrySumAssign(es, site, Num(0.0));
          LookupAssignSame(es, site, Num(0.0));
        }
        assert AllNumbers(started) && EntrySum(started) == EntrySum(es);
        assert Lookup(started, site).Num?;
        var v := Plus(Lookup(started, site), value(mov));
        EntrySumAssign(started, site, v);
      }
    }
  }

  /** The grand total is the sum of the values of every movement that has a
      site. */
  lemma GrandTotalIsSitedSum(movs: seq<Record>, key: string, value: Record -> Value)
    requires Priced(movs, value)
    ensures GrandTotal(PerSite(movs, key, value)) == Num(SitedSum(movs, key, value))
  {
    PerSiteSum(movs, key, value);
    GrandTotalSum(PerSite(movs, key, value));
  }

  /** As written, the site is read from `obraId`, which stored movements do
      not have: the dictionary stays empty and the grand total is 0. */
  lemma AsWrittenNoSites(movs: seq<Record>)
    requires forall i :: 0 <= i < |movs| ==> "obraId" !in movs[i]
    ensures PerSite(movs, SiteKey(AsWritten), MovValues(AsWritten)) == []
    ensures GrandTotal(PerSite(movs, SiteKey(AsWritten), MovValues(AsWritten))) == Num(0.0)
  {
    NoSitesNoEntries(movs, SiteKey(AsWritten), MovValues(AsWritten));
  }

  /** Movements that lack the site property leave the dictionary empty. */
  lemma {:induction false} NoSitesNoEntries(movs: seq<Record>, key: string, value: Record -> Value)
    requires forall i :: 0 <= i < |movs| ==> key !in movs[i]
    ensures PerSite(movs, key, value) == []
  {
    if movs != [] {
      var init := movs[..|movs| - 1];
      assert forall i :: 0 <= i < |init| ==> init[i] == movs[i];
      NoSitesNoEntries(init, key, value);
      assert Get(movs[|movs| - 1], key) == Undefined;
    }
  }
}
