/** The material list of `src/screens/Materiais.js`: an all / low-stock
    filter followed by a text search on name and place of purchase. */
module Materiais {
  import opened JsText
  import opened JsValue
  import opened Seqs

  /** `m.quantidade <= m.estoque_minimo`, the low-stock test. */
  predicate LowStock(m: Record) {
    LessEq(Get(m, "quantidade"), Get(m, "estoque_minimo"))
  }

  /** Whether the stock filter `filterStock` lets `m` through. */
  predicate StockShows(filterStock: string, m: Record) {
    filterStock == "low" ==> LowStock(m)
  }

  /** The search test on the lowercased term. */
  predicate SearchHit(m: Record, lower: string) {
    FieldHas(Get(m, "nome"), lower) || FieldHas(Get(m, "local_compra"), lower)
  }

  /** Whether `m` is listed under both the stock filter and the search. */
  predicate Listed(filterStock: string, searchTerm: string, m: Record) {
    StockShows(filterStock, m) && (searchTerm != "" ==> SearchHit(m, Lower(searchTerm)))
  }

  function StockTest(filterStock: string): Record -> bool {
    m => StockShows(filterStock, m)
  }

  function SearchTest(searchTerm: string): Record -> bool {
    m => SearchHit(m, Lower(searchTerm))
  }

  function ListedTest(filterStock: string, searchTerm: string): Record -> bool {
    m => Listed(filterStock, searchTerm, m)
  }

  /** `filteredMaterials`. An empty term skips the text filter. */
  function FilteredMaterials(materials: seq<Record>, filterStock: string, searchTerm: string): (r: seq<Record>)
  {
    var stocked := Filter(materials, StockTest(filterStock));
    if searchTerm != "" then Filter(stocked, SearchTest(searchTerm)) else stocked
  }

  /** The two chained filters are one filter by the conjunction, so the result
      keeps the store order and holds exactly the materials passing both. */
  lemma FilteredIsConjunction(materials: seq<Record>, filterStock: string, searchTerm: string)
    ensures FilteredMaterials(materials, filterStock, searchTerm)
         == Filter(materials, ListedTest(filterStock, searchTerm))
    ensures Subsequence(FilteredMaterials(materials, filterStock, searchTerm), materials)
  {
    var conj := ListedTest(filterStock, searchTerm);
    if searchTerm != "" {
      FilterFilter(materials, StockTest(filterStock), SearchTest(searchTerm));
      FilterSame(materials, Both(StockTest(filterStock), SearchTest(searchTerm)), conj);
    } else {
      FilterSame(materials, StockTest(filterStock), conj);
    }
    FilterIsSubsequence(materials, conj);
  }

  /** A material is listed exactly when it passes both tests. */
  lemma ListedIff(materials: seq<Record>, filterStock: string, searchTerm: string, i: nat)
    requires i < |materials|
    ensures Listed(filterStock, searchTerm, materials[i])
        <==> materials[i] in FilteredMaterials(materials, filterStock, searchTerm)
  {
    FilteredIsConjunction(materials, filterStock, searchTerm);
    var r := FilteredMaterials(materials, filterStock, searchTerm);
    if materials[i] in r {
      var j :| 0 <= j < |r| && r[j] == materials[i];
    }
  }

  /** The "all" filter with an empty term lists every material. */
  lemma AllWithoutSearch(materials: seq<Record>, filterStock: string)
    requires filterStock != "low"
    ensures FilteredMaterials(materials, filterStock, "") == materials
  {
    FilterAll(materials, StockTest(filterStock));
  }

  /** With an empty term the "low" filter lists exactly the materials whose
      quantity is at most their minimum, in store order. */
  lemma LowWithoutSearch(materials: seq<Record>)
    ensures FilteredMaterials(materials, "low", "") == Filter(materials, LowStock)
  {
    FilterSame(materials, StockTest("low"), LowStock);
  }

  /** The search ignores the case of the term: two terms that lowercase to
      the same text list the same materials, in the same order. */
  lemma SearchIgnoresCase(materials: seq<Record>, filterStock: string, a: string, b: string)
    requires Lower(a) == Lower(b)
    ensures FilteredMaterials(materials, filterStock, a) == FilteredMaterials(materials, filterStock, b)
  {
    assert |a| == |b|;
    var stocked := Filter(materials, StockTest(filterStock));
    FilterSame(stocked, SearchTest(a), SearchTest(b));
  }

  /** Lowercasing the term a second time changes nothing. */
  lemma LowerIdempotent(s: string)
    ensures Lower(Lower(s)) == Lower(s)
  {
    assert forall i :: 0 <= i < |s| ==> LowerChar(LowerChar(s[i])) == LowerChar(s[i]);
  }
}
