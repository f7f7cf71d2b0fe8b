/** The work-site list of `src/screens/Obras.js`: two tabs filtering by
    status, their counters, and the archive / reactivate actions. */
module Obras {
  import opened Optional
  import opened JsValue
  import opened Seqs
  import opened DataService

  /** `obra.status === s` */
  predicate HasStatus(o: Record, s: string) {
    Get(o, "status") == Str(s)
  }

  /** Whether tab `tab` lists obra `o`. */
  predicate TabShows(tab: string, o: Record) {
    if tab == "ativas" then HasStatus(o, "ativa")
    else if tab == "arquivadas" then HasStatus(o, "arquivada")
    else true
  }

  /** `filteredObras`: the obras the current tab lists, in store order. */
  function FilteredObras(obras: seq<Record>, tab: string): (r: seq<Record>)
    ensures Subsequence(r, obras)
    ensures forall i :: 0 <= i < |r| ==> r[i] in obras && TabShows(tab, r[i])
    ensures forall i :: 0 <= i < |obras| && TabShows(tab, obras[i]) ==> obras[i] in r
    ensures tab == "ativas" ==> forall i :: 0 <= i < |r| ==> HasStatus(r[i], "ativa")
    ensures tab == "arquivadas" ==> forall i :: 0 <= i < |r| ==> HasStatus(r[i], "arquivada")
    ensures tab != "ativas" && tab != "arquivadas" ==> r == obras
  {
    FilterIsSubsequence(obras, Shows(tab));
    AllTabShowsAll(obras, tab);
    Filter(obras, Shows(tab))
  }

  function Shows(tab: string): Record -> bool {
    o => TabShows(tab, o)
  }

  lemma AllTabShowsAll(obras: seq<Record>, tab: string)
    ensures tab != "ativas" && tab != "arquivadas" ==> Filter(obras, Shows(tab)) == obras
  {
    if tab != "ativas" && tab != "arquivadas" {
      FilterAll(obras, Shows(tab));
    }
  }

  /** The counter on a tab button: `obras.filter(o => o.status === s).length`. */
  function TabCount(obras: seq<Record>, status: string): (n: nat)
    ensures n == Count(obras, o => HasStatus(o, status))
    ensures n <= |obras|
  {
    var has := (o: Record) => HasStatus(o, status);
    FilterLength(obras, has);
    |Filter(obras, has)|
  }

  /** Each counter is the length of the list its tab shows. */
  lemma CountsMatchTabs(obras: seq<Record>)
    ensures TabCount(obras, "ativa") == |FilteredObras(obras, "ativas")|
    ensures TabCount(obras, "arquivada") == |FilteredObras(obras, "arquivadas")|
  {
    FilterLength(obras, Shows("ativas"));
    FilterLength(obras, Shows("arquivadas"));
    CountSame(obras, Shows("ativas"), o => HasStatus(o, "ativa"));
    CountSame(obras, Shows("arquivadas"), o => HasStatus(o, "arquivada"));
  }

  lemma {:induction false} CountSame<T>(s: seq<T>, p: T -> bool, q: T -> bool)
    requires forall i :: 0 <= i < |s| ==> p(s[i]) == q(s[i])
    ensures Count(s, p) == Count(s, q)
  {
    if s != [] {
      CountSame(s[1..], p, q);
    }
  }

  /** The two counters and the obras with any other status add up to the
      whole list: an obra with another status is counted in neither. */
  lemma {:induction false} CountsPartition(obras: seq<Record>)
    ensures TabCount(obras, "ativa") + TabCount(obras, "arquivada")
          + Count(obras, o => !HasStatus(o, "ativa") && !HasStatus(o, "arquivada")) == |obras|
  {
    if obras != [] {
      CountsPartition(obras[1..]);
    }
  }

  /** After `updateObra(id, {status: s})` every obra with that id has status
      `s`, and the others keep theirs. */
  lemma SetStatus(obras: seq<Record>, id: Value, s: string, i: nat)
    requires i < |obras|
    ensures var u := Updated(obras, id, map["status" := Str(s)]);
            (HasId(obras[i], id) ==> HasStatus(u[i], s))
            && (!HasId(obras[i], id) ==> u[i] == obras[i])
  {
  }

  /** Archiving moves the obra from the active tab to the archived tab. */
  lemma ArchivedMovesTab(obras: seq<Record>, id: Value, i: nat)
    requires i < |obras| && HasId(obras[i], id)
    ensures var u := Updated(obras, id, map["status" := Str("arquivada")]);
            u[i] in FilteredObras(u, "arquivadas") && !TabShows("ativas", u[i])
  {
    var u := Updated(obras, id, map["status" := Str("arquivada")]);
    assert TabShows("arquivadas", u[i]);
  }

  /** Reactivating brings it back under the active tab. */
  lemma UnarchivedMovesTab(obras: seq<Record>, id: Value, i: nat)
    requires i < |obras| && HasId(obras[i], id)
    ensures var u := Updated(obras, id, map["status" := Str("ativa")]);
            u[i] in FilteredObras(u, "ativas") && !TabShows("arquivadas", u[i])
  {
    var u := Updated(obras, id, map["status" := Str("ativa")]);
    assert TabShows("ativas", u[i]);
  }

  /** The screen's own state: the selected tab and the obra waiting for the
      archive confirmation (`null` is None). */
  class ObrasScreen {
    const store: DataStore
    var tab: string
    var obraToArchive: Option<Record>

    constructor(store: DataStore)
      ensures this.store == store && tab == "ativas" && obraToArchive == None
    {
      this.store := store;
      tab := "ativas";
      obraToArchive := None;
    }

    /** What the list shows. */
    function Shown(): seq<Record>
      reads this, store
    {
      FilteredObras(store.obras, tab)
    }

    method SetTab(t: string)
      modifies this
      ensures tab == t && obraToArchive == old(obraToArchive)
    {
      tab := t;
    }

    /** The archive button opens the confirmation for `obra`. */
    method HandleArchive(obra: Record)
      modifies this
      ensures obraToArchive == Some(obra) && tab == old(tab)
    {
      obraToArchive := Some(obra);
    }

    /** Confirming archives the pending obra and clears the slot; with none
        pending nothing happens. */
    method ConfirmArchive()
      modifies this, store
      ensures old(obraToArchive).Some? ==>
                (store.obras == Updated(old(store.obras), Get(old(obraToArchive).value, "id"), map["status" := Str("arquivada")])
                 && store.storedObras == Saved(store.obras)
                 && obraToArchive == None)
      ensures old(obraToArchive).None? ==>
                (store.obras == old(store.obras) && store.storedObras == old(store.storedObras)
                 && obraToArchive == None)
      ensures store.materials == old(store.materials) && store.movimentacoes == old(store.movimentacoes)
      ensures store.storedMaterials == old(store.storedMaterials) && store.storedMovimentacoes == old(store.storedMovimentacoes)
      ensures store.isLoading == old(store.isLoading)
      ensures tab == old(tab)
    {
      if obraToArchive.Some? {
        store.UpdateObra(Get(obraToArchive.value, "id"), map["status" := Str("arquivada")]);
        obraToArchive := None;
      }
    }

    /** The reactivate dialog: pressing "Reativar" sets the status back to
        "ativa"; "Cancelar" does nothing. */
    method HandleUnarchive(obra: Record, reactivate: bool)
      modifies store
      ensures reactivate ==> (store.obras == Updated(old(store.obras), Get(obra, "id"), map["status" := Str("ativa")])
                              && store.storedObras == Saved(store.obras))
      ensures !reactivate ==> store.obras == old(store.obras) && store.storedObras == old(store.storedObras)
      ensures store.materials == old(store.materials) && store.movimentacoes == old(store.movimentacoes)
      ensures store.storedMaterials == old(store.storedMaterials) && store.storedMovimentacoes == old(store.storedMovimentacoes)
      ensures store.isLoading == old(store.isLoading)
    {
      if reactivate {
        store.UpdateObra(Get(obra, "id"), map["status" := Str("ativa")]);
      }
    }
  }
}
