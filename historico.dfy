/** The movement history of `src/screens/Historico.js`: a copy of the
    movements sorted newest first, then filtered by a text search, a site
    and a material. */
module Historico {
  import opened JsText
  import opened JsValue
  import opened Seqs
  import opened DataService

  /** The instant of `created_date`. */
  function Time(m: Record): int {
    if Get(m, "created_date").Iso? then Get(m, "created_date").ms else 0
  }

  /** `created_date` holds a timestamp, so `new Date(m.created_date)` is a
      valid date. */
  predicate AllDated(l: seq<Record>) {
    forall i :: 0 <= i < |l| ==> Get(l[i], "created_date").Iso?
  }

  predicate NewestFirst(l: seq<Record>) {
    forall i, j :: 0 <= i < j < |l| ==> Time(l[j]) <= Time(l[i])
  }

  /** Puts `x` before the first element that is not newer than it. */
  function Insert(x: Record, s: seq<Record>): seq<Record> {
    if s == [] || Time(s[0]) <= Time(x) then [x] + s else [s[0]] + Insert(x, s[1..])
  }

  /** `[...l].sort((a, b) => new Date(b.created_date) - new Date(a.created_date))`:
      the stable sort by instant, newest first. */
  function SortNewestFirst(l: seq<Record>): seq<Record> {
    if l == [] then [] else Insert(l[0], SortNewestFirst(l[1..]))
  }

  /** `sortedMovimentacoes`. It works on a copy: the store's list is an input
      here and keeps its order. */
  function SortedMovimentacoes(movimentacoes: seq<Record>): (r: seq<Record>)
    requires AllDated(movimentacoes)
    ensures multiset(r) == multiset(movimentacoes)
    ensures NewestFirst(r)
  {
    SortPermutes(movimentacoes);
    SortOrders(movimentacoes);
    SortNewestFirst(movimentacoes)
  }

  lemma {:induction false} InsertPermutes(x: Record, s: seq<Record>)
    ensures multiset(Insert(x, s)) == multiset{x} + multiset(s)
  {
    if s != [] && Time(s[0]) > Time(x) {
      InsertPermutes(x, s[1..]);
      assert s == [s[0]] + s[1..];
    }
  }

  /** The sort only reorders. */
  lemma {:induction false} SortPermutes(l: seq<Record>)
    ensures multiset(SortNewestFirst(l)) == multiset(l)
  {
    if l != [] {
      SortPermutes(l[1..]);
      InsertPermutes(l[0], SortNewestFirst(l[1..]));
      assert l == [l[0]] + l[1..];
    }
  }

  lemma {:induction false} InsertOrders(x: Record, s: seq<Record>)
    requires NewestFirst(s)
    ensures NewestFirst(Insert(x, s))
    ensures multiset(Insert(x, s)) == multiset{x} + multiset(s)
  {
    InsertPermutes(x, s);
    if s == [] || Time(s[0]) <= Time(x) {
      ConsNewestFirst(x, s);
    } else {
      TailNewestFirst(s);
      InsertOrders(x, s[1..]);
      var t := Insert(x, s[1..]);
      forall j | 0 <= j < |t|
        ensures Time(t[j]) <= Time(s[0])
      {
        assert t[j] in multiset(t);
        assert t[j] == x || t[j] in multiset(s[1..]);
        if t[j] != x {
          var k :| 0 <= k < |s[1..]| && s[1..][k] == t[j];
          assert s[k + 1] == t[j];
        }
      }
      ConsNewestFirst(s[0], t);
    }
  }

  /** A movement no older than the newest of a newest-first list can go in
      front of it. */
  lemma ConsNewestFirst(x: Record, f: seq<Record>)
    requires NewestFirst(f)
    requires forall j :: 0 <= j < |f| ==> Time(f[j]) <= Time(x)
    ensures NewestFirst([x] + f)
  {
    var l := [x] + f;
    forall i, j | 0 <= i < j < |l|
      ensures Time(l[j]) <= Time(l[i])
    {
      assert l[j] == f[j - 1];
      if i > 0 {
        assert l[i] == f[i - 1];
      }
    }
  }

  /** The sort puts newer movements first. */
  lemma {:induction false} SortOrders(l: seq<Record>)
    ensures NewestFirst(SortNewestFirst(l))
  {
    if l != [] {
      SortOrders(l[1..]);
      InsertOrders(l[0], SortNewestFirst(l[1..]));
    }
  }

  function At(t: int): Record -> bool {
    m => Time(m) == t
  }

  /** Inserting keeps the relative order of the movements at any one
      instant, `x` coming first among them. */
  lemma {:induction false} InsertStable(x: Record, s: seq<Record>, t: int)
    ensures Filter(Insert(x, s), At(t)) == Filter([x], At(t)) + Filter(s, At(t))
  {
    if s == [] || Time(s[0]) <= Time(x) {
      FilterConcat([x], s, At(t));
    } else {
      var rest := Insert(x, s[1..]);
      var a := Filter([s[0]], At(t));
      var b := Filter([x], At(t));
      var c := Filter(s[1..], At(t));
      assert Insert(x, s) == [s[0]] + rest;
      InsertStable(x, s[1..], t);
      FilterConcat([s[0]], rest, At(t));
      assert s == [s[0]] + s[1..];
      FilterConcat([s[0]], s[1..], At(t));
      FilterOne(s[0], At(t));
      FilterOne(x, At(t));
      SwapPastEmpty(a, b, c);
    }
  }

  /** Two pieces of which one is empty can change places. */
  lemma SwapPastEmpty(a: seq<Record>, b: seq<Record>, c: seq<Record>)
    requires a == [] || b == []
    ensures a + (b + c) == b + (a + c)
  {
  }

  lemma TailNewestFirst(s: seq<Record>)
    requires s != [] && NewestFirst(s)
    ensures NewestFirst(s[1..])
  {
    forall i, j | 0 <= i < j < |s[1..]| ensures Time(s[1..][j]) <= Time(s[1..][i]) {
      assert s[1..][i] == s[i + 1] && s[1..][j] == s[j + 1];
    }
  }

  /** The sort is stable: movements with the same instant keep their
      relative order. Together with the two facts above, this makes the
      result the one list `Array.prototype.sort` produces. */
  lemma {:induction false} SortStable(l: seq<Record>, t: int)
    ensures Filter(SortNewestFirst(l), At(t)) == Filter(l, At(t))
  {
    if l != [] {
      SortStable(l[1..], t);
      InsertStable(l[0], SortNewestFirst(l[1..]), t);
    }
  }

  /** Keeping some elements of a newest-first list keeps it newest first. */
  lemma {:induction false} FilterKeepsOrder(s: seq<Record>, p: Record -> bool)
    requires NewestFirst(s)
    ensures NewestFirst(Filter(s, p))
  {
    if s != [] {
      TailNewestFirst(s);
      FilterKeepsOrder(s[1..], p);
      var f := Filter(s[1..], p);
      if p(s[0]) {
        forall j | 0 <= j < |f| ensures Time(f[j]) <= Time(s[0]) {
          var k :| 0 <= k < |s[1..]| && s[1..][k] == f[j];
          assert s[k + 1] == f[j];
        }
        ConsNewestFirst(s[0], f);
      } else {
        assert Filter(s, p) == [] + f;
        assert [] + f == f;
      }
    }
  }


  /** The text test on the lowercased term. */
  predicate TextMatch(m: Record, term: string) {
    FieldHas(Get(m, "material_nome"), term) || FieldHas(Get(m, "obra_nome"), term)
    || FieldHas(Get(m, "observacao"), term)
  }

  /** With an empty search term a movement passes the text test exactly when
      one of the three fields is present. */
  lemma EmptyTermText(m: Record)
    ensures TextMatch(m, Lower("")) <==>
            Get(m, "material_nome").Str? || Get(m, "obra_nome").Str? || Get(m, "observacao").Str?
  {
    assert Lower("") == "";
    forall v: Value | v.Str? ensures FieldHas(v, "") {
      IncludesEmpty(Lower(v.s));
    }
  }

  /** A picker filter: "all" passes everything, anything else must equal
      the movement's field. */
  predicate PickOk(pick: string, m: Record, field: string) {
    pick == "all" || StrictEq(Get(m, field), Str(pick))
  }

  predicate Passes(searchTerm: string, filterObra: string, filterMaterial: string, m: Record) {
    TextMatch(m, Lower(searchTerm)) && PickOk(filterObra, m, "obra_id") && PickOk(filterMaterial, m, "material_id")
  }

  function PassTest(searchTerm: string, filterObra: string, filterMaterial: string): Record -> bool {
    m => Passes(searchTerm, filterObra, filterMaterial, m)
  }

  /** `filteredMovimentacoes`: the sorted list filtered by the three tests
      together, so it is still newest first and holds exactly the movements
      passing all three. */
  function FilteredMovimentacoes(movimentacoes: seq<Record>, searchTerm: string, filterObra: string, filterMaterial: string): (r: seq<Record>)
    requires AllDated(movimentacoes)
    ensures NewestFirst(r)
    ensures Subsequence(r, SortedMovimentacoes(movimentacoes))
    ensures forall i :: 0 <= i < |r| ==> r[i] in movimentacoes && Passes(searchTerm, filterObra, filterMaterial, r[i])
    ensures forall i :: 0 <= i < |movimentacoes| && Passes(searchTerm, filterObra, filterMaterial, movimentacoes[i]) ==>
              movimentacoes[i] in r
  {
    var sorted := SortedMovimentacoes(movimentacoes);
    var p := PassTest(searchTerm, filterObra, filterMaterial);
    FilterKeepsOrder(sorted, p);
    FilterIsSubsequence(sorted, p);
    SameElements(sorted, movimentacoes);
    FilterKeepsMembers(sorted, p);
    Filter(sorted, p)
  }

  lemma SameElements(a: seq<Record>, b: seq<Record>)
    requires multiset(a) == multiset(b)
    ensures forall x :: x in a <==> x in b
  {
    forall x ensures x in a <==> x in b {
      assert x in a <==> x in multiset(a);
      assert x in b <==> x in multiset(b);
    }
  }

  /** Every movement the store creates is dated, so the history can sort it. */
  lemma CreatedIsDated(l: seq<Record>, data: Record, now: nat, boot: int)
    requires AllDated(l)
    ensures AllDated([NewMovimentacao(data, now)] + l)
    ensures AllDated(MovimentacoesMock(boot))
  {
    assert Get(NewMovimentacao(data, now), "created_date") == Iso(now);
  }
}
