/**
 * The consolidated dashboard endpoint: a read-only reduction over the store. Tables
 * are read in primary-key order (the order the database hands rows back is not
 * specified, and nothing below depends on it except the order of tied groups).
 */
module Dashboard {
  import opened Results
  import opened Models

  // ---------------------------------------------------------------------------
  // Querysets: a table read in primary-key order
  // ---------------------------------------------------------------------------

  /** The keys of m below n, ascending. */
  function Scan<V>(m: map<Id, V>, n: nat): (ids: seq<Id>)
    ensures forall i :: 0 <= i < |ids| ==> ids[i] in m && ids[i] < n
  {
    if n == 0 then [] else Scan(m, n - 1) + (if n - 1 in m then [n - 1] else [])
  }

  /** A scan lists every key below n, and nothing else, in strictly ascending order. */
  lemma {:induction false} ScanListsKeys<V>(m: map<Id, V>, n: nat)
    ensures forall k :: k in Scan(m, n) <==> k in m && k < n
    ensures forall i, j :: 0 <= i < j < |Scan(m, n)| ==> Scan(m, n)[i] < Scan(m, n)[j]
  {
    if n > 0 {
      ScanListsKeys(m, n - 1);
    }
  }

  /** A scan holds one entry per key below n. */
  lemma {:induction false} ScanCount<V>(m: map<Id, V>, n: nat)
    ensures |Scan(m, n)| == |set k | k in m && k < n|
  {
    if n > 0 {
      ScanCount(m, n - 1);
      var prev := set k | k in m && k < n - 1;
      var cur := set k | k in m && k < n;
      if n - 1 in m {
        assert cur == prev + {n - 1};
      } else {
        assert cur == prev;
      }
    }
  }

  /** Once every key is below n, the scan is the whole table: one entry per row. */
  lemma ScanCoversTable<V>(m: map<Id, V>, n: nat)
    requires forall k :: k in m ==> k < n
    ensures forall k :: k in Scan(m, n) <==> k in m
    ensures |Scan(m, n)| == |m|
  {
    ScanListsKeys(m, n);
    ScanCount(m, n);
    assert (set k | k in m && k < n) == m.Keys;
  }

  /** The farm rows behind a list of farm ids. */
  function Farms(db: Db, ids: seq<Id>): seq<Propriedade>
    requires forall i :: 0 <= i < |ids| ==> ids[i] in db.propriedades
  {
    seq(|ids|, i requires 0 <= i < |ids| => db.propriedades[ids[i]])
  }

  // ---------------------------------------------------------------------------
  // SQL SUM over one area column
  // ---------------------------------------------------------------------------

  datatype AreaField = AreaTotal | AreaAgricultavel | AreaVegetacao

  function Area(p: Propriedade, f: AreaField): real {
    match f
    case AreaTotal => p.areaTotal
    case AreaAgricultavel => p.areaAgricultavel
    case AreaVegetacao => p.areaVegetacao
  }

  function SumField(ps: seq<Propriedade>, f: AreaField): real {
    if ps == [] then 0.0 else SumField(ps[..|ps| - 1], f) + Area(ps[|ps| - 1], f)
  }

  /** `aggregate(Sum(...))`: NULL (None) over no rows, the sum otherwise. */
  function Aggregate(ps: seq<Propriedade>, f: AreaField): Option<real> {
    if ps == [] then None else Some(SumField(ps, f))
  }

  /** Python's `x or 0` on an aggregate. */
  function OrZero(r: Option<real>): real {
    if r.Some? then r.value else 0.0
  }

  // ---------------------------------------------------------------------------
  // GROUP BY a label, COUNT and SUM per group
  // ---------------------------------------------------------------------------

  /** One row of a grouped query: the value it is grouped by and the area it contributes. */
  datatype Labelled = Labelled(name: string, area: real)

  /** One group: `nome_estado`/`qtd_fazendas`/`total_hectares`, or a crop name and `qtd`. */
  datatype Group = Group(name: string, count: nat, area: real)

  /** The distinct labels of rows, in order of first appearance. */
  function Labels(rows: seq<Labelled>): seq<string> {
    if rows == [] then []
    else
      var prev := Labels(rows[..|rows| - 1]);
      var l := rows[|rows| - 1].name;
      if l in prev then prev else prev + [l]
  }

  function CountOf(rows: seq<Labelled>, l: string): nat {
    if rows == [] then 0
    else CountOf(rows[..|rows| - 1], l) + (if rows[|rows| - 1].name == l then 1 else 0)
  }

  function AreaOf(rows: seq<Labelled>, l: string): real {
    if rows == [] then 0.0
    else AreaOf(rows[..|rows| - 1], l) + (if rows[|rows| - 1].name == l then rows[|rows| - 1].area else 0.0)
  }

  function SumArea(rows: seq<Labelled>): real {
    if rows == [] then 0.0 else SumArea(rows[..|rows| - 1]) + rows[|rows| - 1].area
  }

  function Groups(rows: seq<Labelled>, ls: seq<string>): seq<Group> {
    seq(|ls|, i requires 0 <= i < |ls| => Group(ls[i], CountOf(rows, ls[i]), AreaOf(rows, ls[i])))
  }

  /** `.values(label).annotate(Count, Sum)`: one group per distinct label. */
  function GroupBy(rows: seq<Labelled>): seq<Group> {
    Groups(rows, Labels(rows))
  }

  function TotalCount(gs: seq<Group>): nat {
    if gs == [] then 0 else TotalCount(gs[..|gs| - 1]) + gs[|gs| - 1].count
  }

  function TotalArea(gs: seq<Group>): real {
    if gs == [] then 0.0 else TotalArea(gs[..|gs| - 1]) + gs[|gs| - 1].area
  }

  predicate Distinct(ls: seq<string>) {
    forall i, j :: 0 <= i < j < |ls| ==> ls[i] != ls[j]
  }

  predicate DistinctLabels(gs: seq<Group>) {
    forall i, j :: 0 <= i < j < |gs| ==> gs[i].name != gs[j].name
  }

  /** Every row's label is listed, only labels of rows are listed, and none twice. */
  lemma {:induction false} LabelsSpec(rows: seq<Labelled>)
    ensures Distinct(Labels(rows))
    ensures forall i :: 0 <= i < |rows| ==> rows[i].name in Labels(rows)
    ensures forall l: string :: l in Labels(rows) <==> CountOf(rows, l) >= 1
  {
    if rows != [] {
      var init := rows[..|rows| - 1];
      LabelsSpec(init);
      forall i | 0 <= i < |rows| - 1
        ensures rows[i].name in Labels(rows)
      {
        assert rows[i] == init[i];
      }
    }
  }

  /** Adding one row adds one to the count, and its area to the sum, of the one group it falls in. */
  lemma {:induction false} GroupsAppendRow(init: seq<Labelled>, r: Labelled, ls: seq<string>)
    requires Distinct(ls)
    ensures TotalCount(Groups(init + [r], ls)) == TotalCount(Groups(init, ls)) + (if r.name in ls then 1 else 0)
    ensures TotalArea(Groups(init + [r], ls)) == TotalArea(Groups(init, ls)) + (if r.name in ls then r.area else 0.0)
  {
    var rows := init + [r];
    assert rows[..|rows| - 1] == init;
    if ls != [] {
      var front := ls[..|ls| - 1];
      GroupsAppendRow(init, r, front);
      assert Groups(rows, ls)[..|ls| - 1] == Groups(rows, front);
      assert Groups(init, ls)[..|ls| - 1] == Groups(init, front);
      assert r.name in ls <==> r.name in front || r.name == ls[|ls| - 1];
    }
  }

  /** Groups over a list holding every row's label, each once, account for every row and all area. */
  lemma {:induction false} GroupsPartitionRows(rows: seq<Labelled>, ls: seq<string>)
    requires Distinct(ls) && forall i :: 0 <= i < |rows| ==> rows[i].name in ls
    ensures TotalCount(Groups(rows, ls)) == |rows|
    ensures TotalArea(Groups(rows, ls)) == SumArea(rows)
  {
    if rows == [] {
      GroupsOfNoRows(ls);
    } else {
      var init := rows[..|rows| - 1];
      var r := rows[|rows| - 1];
      assert rows == init + [r];
      GroupsPartitionRows(init, ls);
      GroupsAppendRow(init, r, ls);
    }
  }

  lemma {:induction false} GroupsOfNoRows(ls: seq<string>)
    ensures TotalCount(Groups([], ls)) == 0 && TotalArea(Groups([], ls)) == 0.0
  {
    if ls != [] {
      GroupsOfNoRows(ls[..|ls| - 1]);
      assert Groups([], ls)[..|ls| - 1] == Groups([], ls[..|ls| - 1]);
    }
  }

  /**
   * GROUP BY: one group per distinct label, each with at least one row, holding its
   * own count and area; together the groups account for every row and all the area.
   */
  lemma GroupBySpec(rows: seq<Labelled>)
    ensures DistinctLabels(GroupBy(rows))
    ensures forall g: Group :: g in GroupBy(rows) <==>
              g.count >= 1 && g == Group(g.name, CountOf(rows, g.name), AreaOf(rows, g.name))
    ensures TotalCount(GroupBy(rows)) == |rows| && TotalArea(GroupBy(rows)) == SumArea(rows)
  {
    LabelsSpec(rows);
    GroupsPartitionRows(rows, Labels(rows));
    var gs := GroupBy(rows);
    forall g: Group | g.count >= 1 && g == Group(g.name, CountOf(rows, g.name), AreaOf(rows, g.name))
      ensures g in gs
    {
      var k :| 0 <= k < |Labels(rows)| && Labels(rows)[k] == g.name;
      assert gs[k] == g;
    }
  }

  // ---------------------------------------------------------------------------
  // ORDER BY count descending (ties in no particular order)
  // ---------------------------------------------------------------------------

  predicate NonIncreasing(gs: seq<Group>) {
    forall i, j :: 0 <= i < j < |gs| ==> gs[i].count >= gs[j].count
  }

  function Insert(g: Group, s: seq<Group>): seq<Group> {
    if s == [] then [g]
    else if g.count >= s[0].count then [g] + s
    else [s[0]] + Insert(g, s[1..])
  }

  /** `.order_by('-count')`. */
  function SortByCount(s: seq<Group>): seq<Group> {
    if s == [] then [] else Insert(s[0], SortByCount(s[1..]))
  }

  lemma {:induction false} TotalsOfConcat(a: seq<Group>, b: seq<Group>)
    ensures TotalCount(a + b) == TotalCount(a) + TotalCount(b)
    ensures TotalArea(a + b) == TotalArea(a) + TotalArea(b)
  {
    if b == [] {
      assert a + b == a;
    } else {
      var front := b[..|b| - 1];
      TotalsOfConcat(a, front);
      assert (a + b)[..|a + b| - 1] == a + front;
    }
  }

  /** Totals over a group in front of a list. */
  lemma TotalsOfCons(g: Group, s: seq<Group>)
    ensures TotalCount([g] + s) == g.count + TotalCount(s)
    ensures TotalArea([g] + s) == g.area + TotalArea(s)
  {
    TotalsOfConcat([g], s);
    assert [g][..0] == [];
  }

  /** Inserting adds exactly the one group. */
  lemma {:induction false} InsertMembers(g: Group, s: seq<Group>)
    ensures multiset(Insert(g, s)) == multiset(s) + multiset{g}
    ensures forall x: Group :: x in Insert(g, s) <==> x in s || x == g
  {
    if s != [] && g.count < s[0].count {
      InsertMembers(g, s[1..]);
      assert s == [s[0]] + s[1..];
    }
  }

  lemma {:induction false} InsertSorted(g: Group, s: seq<Group>)
    requires NonIncreasing(s)
    ensures NonIncreasing(Insert(g, s))
  {
    if s != [] && g.count < s[0].count {
      InsertSorted(g, s[1..]);
      InsertMembers(g, s[1..]);
      var rest := Insert(g, s[1..]);
      forall j | 0 <= j < |rest|
        ensures rest[j].count <= s[0].count
      {
        assert rest[j] in rest;
        if rest[j] != g {
          var tail := s[1..];
          assert rest[j] in tail;
          var k :| 0 <= k < |tail| && tail[k] == rest[j];
          assert s[k + 1] == rest[j];
        }
      }
    }
  }

  lemma {:induction false} InsertTotals(g: Group, s: seq<Group>)
    ensures TotalCount(Insert(g, s)) == g.count + TotalCount(s)
    ensures TotalArea(Insert(g, s)) == g.area + TotalArea(s)
  {
    if s == [] {
      TotalsOfCons(g, []);
      assert [g] + [] == [g];
    } else if g.count >= s[0].count {
      TotalsOfCons(g, s);
    } else {
      InsertTotals(g, s[1..]);
      TotalsOfCons(s[0], Insert(g, s[1..]));
      TotalsOfCons(s[0], s[1..]);
      assert s == [s[0]] + s[1..];
    }
  }

  /** The sort puts the groups in non-increasing count order and keeps each of them. */
  lemma {:induction false} SortByCountSpec(s: seq<Group>)
    ensures NonIncreasing(SortByCount(s))
    ensures multiset(SortByCount(s)) == multiset(s)
    ensures TotalCount(SortByCount(s)) == TotalCount(s) && TotalArea(SortByCount(s)) == TotalArea(s)
  {
    if s != [] {
      SortByCountSpec(s[1..]);
      InsertSorted(s[0], SortByCount(s[1..]));
      InsertMembers(s[0], SortByCount(s[1..]));
      InsertTotals(s[0], SortByCount(s[1..]));
      assert s == [s[0]] + s[1..];
      TotalsOfCons(s[0], s[1..]);
    }
  }

  lemma {:induction false} InsertKeepsDistinct(g: Group, s: seq<Group>)
    requires DistinctLabels(s) && forall x: Group :: x in s ==> x.name != g.name
    ensures DistinctLabels(Insert(g, s))
  {
    if s != [] && g.count < s[0].count {
      InsertKeepsDistinct(g, s[1..]);
      InsertMembers(g, s[1..]);
      var rest := Insert(g, s[1..]);
      forall j | 0 <= j < |rest|
        ensures rest[j].name != s[0].name
      {
        assert rest[j] in rest;
        if rest[j] != g {
          var tail := s[1..];
          assert rest[j] in tail;
          var k :| 0 <= k < |tail| && tail[k] == rest[j];
          assert s[k + 1] == rest[j];
        }
      }
    }
  }

  /** Reordering never makes two groups share a label. */
  lemma {:induction false} SortKeepsDistinct(s: seq<Group>)
    requires DistinctLabels(s)
    ensures DistinctLabels(SortByCount(s))
    ensures forall x: Group :: x in SortByCount(s) <==> x in s
  {
    if s != [] {
      SortKeepsDistinct(s[1..]);
      InsertKeepsDistinct(s[0], SortByCount(s[1..]));
      InsertMembers(s[0], SortByCount(s[1..]));
    }
  }

  // ---------------------------------------------------------------------------
  // The dashboard
  // ---------------------------------------------------------------------------

  /** One entry of `culturas_plantadas`, after the key is renamed to `tipo_cultura`. */
  datatype CulturaRow = CulturaRow(tipoCultura: string, qtd: nat)

  datatype UsoDoSolo = UsoDoSolo(totalAgricultavel: Option<real>, totalVegetacao: Option<real>)

  datatype Summary = Summary(
    totalFazendas: nat,
    totalHectares: real,
    fazendasPorEstado: seq<Group>,
    culturasPlantadas: seq<CulturaRow>,
    usoDoSolo: UsoDoSolo)

  /** Each farm labelled with the name of its city's state (`cidade__estado__nome_estado`). */
  function EstadoLabels(db: Db, ids: seq<Id>): seq<Labelled>
    requires References(db) && forall i :: 0 <= i < |ids| ==> ids[i] in db.propriedades
  {
    seq(|ids|, i requires 0 <= i < |ids| =>
      var p := db.propriedades[ids[i]];
      Labelled(db.estados[db.cidades[p.cidade].estado].nomeEstado, p.areaTotal))
  }

  /** Each planting labelled with its crop type's name (`tipo_cultura__tipo_cultura`). */
  function CulturaLabels(db: Db, ids: seq<Id>): seq<Labelled>
    requires References(db) && forall i :: 0 <= i < |ids| ==> ids[i] in db.culturas
  {
    seq(|ids|, i requires 0 <= i < |ids| =>
      Labelled(db.tiposCultura[db.culturas[ids[i]].tipoCultura].tipoCultura, 0.0))
  }

  /** The farm rows of `fazendas_por_estado`, before grouping. */
  function StateRows(db: Db, n: Id): seq<Labelled>
    requires References(db)
  {
    EstadoLabels(db, Scan(db.propriedades, n))
  }

  /** The planting rows of `culturas_plantadas`, before grouping. */
  function CropRows(db: Db, n: Id): seq<Labelled>
    requires References(db)
  {
    CulturaLabels(db, Scan(db.culturas, n))
  }

  /** `item['tipo_cultura'] = item.pop('nome_tipo_cultura')` on every grouped crop row. */
  function Renamed(gs: seq<Group>): seq<CulturaRow> {
    seq(|gs|, i requires 0 <= i < |gs| => CulturaRow(gs[i].name, gs[i].count))
  }

  /** `DashboardView.get` over a store whose ids are all below n. */
  function Summarize(db: Db, n: Id): Summary
    requires References(db)
  {
    var farms := Farms(db, Scan(db.propriedades, n));
    Summary(
      |db.propriedades|,
      OrZero(Aggregate(farms, AreaTotal)),
      SortByCount(GroupBy(StateRows(db, n))),
      Renamed(SortByCount(GroupBy(CropRows(db, n)))),
      UsoDoSolo(Aggregate(farms, AreaAgricultavel), Aggregate(farms, AreaVegetacao)))
  }

  lemma {:induction false} SumFieldIsSumArea(db: Db, ids: seq<Id>)
    requires References(db) && forall i :: 0 <= i < |ids| ==> ids[i] in db.propriedades
    ensures SumField(Farms(db, ids), AreaTotal) == SumArea(EstadoLabels(db, ids))
  {
    if ids != [] {
      var front := ids[..|ids| - 1];
      SumFieldIsSumArea(db, front);
      assert Farms(db, ids)[..|ids| - 1] == Farms(db, front);
      assert EstadoLabels(db, ids)[..|ids| - 1] == EstadoLabels(db, front);
    }
  }

  /**
   * The figures agree with each other and with the store: one farm counted per
   * property, the per-state counts and hectares add up to the totals, the per-crop
   * counts add up to the plantings, and the land-use sums are absent exactly when
   * there are no farms, while `total_hectares` is then 0.
   */
  lemma SummaryTotals(db: Db, n: Id)
    requires References(db) && IdsBelow(db, n)
    ensures var s := Summarize(db, n);
      && s.totalFazendas == |db.propriedades|
      && TotalCount(s.fazendasPorEstado) == s.totalFazendas
      && TotalArea(s.fazendasPorEstado) == s.totalHectares
      && TotalCount(SortByCount(GroupBy(CropRows(db, n)))) == |db.culturas|
      && |s.culturasPlantadas| == |SortByCount(GroupBy(CropRows(db, n)))|
      && (s.usoDoSolo.totalAgricultavel.None? <==> |db.propriedades| == 0)
      && (s.usoDoSolo.totalVegetacao.None? <==> |db.propriedades| == 0)
      && (|db.propriedades| == 0 ==> s.totalHectares == 0.0)
  {
    var farmIds := Scan(db.propriedades, n);
    ScanCoversTable(db.propriedades, n);
    ScanCoversTable(db.culturas, n);
    GroupBySpec(StateRows(db, n));
    SortByCountSpec(GroupBy(StateRows(db, n)));
    GroupBySpec(CropRows(db, n));
    SortByCountSpec(GroupBy(CropRows(db, n)));
    SumFieldIsSumArea(db, farmIds);
  }

  /**
   * `fazendas_por_estado` and `culturas_plantadas`: ordered by count, no label twice,
   * and a group is listed iff it is a label with at least one row, carrying that
   * label's count (and, for states, area); every farm's state is listed.
   */
  lemma SummaryGroups(db: Db, n: Id)
    requires References(db)
    ensures var s := Summarize(db, n);
      && NonIncreasing(s.fazendasPorEstado) && DistinctLabels(s.fazendasPorEstado)
      && (forall g: Group :: g in s.fazendasPorEstado <==>
            g.count >= 1 && g == Group(g.name, CountOf(StateRows(db, n), g.name), AreaOf(StateRows(db, n), g.name)))
      && (forall i :: 0 <= i < |StateRows(db, n)| ==>
            var l := StateRows(db, n)[i].name;
            Group(l, CountOf(StateRows(db, n), l), AreaOf(StateRows(db, n), l)) in s.fazendasPorEstado)
  {
    var rows := StateRows(db, n);
    GroupBySpec(rows);
    SortByCountSpec(GroupBy(rows));
    SortKeepsDistinct(GroupBy(rows));
    LabelsSpec(rows);
  }

  /** The name of the state a farm lies in, reached through its city. */
  function StateNameOf(db: Db, k: Id): string
    requires References(db) && k in db.propriedades
  {
    db.estados[db.cidades[db.propriedades[k].cidade].estado].nomeEstado
  }

  /** Every stored farm's state is listed in `fazendas_por_estado`, with its count and area. */
  lemma EveryFarmStateListed(db: Db, n: Id)
    requires References(db) && IdsBelow(db, n)
    ensures var s := Summarize(db, n);
      var rows := StateRows(db, n);
      forall k :: k in db.propriedades ==>
        Group(StateNameOf(db, k), CountOf(rows, StateNameOf(db, k)), AreaOf(rows, StateNameOf(db, k)))
          in s.fazendasPorEstado
  {
    var ids := Scan(db.propriedades, n);
    ScanCoversTable(db.propriedades, n);
    SummaryGroups(db, n);
    forall k | k in db.propriedades
      ensures StateRows(db, n)[IndexOf(ids, k)].name == StateNameOf(db, k)
    {
    }
  }

  /** A position at which a listed key occurs. */
  function IndexOf(ids: seq<Id>, k: Id): (i: nat)
    requires k in ids
    ensures i < |ids| && ids[i] == k
  {
    if ids[0] == k then 0 else 1 + IndexOf(ids[1..], k)
  }

  lemma {:induction false} LandUseWithinAreas(db: Db, ids: seq<Id>)
    requires forall i :: 0 <= i < |ids| ==> ids[i] in db.propriedades
    requires AreasValid(db)
    ensures SumField(Farms(db, ids), AreaAgricultavel) + SumField(Farms(db, ids), AreaVegetacao)
      <= SumField(Farms(db, ids), AreaTotal)
  {
    if ids != [] {
      var front := ids[..|ids| - 1];
      LandUseWithinAreas(db, front);
      assert Farms(db, ids)[..|ids| - 1] == Farms(db, front);
      assert CleanPropriedade(db.propriedades[ids[|ids| - 1]]).Pass?;
    }
  }

  /**
   * The area rule seen from the dashboard: once there are farms, the land-use sums are
   * present and together do not exceed `total_hectares`.
   */
  lemma LandUseWithinTotal(db: Db, n: Id)
    requires References(db) && AreasValid(db) && IdsBelow(db, n) && |db.propriedades| > 0
    ensures var s := Summarize(db, n);
      && s.usoDoSolo.totalAgricultavel.Some? && s.usoDoSolo.totalVegetacao.Some?
      && s.usoDoSolo.totalAgricultavel.value + s.usoDoSolo.totalVegetacao.value <= s.totalHectares
  {
    SummaryTotals(db, n);
    LandUseWithinAreas(db, Scan(db.propriedades, n));
  }

  /** The crop list is the crop groups, ordered by count, with no crop name twice. */
  lemma CropGroups(db: Db, n: Id)
    requires References(db)
    ensures var s := Summarize(db, n);
      var sorted := SortByCount(GroupBy(CropRows(db, n)));
      && NonIncreasing(sorted) && DistinctLabels(sorted)
      && (forall g: Group :: g in sorted <==>
            g.count >= 1 && g == Group(g.name, CountOf(CropRows(db, n), g.name), AreaOf(CropRows(db, n), g.name)))
      && |s.culturasPlantadas| == |sorted|
      && (forall i :: 0 <= i < |sorted| ==>
            s.culturasPlantadas[i] == CulturaRow(sorted[i].name, sorted[i].count))
  {
    var rows := CropRows(db, n);
    GroupBySpec(rows);
    SortByCountSpec(GroupBy(rows));
    SortKeepsDistinct(GroupBy(rows));
  }

  /** The rename loop of `DashboardView.get`, appending one renamed row per grouped row. */
  method RenameCropRows(gs: seq<Group>) returns (out: seq<CulturaRow>)
    ensures out == Renamed(gs)
  {
    out := [];
    var i := 0;
    while i < |gs|
      invariant 0 <= i <= |gs|
      invariant out == Renamed(gs[..i])
    {
      out := out + [CulturaRow(gs[i].name, gs[i].count)];
      i := i + 1;
      assert Renamed(gs[..i]) == Renamed(gs[..i - 1]) + [CulturaRow(gs[i - 1].name, gs[i - 1].count)];
    }
    assert gs[..i] == gs;
  }

  /**
   * `DashboardView.get`: reads the registry, changes nothing (no `modifies`), and
   * returns the summary of its current tables.
   */
  method Get(reg: Registry) returns (s: Summary)
    requires reg.Valid() && References(reg.Snapshot())
    ensures s == Summarize(reg.Snapshot(), reg.nextId)
  {
    var db := reg.Snapshot();
    var farms := Farms(db, Scan(db.propriedades, reg.nextId));
    var porEstado := SortByCount(GroupBy(StateRows(db, reg.nextId)));
    var culturasList := RenameCropRows(SortByCount(GroupBy(CropRows(db, reg.nextId))));
    s := Summary(
      |db.propriedades|,
      OrZero(Aggregate(farms, AreaTotal)),
      porEstado,
      culturasList,
      UsoDoSolo(Aggregate(farms, AreaAgricultavel), Aggregate(farms, AreaVegetacao)));
  }

  /**
   * A store with one farm and one planting: one farm of the farm's area, one state
   * group and one crop group of count one, and the land-use sums are the farm's own.
   */
  lemma SummaryOfOneFarm(db: Db, n: Id, farm: Id, planting: Id)
    requires References(db) && IdsBelow(db, n)
    requires db.propriedades.Keys == {farm} && db.culturas.Keys == {planting}
    ensures var p := db.propriedades[farm];
      var estado := db.estados[db.cidades[p.cidade].estado].nomeEstado;
      var crop := db.tiposCultura[db.culturas[planting].tipoCultura].tipoCultura;
      Summarize(db, n) == Summary(
        1, p.areaTotal,
        [Group(estado, 1, p.areaTotal)],
        [CulturaRow(crop, 1)],
        UsoDoSolo(Some(p.areaAgricultavel), Some(p.areaVegetacao)))
  {
    ScanIsOnlyKey(db.propriedades, n, farm);
    ScanIsOnlyKey(db.culturas, n, planting);
    var p := db.propriedades[farm];
    var estado := db.estados[db.cidades[p.cidade].estado].nomeEstado;
    var crop := db.tiposCultura[db.culturas[planting].tipoCultura].tipoCultura;
    assert StateRows(db, n) == [Labelled(estado, p.areaTotal)];
    assert CropRows(db, n) == [Labelled(crop, 0.0)];
    GroupOfOneRow(Labelled(estado, p.areaTotal));
    GroupOfOneRow(Labelled(crop, 0.0));
    var farms := Farms(db, [farm]);
    assert farms == [p];
    SumFieldOfOne(p);
    assert Aggregate(farms, AreaTotal) == Some(p.areaTotal);
    assert Aggregate(farms, AreaAgricultavel) == Some(p.areaAgricultavel);
    assert Aggregate(farms, AreaVegetacao) == Some(p.areaVegetacao);
    assert |db.propriedades| == 1 by {
      assert |db.propriedades.Keys| == 1;
    }
    assert Renamed([Group(crop, 1, 0.0)]) == [CulturaRow(crop, 1)];
  }

  lemma SumFieldOfOne(p: Propriedade)
    ensures SumField([p], AreaTotal) == p.areaTotal
    ensures SumField([p], AreaAgricultavel) == p.areaAgricultavel
    ensures SumField([p], AreaVegetacao) == p.areaVegetacao
  {
    assert [p][..0] == [];
  }

  lemma ScanIsOnlyKey<V>(m: map<Id, V>, n: nat, k: Id)
    requires m.Keys == {k} && k < n
    ensures Scan(m, n) == [k]
  {
    ScanListsKeys(m, n);
    ScanCoversTable(m, n);
  }

  /**
   * The repository's dashboard fixture: one state, one city, one producer, one farm of
   * 100 ha (60 farmed, 40 vegetation) and one soy planting, created in that order.
   */
  const Fixture: Db := Db(
    map[0 := Estado("Minas Gerais")],
    map[1 := Cidade("Uberl\U{e2}ndia", 0)],
    map[3 := TipoCultura("Soja")],
    map["12345678909" := ProdutorRow("12345678909", "CPF", "Produtor Teste")],
    map[2 := Propriedade("Fazenda Teste", 100.0, 60.0, 40.0, 1, "12345678909")],
    map[4 := Cultura(2025, 3, 2)])

  lemma FixtureIsConsistent()
    ensures References(Fixture)
    ensures Fixture.propriedades.Keys == {2} && Fixture.culturas.Keys == {4}
  {
  }

  lemma FixtureIdsBelowFive()
    ensures IdsBelow(Fixture, 5)
  {
  }

  /** The dashboard of the fixture: the figures the repository's dashboard test expects. */
  lemma DashboardOfOneFarm()
    ensures References(Fixture)
    ensures Summarize(Fixture, 5) == Summary(
      1, 100.0,
      [Group("Minas Gerais", 1, 100.0)],
      [CulturaRow("Soja", 1)],
      UsoDoSolo(Some(60.0), Some(40.0)))
  {
    FixtureIsConsistent();
    FixtureIdsBelowFive();
    SummaryOfOneFarm(Fixture, 5, 2, 4);
  }

  /** A single row makes a single group of count one. */
  lemma GroupOfOneRow(r: Labelled)
    ensures GroupBy([r]) == [Group(r.name, 1, r.area)]
    ensures SortByCount(GroupBy([r])) == GroupBy([r])
  {
    assert [r][..0] == [];
    assert Labels([r]) == [r.name];
    assert CountOf([r], r.name) == 1 && AreaOf([r], r.name) == r.area;
    assert GroupBy([r])[0] == Group(r.name, 1, r.area);
  }
}
