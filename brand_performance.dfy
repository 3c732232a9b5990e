/**
 * refined.performance_mensal_marca: sales per brand and calendar month
 * against the brand's monthly target. Values are in cents; the attainment
 * percentage is in hundredths of a percent.
 */
module BrandPerformance {
  import opened Sql
  import opened Trusted

  datatype Performance = Performance(ano: Option<int>, mes: Option<int>, id: Option<int>, nomeMarca: Option<string>,
                                     vlrTotalVendido: Option<int>, vlrMeta: int, percAtingimentoMeta: Option<int>)

  /** One row of the FROM clause: an item with its order, calendar day, product, brand and (maybe) target. */
  datatype BrandSale = BrandSale(p: Pedido, i: PedidoItem, d: Data, pr: Produto, m: Marca, mt: Option<Meta>)

  /** ON p.data = d.data */
  predicate DataOfSale(s: (Pedido, PedidoItem), d: Data) {
    SqlEq(s.0.data, d.data)
  }

  /** ON pr.id = pi.id_produto */
  predicate ProdutoOfSale(s: ((Pedido, PedidoItem), Data), pr: Produto) {
    SqlEq(pr.id, s.0.1.idProduto)
  }

  /** ON m.id = pr.id_marca */
  predicate MarcaOfSale(s: (((Pedido, PedidoItem), Data), Produto), m: Marca) {
    SqlEq(m.id, s.1.idMarca)
  }

  /** ON mt.id_marca = m.id AND mt.ano = d.ano AND mt.mes = d.mes */
  predicate MetaOfSale(s: ((((Pedido, PedidoItem), Data), Produto), Marca), mt: Meta) {
    SqlEq(mt.idMarca, s.1.id) && SqlEq(mt.ano, s.0.0.1.ano) && SqlEq(mt.mes, s.0.0.1.mes)
  }

  function Flatten(x: (((((Pedido, PedidoItem), Data), Produto), Marca), Option<Meta>)): BrandSale {
    BrandSale(x.0.0.0.0.0, x.0.0.0.0.1, x.0.0.0.1, x.0.0.1, x.0.1, x.1)
  }

  /** pedido_item JOIN pedido JOIN data JOIN produto JOIN marca LEFT JOIN meta */
  function BrandSales(db: TrustedDb): seq<BrandSale> {
    var withData := Join(PedidoItens(db), db.data, DataOfSale);
    var withProduto := Join(withData, db.produto, ProdutoOfSale);
    var withMarca := Join(withProduto, db.marca, MarcaOfSale);
    var withMeta := LeftJoin(withMarca, db.meta, MetaOfSale);
    seq(|withMeta|, k requires 0 <= k < |withMeta| => Flatten(withMeta[k]))
  }

  /** mt.valor of a joined row: NULL when no target matched. */
  function MetaValor(s: BrandSale): Option<int> {
    if s.mt.Some? then s.mt.value.valor else None
  }

  /** GROUP BY d.ano, d.mes, m.id, m.nome, mt.valor */
  type BrandMonth = (Option<int>, Option<int>, Option<int>, Option<string>, Option<int>)

  function BrandMonthOf(s: BrandSale): BrandMonth {
    (s.d.ano, s.d.mes, s.m.id, s.m.nome, MetaValor(s))
  }

  /** p.vlr_total, taken once for every joined item row. */
  function OrderTotal(s: BrandSale): Option<int> {
    s.p.vlrTotal
  }

  function VlrTotalVendido(r: Performance): Option<int> {
    r.vlrTotalVendido
  }

  /**
   * ROUND(total / NULLIF(valor, 0) * 100, 2), in hundredths of a percent:
   * NULL when either side is NULL or the target is 0, otherwise within half
   * a hundredth of the exact ratio.
   */
  function Attainment(total: Option<int>, valor: Option<int>): (perc: Option<int>)
    ensures perc.None? <==> total.None? || valor.None? || valor.value == 0
    ensures perc.Some? ==> 2 * Abs(perc.value * valor.value - 10000 * total.value) <= Abs(valor.value)
  {
    if total.None? || valor.None? || valor.value == 0 then None
    else Some(RoundRatio(10000 * total.value, valor.value))
  }

  function GroupRow(sales: seq<BrandSale>, k: BrandMonth): Performance {
    var total := SumOf(FilterKey(sales, BrandMonthOf, k), OrderTotal);
    Performance(k.0, k.1, k.2, k.3, total, Coalesce(k.4, 0), Attainment(total, k.4))
  }

  /**
   * The percentage is NULL exactly when there is no target value or no
   * sales total, and otherwise within 0.005 percent of the exact ratio.
   */
  predicate AttainmentConsistent(r: Performance) {
    && (r.percAtingimentoMeta.None? <==> r.vlrMeta == 0 || r.vlrTotalVendido.None?)
    && (r.percAtingimentoMeta.Some? ==>
          2 * Abs(r.percAtingimentoMeta.value * r.vlrMeta - 10000 * r.vlrTotalVendido.value) <= Abs(r.vlrMeta))
  }

  lemma GroupRowAttainment(sales: seq<BrandSale>, k: BrandMonth)
    ensures AttainmentConsistent(GroupRow(sales, k))
  {
    var r := GroupRow(sales, k);
    if r.percAtingimentoMeta.Some? {
      assert k.4 == Some(r.vlrMeta);
    }
  }

  function Build(sales: seq<BrandSale>): seq<Performance> {
    var ks := GroupKeys(sales, BrandMonthOf);
    seq(|ks|, j requires 0 <= j < |ks| => GroupRow(sales, ks[j]))
  }

  /** The table the job creates from the trusted layer. */
  function PerformanceTable(db: TrustedDb): seq<Performance> {
    Build(BrandSales(db))
  }

  // ---------------------------------------------------------------
  // Where the joined rows come from
  // ---------------------------------------------------------------

  /** The target row, when present, is one of the brand's targets for that year and month. */
  predicate MetaMatches(s: BrandSale) {
    s.mt.Some? ==> SqlEq(s.mt.value.idMarca, s.m.id) && SqlEq(s.mt.value.ano, s.d.ano) && SqlEq(s.mt.value.mes, s.d.mes)
  }

  ghost predicate FromTrusted(db: TrustedDb, s: BrandSale) {
    s.p in db.pedido && s.i in db.pedidoItem && s.d in db.data && s.pr in db.produto && s.m in db.marca &&
    (s.mt.Some? ==> s.mt.value in db.meta) && MetaMatches(s)
  }

  lemma BrandSaleSources(db: TrustedDb, k: int)
    requires 0 <= k < |BrandSales(db)|
    ensures FromTrusted(db, BrandSales(db)[k])
  {
    var withData := Join(PedidoItens(db), db.data, DataOfSale);
    var withProduto := Join(withData, db.produto, ProdutoOfSale);
    var withMarca := Join(withProduto, db.marca, MarcaOfSale);
    var withMeta := LeftJoin(withMarca, db.meta, MetaOfSale);
    var x := withMeta[k];
    LeftJoinRow(withMarca, db.meta, MetaOfSale, x);
    JoinRow(withProduto, db.marca, MarcaOfSale, x.0);
    JoinRow(withData, db.produto, ProdutoOfSale, x.0.0);
    JoinRow(PedidoItens(db), db.data, DataOfSale, x.0.0.0);
    JoinRow(db.pedido, db.pedidoItem, ItemOfPedido, x.0.0.0.0);
    assert BrandSales(db)[k] == Flatten(x);
  }

  /** mt is one of the brand's targets for that year and month: non-NULL equal brand, year and month. */
  predicate TargetOf(mt: Meta, id: Option<int>, ano: Option<int>, mes: Option<int>) {
    SqlEq(mt.idMarca, id) && SqlEq(mt.ano, ano) && SqlEq(mt.mes, mes)
  }

  /** LEFT JOIN meta: a sale whose brand has a target for the sale's month is joined to a target. */
  lemma SaleFindsTarget(db: TrustedDb, k: int, mt: Meta)
    requires 0 <= k < |BrandSales(db)|
    requires mt in db.meta && TargetOf(mt, BrandSales(db)[k].m.id, BrandSales(db)[k].d.ano, BrandSales(db)[k].d.mes)
    ensures BrandSales(db)[k].mt.Some?
  {
    var withData := Join(PedidoItens(db), db.data, DataOfSale);
    var withProduto := Join(withData, db.produto, ProdutoOfSale);
    var withMarca := Join(withProduto, db.marca, MarcaOfSale);
    var withMeta := LeftJoin(withMarca, db.meta, MetaOfSale);
    var x := withMeta[k];
    assert BrandSales(db)[k] == Flatten(x);
    LeftJoinRow(withMarca, db.meta, MetaOfSale, x);
    var j :| 0 <= j < |db.meta| && db.meta[j] == mt;
    assert MetaOfSale(x.0, db.meta[j]);
  }

  /**
   * Two sales of one brand and month, the first carrying no target value and
   * the second one: the brand then has a target with a NULL value that month.
   */
  lemma NullTargetBeside(db: TrustedDb, a: int, b: int)
    requires 0 <= a < |BrandSales(db)| && 0 <= b < |BrandSales(db)|
    requires MetaValor(BrandSales(db)[a]).None? && MetaValor(BrandSales(db)[b]).Some?
    requires BrandSales(db)[a].m.id == BrandSales(db)[b].m.id
    requires BrandSales(db)[a].d.ano == BrandSales(db)[b].d.ano && BrandSales(db)[a].d.mes == BrandSales(db)[b].d.mes
    ensures exists mt :: mt in db.meta && mt.valor.None? &&
                         TargetOf(mt, BrandSales(db)[a].m.id, BrandSales(db)[a].d.ano, BrandSales(db)[a].d.mes)
  {
    var sa, sb := BrandSales(db)[a], BrandSales(db)[b];
    BrandSaleSources(db, a);
    BrandSaleSources(db, b);
    var target := sb.mt.value;
    assert target in db.meta && TargetOf(target, sa.m.id, sa.d.ano, sa.d.mes);
    SaleFindsTarget(db, a, target);
    assert sa.mt.value in db.meta && sa.mt.value.valor.None?;
  }

  // ---------------------------------------------------------------
  // The job's output
  // ---------------------------------------------------------------

  /** A non-zero vlr_meta is the value of one of the brand's targets for that year and month. */
  ghost predicate MetaFromTarget(db: TrustedDb, r: Performance) {
    r.vlrMeta != 0 ==>
      r.id.Some? && exists mt :: mt in db.meta && mt.idMarca == r.id && mt.ano == r.ano && mt.mes == r.mes &&
                                 mt.valor == Some(r.vlrMeta)
  }

  /**
   * A brand with a target for the row's year and month gets the value of one
   * such target: COALESCE leaves 0 only in place of a NULL value.
   */
  ghost predicate TargetReachesRow(db: TrustedDb, r: Performance) {
    forall mt :: mt in db.meta && TargetOf(mt, r.id, r.ano, r.mes) ==>
      exists m2 :: m2 in db.meta && TargetOf(m2, r.id, r.ano, r.mes) && Coalesce(m2.valor, 0) == r.vlrMeta
  }

  /** vlr_meta is the matching target's value, or 0 exactly when no target supplies one, and the percentage agrees with it. */
  lemma PerformanceColumns(db: TrustedDb, j: int)
    requires 0 <= j < |PerformanceTable(db)|
    ensures MetaFromTarget(db, PerformanceTable(db)[j])
    ensures TargetReachesRow(db, PerformanceTable(db)[j])
    ensures AttainmentConsistent(PerformanceTable(db)[j])
  {
    var sales := BrandSales(db);
    var ks := GroupKeys(sales, BrandMonthOf);
    var k := ks[j];
    var r := PerformanceTable(db)[j];
    assert r == GroupRow(sales, k);
    GroupRowAttainment(sales, k);
    if r.vlrMeta != 0 {
      assert k in ks;
      var i :| 0 <= i < |sales| && BrandMonthOf(sales[i]) == k;
      BrandSaleSources(db, i);
      var mt := sales[i].mt.value;
      assert mt in db.meta && mt.idMarca == r.id && mt.ano == r.ano && mt.mes == r.mes && mt.valor == Some(r.vlrMeta);
    }
    forall mt | mt in db.meta && TargetOf(mt, r.id, r.ano, r.mes)
      ensures exists m2 :: m2 in db.meta && TargetOf(m2, r.id, r.ano, r.mes) && Coalesce(m2.valor, 0) == r.vlrMeta
    {
      assert k in ks;
      var i :| 0 <= i < |sales| && BrandMonthOf(sales[i]) == k;
      SaleFindsTarget(db, i, mt);
      BrandSaleSources(db, i);
      var m2 := sales[i].mt.value;
      assert m2 in db.meta && TargetOf(m2, r.id, r.ano, r.mes) && Coalesce(m2.valor, 0) == r.vlrMeta;
    }
  }

  /** The columns a row is told apart by: the GROUP BY list, with COALESCE applied to the target value. */
  type PerformanceKey = (Option<int>, Option<int>, Option<int>, Option<string>, int)

  function KeyOf(r: Performance): PerformanceKey {
    (r.ano, r.mes, r.id, r.nomeMarca, r.vlrMeta)
  }

  function SaleKeyOf(s: BrandSale): PerformanceKey {
    (s.d.ano, s.d.mes, s.m.id, s.m.nome, Coalesce(MetaValor(s), 0))
  }

  /** The columns of the row built for GROUP BY key g. */
  function RowKey(g: BrandMonth): PerformanceKey {
    (g.0, g.1, g.2, g.3, Coalesce(g.4, 0))
  }

  lemma BuildKey(sales: seq<BrandSale>, j: int)
    requires 0 <= j < |Build(sales)|
    ensures |Build(sales)| == |GroupKeys(sales, BrandMonthOf)|
    ensures KeyOf(Build(sales)[j]) == RowKey(GroupKeys(sales, BrandMonthOf)[j])
  {
  }

  lemma BuildGroups(sales: seq<BrandSale>)
    ensures forall k :: k in Keys(Build(sales), KeyOf) <==> k in Keys(sales, SaleKeyOf)
  {
    var ks := GroupKeys(sales, BrandMonthOf);
    var rows := Keys(Build(sales), KeyOf);
    var all := Keys(sales, SaleKeyOf);
    forall k | k in rows ensures k in all {
      var j :| 0 <= j < |rows| && rows[j] == k;
      BuildKey(sales, j);
      assert ks[j] in ks;
      var i :| 0 <= i < |sales| && BrandMonthOf(sales[i]) == ks[j];
      assert all[i] == RowKey(BrandMonthOf(sales[i]));
    }
    forall k | k in all ensures k in rows {
      var i :| 0 <= i < |all| && all[i] == k;
      assert BrandMonthOf(sales[i]) in ks;
      var j :| 0 <= j < |ks| && ks[j] == BrandMonthOf(sales[i]);
      BuildKey(sales, j);
      assert rows[j] == k;
    }
  }

  /** One row per (year, month, brand, name, target) that occurs among the joined sales, and no other. */
  lemma PerformanceGroups(db: TrustedDb)
    ensures forall k :: k in Keys(PerformanceTable(db), KeyOf) <==> k in Keys(BrandSales(db), SaleKeyOf)
  {
    BuildGroups(BrandSales(db));
  }

  /**
   * Two rows share their columns only when GROUP BY mt.valor kept a NULL
   * target value apart from a target of 0 for the same brand and month.
   */
  lemma PerformanceAlike(db: TrustedDb, i: int, j: int)
    requires 0 <= i < j < |PerformanceTable(db)|
    requires KeyOf(PerformanceTable(db)[i]) == KeyOf(PerformanceTable(db)[j])
    ensures PerformanceTable(db)[i].vlrMeta == 0
    ensures exists mt :: mt in db.meta && mt.valor.None? &&
                         TargetOf(mt, PerformanceTable(db)[i].id, PerformanceTable(db)[i].ano, PerformanceTable(db)[i].mes)
  {
    var sales := BrandSales(db);
    var ks := GroupKeys(sales, BrandMonthOf);
    BuildKey(sales, i);
    BuildKey(sales, j);
    assert ks[i] != ks[j];
    var lo := if ks[i].4.None? then i else j;
    var hi := if ks[i].4.None? then j else i;
    assert ks[lo].4.None? && ks[hi].4.Some?;
    assert ks[lo] in ks && ks[hi] in ks;
    var a :| 0 <= a < |sales| && BrandMonthOf(sales[a]) == ks[lo];
    var b :| 0 <= b < |sales| && BrandMonthOf(sales[b]) == ks[hi];
    NullTargetBeside(db, a, b);
  }

  /** When every target has a value, no two rows of the table share their columns. */
  lemma PerformanceUnique(db: TrustedDb)
    requires forall mt :: mt in db.meta ==> mt.valor.Some?
    ensures NoDuplicates(Keys(PerformanceTable(db), KeyOf))
  {
    var t := PerformanceTable(db);
    forall i, j | 0 <= i < j < |Keys(t, KeyOf)|
      ensures Keys(t, KeyOf)[i] != Keys(t, KeyOf)[j]
    {
      if KeyOf(t[i]) == KeyOf(t[j]) {
        PerformanceAlike(db, i, j);
        assert false;
      }
    }
  }

  /** SUM(vlr_total_vendido) is the order total counted once per joined item row. */
  lemma PerformanceTotal(db: TrustedDb)
    ensures SumOf(PerformanceTable(db), VlrTotalVendido) == SumOf(BrandSales(db), OrderTotal)
  {
    var sales := BrandSales(db);
    var ks := GroupKeys(sales, BrandMonthOf);
    SumOverGroups(ks, sales, BrandMonthOf, OrderTotal, Build(sales), VlrTotalVendido);
    SumRegroup(sales, BrandMonthOf, OrderTotal);
  }

  /** No negative order total and no negative target: no negative figure in the table. */
  lemma PerformanceNonNegative(db: TrustedDb, j: int)
    requires forall p :: p in db.pedido && p.vlrTotal.Some? ==> p.vlrTotal.value >= 0
    requires forall mt :: mt in db.meta && mt.valor.Some? ==> mt.valor.value >= 0
    requires 0 <= j < |PerformanceTable(db)|
    ensures PerformanceTable(db)[j].vlrMeta >= 0
    ensures PerformanceTable(db)[j].vlrTotalVendido.Some? ==> PerformanceTable(db)[j].vlrTotalVendido.value >= 0
  {
    var sales := BrandSales(db);
    var ks := GroupKeys(sales, BrandMonthOf);
    var k := ks[j];
    var group := FilterKey(sales, BrandMonthOf, k);
    forall i | 0 <= i < |group| && OrderTotal(group[i]).Some?
      ensures OrderTotal(group[i]).value >= 0
    {
      assert group[i] in group;
      var n :| 0 <= n < |sales| && sales[n] == group[i];
      BrandSaleSources(db, n);
    }
    SumOfNonNegative(group, OrderTotal);
    if k.4.Some? {
      assert k in ks;
      var n :| 0 <= n < |sales| && BrandMonthOf(sales[n]) == k;
      BrandSaleSources(db, n);
    }
  }
}
