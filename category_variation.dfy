/**
 * refined.vendas_categoria_variacao: monthly quantity and value sold per
 * product category (non-cancelled items only), with the month-over-month
 * change in each, as a percentage of the category's previous month, in
 * hundredths of a percent.
 */
module CategoryVariation {
  import opened Sql
  import opened Trusted

  /** The category given to products without one. */
  const SEM_CATEGORIA: string := "Sem Categoria"

  /** A row of the intermediate result vendas_mensais. */
  datatype MonthlySales = MonthlySales(mesAno: Option<YearMonth>, categoria: string,
                                       totalQtd: Option<int>, totalValor: Option<int>)

  datatype Variation = Variation(mesAno: Option<YearMonth>, categoria: string,
                                 totalQtd: Option<int>, totalValor: Option<int>,
                                 pctVariacaoQtd: Option<int>, pctVariacaoValor: Option<int>)

  type Sale = ((Pedido, PedidoItem), Produto)

  /** WHERE i.flg_cancelado = 'N' */
  predicate LiveSale(s: Sale) {
    NotCancelled(s.0.1)
  }

  function LiveSales(db: TrustedDb): (r: seq<Sale>)
    ensures forall s :: s in r <==> s in Vendas(db) && NotCancelled(s.0.1)
  {
    Filter(Vendas(db), LiveSale)
  }

  /** COALESCE(pr.categoria, 'Sem Categoria') */
  function CategoryOf(pr: Produto): string {
    Coalesce(pr.categoria, SEM_CATEGORIA)
  }

  /** GROUP BY DATE_TRUNC('month', p.data), COALESCE(pr.categoria, 'Sem Categoria') */
  type CategoryMonth = (Option<YearMonth>, string)

  function CategoryMonthOf(s: Sale): CategoryMonth {
    (MonthOf(s.0.0.data), CategoryOf(s.1))
  }

  function SaleQty(s: Sale): Option<int> {
    s.0.1.qtdProduto
  }

  function SaleValue(s: Sale): Option<int> {
    LineValue(s.0.1)
  }

  function MonthlyRow(sales: seq<Sale>, k: CategoryMonth): MonthlySales {
    var g := FilterKey(sales, CategoryMonthOf, k);
    MonthlySales(k.0, k.1, SumOf(g, SaleQty), SumOf(g, SaleValue))
  }

  function Monthly(sales: seq<Sale>): seq<MonthlySales> {
    var ks := GroupKeys(sales, CategoryMonthOf);
    seq(|ks|, j requires 0 <= j < |ks| => MonthlyRow(sales, ks[j]))
  }

  function MonthlyKey(r: MonthlySales): CategoryMonth {
    (r.mesAno, r.categoria)
  }

  function MonthlyQty(r: MonthlySales): Option<int> {
    r.totalQtd
  }

  function MonthlyValue(r: MonthlySales): Option<int> {
    r.totalValor
  }

  /** `x` is a row of the same category as `r` whose month sorts before r's (ORDER BY mes_ano, NULLs last). */
  predicate EarlierInCategory(x: MonthlySales, r: MonthlySales) {
    x.categoria == r.categoria && AscBefore(x.mesAno, r.mesAno)
  }

  /**
   * The row LAG(...) OVER (PARTITION BY categoria ORDER BY mes_ano) reads for
   * `r`: the same category's row of the latest month before r's, or none.
   */
  function Previous(ms: seq<MonthlySales>, r: MonthlySales): (p: Option<MonthlySales>)
    ensures p.Some? ==> p.value in ms && EarlierInCategory(p.value, r)
    ensures p.Some? ==> forall x :: x in ms && EarlierInCategory(x, r) ==> !AscBefore(p.value.mesAno, x.mesAno)
    ensures p.None? ==> forall x :: x in ms ==> !EarlierInCategory(x, r)
  {
    if ms == [] then None
    else
      var rest := Previous(ms[1..], r);
      assert forall x :: x in ms <==> x == ms[0] || x in ms[1..] by {
        assert ms == [ms[0]] + ms[1..];
      }
      if EarlierInCategory(ms[0], r) && (rest.None? || !AscBefore(ms[0].mesAno, rest.value.mesAno)) then Some(ms[0])
      else rest
  }

  /**
   * ROUND(CASE WHEN prev IS NOT NULL AND prev > 0 THEN (cur - prev)::NUMERIC / prev * 100
   * ELSE NULL END, 2), in hundredths of a percent.
   */
  function Change(cur: Option<int>, prev: Option<int>): (pct: Option<int>)
    ensures ChangeConsistent(pct, cur, prev)
  {
    if prev.None? || prev.value <= 0 || cur.None? then None
    else
      RoundDivWithin(10000 * (cur.value - prev.value), prev.value);
      Some(RoundDiv(10000 * (cur.value - prev.value), prev.value))
  }

  /**
   * The change is NULL exactly when there is no previous value, the previous
   * value is not positive, or the current one is NULL; otherwise it is within
   * half a hundredth of a percent of (cur - prev) / prev * 100.
   */
  predicate ChangeConsistent(pct: Option<int>, cur: Option<int>, prev: Option<int>) {
    && (pct.None? <==> prev.None? || prev.value <= 0 || cur.None?)
    && (pct.Some? ==> 2 * Abs(pct.value * prev.value - 10000 * (cur.value - prev.value)) <= prev.value)
  }

  function VariationRow(ms: seq<MonthlySales>, r: MonthlySales): Variation {
    var p := Previous(ms, r);
    Variation(r.mesAno, r.categoria, r.totalQtd, r.totalValor,
              Change(r.totalQtd, if p.Some? then p.value.totalQtd else None),
              Change(r.totalValor, if p.Some? then p.value.totalValor else None))
  }

  /** The table the job creates from the trusted layer. */
  function VariationTable(db: TrustedDb): seq<Variation> {
    var ms := Monthly(LiveSales(db));
    seq(|ms|, j requires 0 <= j < |ms| => VariationRow(ms, ms[j]))
  }

  // ---------------------------------------------------------------
  // The monthly totals
  // ---------------------------------------------------------------

  lemma MonthlyKeys(sales: seq<Sale>)
    ensures Keys(Monthly(sales), MonthlyKey) == GroupKeys(sales, CategoryMonthOf)
  {
  }

  /**
   * One monthly row per (month, category) among the sales, and no other; a
   * sale of a product without category is counted under 'Sem Categoria'.
   */
  lemma MonthlyGroups(sales: seq<Sale>)
    ensures NoDuplicates(Keys(Monthly(sales), MonthlyKey))
    ensures forall k :: k in Keys(Monthly(sales), MonthlyKey) <==> k in Keys(sales, CategoryMonthOf)
    ensures forall s :: s in sales && s.1.categoria.None? ==>
      (MonthOf(s.0.0.data), SEM_CATEGORIA) in Keys(Monthly(sales), MonthlyKey)
  {
    MonthlyKeys(sales);
    GroupKeysCover(sales, CategoryMonthOf);
    forall s | s in sales && s.1.categoria.None?
      ensures (MonthOf(s.0.0.data), SEM_CATEGORIA) in GroupKeys(sales, CategoryMonthOf)
    {
      var i :| 0 <= i < |sales| && sales[i] == s;
      assert CategoryMonthOf(sales[i]) == (MonthOf(s.0.0.data), SEM_CATEGORIA);
    }
  }

  /** The monthly quantities and values add up to those of every non-cancelled joined item. */
  lemma MonthlyTotals(db: TrustedDb)
    ensures SumOf(Monthly(LiveSales(db)), MonthlyQty) == SumOf(LiveSales(db), SaleQty)
    ensures SumOf(Monthly(LiveSales(db)), MonthlyValue) == SumOf(LiveSales(db), SaleValue)
  {
    var sales := LiveSales(db);
    var ks := GroupKeys(sales, CategoryMonthOf);
    SumOverGroups(ks, sales, CategoryMonthOf, SaleQty, Monthly(sales), MonthlyQty);
    SumRegroup(sales, CategoryMonthOf, SaleQty);
    SumOverGroups(ks, sales, CategoryMonthOf, SaleValue, Monthly(sales), MonthlyValue);
    SumRegroup(sales, CategoryMonthOf, SaleValue);
  }

  // ---------------------------------------------------------------
  // The variation
  // ---------------------------------------------------------------

  /** `x` is r's category's row for the latest month before r's: nothing of that category lies between them. */
  predicate ImmediatelyBefore(ms: seq<MonthlySales>, x: MonthlySales, r: MonthlySales) {
    && x in ms && EarlierInCategory(x, r)
    && forall y :: y in ms && EarlierInCategory(y, r) ==> !AscBefore(x.mesAno, y.mesAno)
  }

  /** Rows with the same (month, category) are the same row. */
  lemma MonthlyUnique(ms: seq<MonthlySales>, x: MonthlySales, y: MonthlySales)
    requires NoDuplicates(Keys(ms, MonthlyKey))
    requires x in ms && y in ms && MonthlyKey(x) == MonthlyKey(y)
    ensures x == y
  {
    var a :| 0 <= a < |ms| && ms[a] == x;
    var b :| 0 <= b < |ms| && ms[b] == y;
    var ks := Keys(ms, MonthlyKey);
    assert ks[a] == MonthlyKey(x) && ks[b] == MonthlyKey(y);
    NoDuplicatesIndex(ks, a, b);
  }

  /**
   * The variation columns: NULL in a category's first month, and otherwise
   * the rounded change against the category's previous month (NULL when that
   * month's value is NULL or not positive).
   */
  lemma VariationLag(db: TrustedDb, j: int)
    requires 0 <= j < |VariationTable(db)|
    ensures var ms := Monthly(LiveSales(db));
      (forall x :: x in ms ==> !EarlierInCategory(x, ms[j])) ==>
        VariationTable(db)[j].pctVariacaoQtd.None? && VariationTable(db)[j].pctVariacaoValor.None?
    ensures var ms := Monthly(LiveSales(db));
      forall x :: ImmediatelyBefore(ms, x, ms[j]) ==>
        && ChangeConsistent(VariationTable(db)[j].pctVariacaoQtd, ms[j].totalQtd, x.totalQtd)
        && ChangeConsistent(VariationTable(db)[j].pctVariacaoValor, ms[j].totalValor, x.totalValor)
  {
    var ms := Monthly(LiveSales(db));
    var r := ms[j];
    var t := VariationTable(db)[j];
    var p := Previous(ms, r);
    assert t == VariationRow(ms, r);
    MonthlyGroups(LiveSales(db));
    forall x | ImmediatelyBefore(ms, x, r)
      ensures ChangeConsistent(t.pctVariacaoQtd, r.totalQtd, x.totalQtd)
      ensures ChangeConsistent(t.pctVariacaoValor, r.totalValor, x.totalValor)
    {
      assert p.Some?;
      assert x.mesAno == p.value.mesAno;
      MonthlyUnique(ms, x, p.value);
    }
  }
}
