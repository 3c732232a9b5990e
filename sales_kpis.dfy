/**
 * refined.kpis_vendas: one row of sales indicators per calendar month. Every
 * order is left-joined to its non-cancelled items, so the order-level sums
 * and averages take an order once per joined item row (once when it has no
 * such item), exactly as the query does.
 */
module SalesKpis {
  import opened Sql
  import opened Trusted

  datatype Kpi = Kpi(mesAno: Option<YearMonth>, qtdPedidos: nat, receitaBruta: Option<int>, ticketMedio: Option<int>,
                     qtdCancelamentos: nat, pctCancelamento: Option<int>,
                     qtdProdutosDistintos: nat, qtdItensVendidos: Option<int>)

  /** A row of pedido p LEFT JOIN pedido_item i ON i.id_pedido = p.id AND i.flg_cancelado = 'N'. */
  type Line = (Pedido, Option<PedidoItem>)

  /** GROUP BY DATE_TRUNC('month', p.data) */
  function LineMonth(l: Line): Option<YearMonth> {
    MonthOf(l.0.data)
  }

  function LineOrderId(l: Line): Option<int> {
    l.0.id
  }

  /** CASE WHEN p.status = 'CANCELADO' THEN p.id END */
  function CancelledOrderId(l: Line): Option<int> {
    if OrderCancelled(l.0) then l.0.id else None
  }

  function LineTotal(l: Line): Option<int> {
    l.0.vlrTotal
  }

  function LineProduto(l: Line): Option<int> {
    if l.1.Some? then l.1.value.idProduto else None
  }

  function LineQty(l: Line): Option<int> {
    if l.1.Some? then l.1.value.qtdProduto else None
  }

  /**
   * ROUND(cancelled::NUMERIC / NULLIF(orders, 0) * 100, 2), in hundredths of
   * a percent: NULL without orders, otherwise within half a hundredth of the
   * exact rate, and inside [0, 100] % when the cancellations are among the orders.
   */
  function CancellationRate(canc: nat, pedidos: nat): (pct: Option<int>)
    ensures pct.None? <==> pedidos == 0
    ensures pct.Some? ==> 2 * Abs(pct.value * pedidos - 10000 * canc) <= pedidos
    ensures pct.Some? && canc <= pedidos ==> 0 <= pct.value <= 10000
  {
    if pedidos == 0 then None
    else
      RoundDivWithin(10000 * canc, pedidos);
      assert canc <= pedidos ==> 0 <= RoundDiv(10000 * canc, pedidos) <= 10000 by {
        if canc <= pedidos {
          RoundDivBounds(10000 * canc, pedidos, 10000);
        }
      }
      Some(RoundDiv(10000 * canc, pedidos))
  }

  function GroupRow(lines: seq<Line>, m: Option<YearMonth>): Kpi {
    var g := FilterKey(lines, LineMonth, m);
    var pedidos := CountDistinct(Keys(g, LineOrderId));
    var canc := CountDistinct(Keys(g, CancelledOrderId));
    Kpi(m, pedidos, SumOf(g, LineTotal), RoundedAvg(g, LineTotal), canc, CancellationRate(canc, pedidos),
        CountDistinct(Keys(g, LineProduto)), SumOf(g, LineQty))
  }

  /** The table the job creates from the trusted layer. */
  function KpiTable(db: TrustedDb): seq<Kpi> {
    var lines := OrderLines(db);
    var ks := GroupKeys(lines, LineMonth);
    seq(|ks|, j requires 0 <= j < |ks| => GroupRow(lines, ks[j]))
  }

  function KpiMonth(k: Kpi): Option<YearMonth> {
    k.mesAno
  }

  function ReceitaBruta(k: Kpi): Option<int> {
    k.receitaBruta
  }

  function ItensVendidos(k: Kpi): Option<int> {
    k.qtdItensVendidos
  }

  // ---------------------------------------------------------------
  // The job's output
  // ---------------------------------------------------------------

  /** Cancelled orders are among the month's orders, and the rate is their share of them. */
  predicate RateConsistent(k: Kpi) {
    && k.qtdCancelamentos <= k.qtdPedidos
    && (k.pctCancelamento.None? <==> k.qtdPedidos == 0)
    && (k.pctCancelamento.Some? ==>
          && 0 <= k.pctCancelamento.value <= 10000
          && 2 * Abs(k.pctCancelamento.value * k.qtdPedidos - 10000 * k.qtdCancelamentos) <= k.qtdPedidos)
  }

  lemma CancelledAmongOrders(g: seq<Line>)
    ensures CountDistinct(Keys(g, CancelledOrderId)) <= CountDistinct(Keys(g, LineOrderId))
  {
    var c := Keys(g, CancelledOrderId);
    var o := Keys(g, LineOrderId);
    forall i | 0 <= i < |c| && c[i].Some?
      ensures c[i] in o
    {
      assert c[i] == o[i];
    }
    CountDistinctSubset(c, o);
  }

  /** Every month: qtd_cancelamentos <= qtd_pedidos and pct_cancelamento is their rounded ratio, in [0, 100] %. */
  lemma KpiCancellations(db: TrustedDb, j: int)
    requires 0 <= j < |KpiTable(db)|
    ensures RateConsistent(KpiTable(db)[j])
  {
    var lines := OrderLines(db);
    var ks := GroupKeys(lines, LineMonth);
    CancelledAmongOrders(FilterKey(lines, LineMonth, ks[j]));
  }

  /** Every joined row carries an order of the trusted table. */
  lemma LineOrder(db: TrustedDb, l: Line)
    requires l in OrderLines(db)
    ensures l.0 in db.pedido
  {
    LeftJoinRow(db.pedido, db.pedidoItem, LiveItemOf, l);
  }

  /** The LEFT JOIN keeps every order: with a matching item, or alone. */
  lemma OrderKept(db: TrustedDb, p: Pedido) returns (i: int)
    requires p in db.pedido
    ensures 0 <= i < |OrderLines(db)| && OrderLines(db)[i].0 == p
  {
    var lines := OrderLines(db);
    var l: Line;
    if HasMatch(p, db.pedidoItem, LiveItemOf) {
      var n :| 0 <= n < |db.pedidoItem| && LiveItemOf(p, db.pedidoItem[n]);
      l := (p, Some(db.pedidoItem[n]));
    } else {
      l := (p, None);
    }
    assert l in lines;
    i :| 0 <= i < |lines| && lines[i] == l;
  }

  lemma KpiKeys(db: TrustedDb)
    ensures Keys(KpiTable(db), KpiMonth) == GroupKeys(OrderLines(db), LineMonth)
  {
  }

  /** One row per month in which some order was placed (a NULL date forms its own month), and no other. */
  lemma KpiMonths(db: TrustedDb)
    ensures NoDuplicates(Keys(KpiTable(db), KpiMonth))
    ensures forall m :: m in Keys(KpiTable(db), KpiMonth) <==> exists p :: p in db.pedido && MonthOf(p.data) == m
  {
    var lines := OrderLines(db);
    var ks := GroupKeys(lines, LineMonth);
    KpiKeys(db);
    forall m ensures m in ks <==> exists p :: p in db.pedido && MonthOf(p.data) == m {
      if m in ks {
        var i :| 0 <= i < |lines| && LineMonth(lines[i]) == m;
        LineOrder(db, lines[i]);
      }
      if exists p :: p in db.pedido && MonthOf(p.data) == m {
        var p :| p in db.pedido && MonthOf(p.data) == m;
        var i := OrderKept(db, p);
        assert LineMonth(lines[i]) == m;
      }
    }
  }

  /**
   * The monthly revenue and item counts add up to the sums over the joined
   * rows: every non-cancelled item's quantity once, and every order's total
   * once per non-cancelled item (once when it has none).
   */
  lemma KpiTotals(db: TrustedDb)
    ensures SumOf(KpiTable(db), ItensVendidos) == SumOf(OrderLines(db), LineQty)
    ensures SumOf(KpiTable(db), ReceitaBruta) == SumOf(OrderLines(db), LineTotal)
  {
    var lines := OrderLines(db);
    var ks := GroupKeys(lines, LineMonth);
    SumOverGroups(ks, lines, LineMonth, LineQty, KpiTable(db), ItensVendidos);
    SumRegroup(lines, LineMonth, LineQty);
    SumOverGroups(ks, lines, LineMonth, LineTotal, KpiTable(db), ReceitaBruta);
    SumRegroup(lines, LineMonth, LineTotal);
  }
}
