/**
 * refined.analise_cancelamentos: cancelled business per month, delivery state
 * and brand. A joined item row takes part when its order is cancelled or the
 * item itself is flagged as cancelled.
 */
module CancellationAnalysis {
  import opened Sql
  import opened Trusted

  datatype Cancellation = Cancellation(mesAno: Option<YearMonth>, sglUfEntrega: Option<string>, marca: Option<string>,
                                       qtdPedidosCancelados: nat, vlrTotalCancelado: Option<int>,
                                       qtdItensCancelados: nat, ticketMedioCancelado: Option<int>)

  /** An item with its order, product and brand. */
  type BrandedSale = (((Pedido, PedidoItem), Produto), Marca)

  /** ON m.id = pr.id_marca */
  predicate MarcaOfProduto(s: ((Pedido, PedidoItem), Produto), m: Marca) {
    SqlEq(m.id, s.1.idMarca)
  }

  /** WHERE p.status = 'CANCELADO' OR i.flg_cancelado = 'S' */
  predicate IsCancellation(s: BrandedSale) {
    OrderCancelled(s.0.0.0) || FlaggedCancelled(s.0.0.1)
  }

  /** The rows the query aggregates: joined item rows of a cancelled order or of a cancelled item, and only those. */
  function CancelledSales(db: TrustedDb): (r: seq<BrandedSale>)
    ensures forall p, i, pr, m :: (((p, i), pr), m) in r <==>
      && p in db.pedido && i in db.pedidoItem && pr in db.produto && m in db.marca
      && ItemOfPedido(p, i) && ProdutoOfItem((p, i), pr) && MarcaOfProduto(((p, i), pr), m)
      && (OrderCancelled(p) || FlaggedCancelled(i))
  {
    Filter(Join(Vendas(db), db.marca, MarcaOfProduto), IsCancellation)
  }

  /** GROUP BY DATE_TRUNC('month', p.data), p.sgl_uf_entrega, m.nome */
  type StateBrandMonth = (Option<YearMonth>, Option<string>, Option<string>)

  function StateBrandMonthOf(s: BrandedSale): StateBrandMonth {
    (MonthOf(s.0.0.0.data), s.0.0.0.sglUfEntrega, s.1.nome)
  }

  function SaleOrderId(s: BrandedSale): Option<int> {
    s.0.0.0.id
  }

  function SaleItemId(s: BrandedSale): Option<int> {
    s.0.0.1.id
  }

  function SaleOrderTotal(s: BrandedSale): Option<int> {
    s.0.0.0.vlrTotal
  }

  function GroupRow(sales: seq<BrandedSale>, k: StateBrandMonth): Cancellation {
    var g := FilterKey(sales, StateBrandMonthOf, k);
    Cancellation(k.0, k.1, k.2, CountDistinct(Keys(g, SaleOrderId)), SumOf(g, SaleOrderTotal),
                 CountDistinct(Keys(g, SaleItemId)), RoundedAvg(g, SaleOrderTotal))
  }

  /** The table the job creates from the trusted layer. */
  function CancellationTable(db: TrustedDb): seq<Cancellation> {
    var sales := CancelledSales(db);
    var ks := GroupKeys(sales, StateBrandMonthOf);
    seq(|ks|, j requires 0 <= j < |ks| => GroupRow(sales, ks[j]))
  }

  function KeyOf(c: Cancellation): StateBrandMonth {
    (c.mesAno, c.sglUfEntrega, c.marca)
  }

  function VlrTotalCancelado(c: Cancellation): Option<int> {
    c.vlrTotalCancelado
  }

  // ---------------------------------------------------------------
  // The job's output
  // ---------------------------------------------------------------

  lemma CancellationKeys(db: TrustedDb)
    ensures Keys(CancellationTable(db), KeyOf) == GroupKeys(CancelledSales(db), StateBrandMonthOf)
  {
  }

  /**
   * One row per (month, state, brand) in which some order was cancelled or
   * some item was flagged as cancelled, and no other.
   */
  lemma CancellationGroups(db: TrustedDb)
    ensures NoDuplicates(Keys(CancellationTable(db), KeyOf))
    ensures forall k :: k in Keys(CancellationTable(db), KeyOf) <==> k in Keys(CancelledSales(db), StateBrandMonthOf)
  {
    var sales := CancelledSales(db);
    CancellationKeys(db);
    GroupKeysCover(sales, StateBrandMonthOf);
  }

  /** Every row stands for at least one cancelled order: the join never lets a NULL order id through. */
  lemma CancellationHasOrder(db: TrustedDb, j: int)
    requires 0 <= j < |CancellationTable(db)|
    ensures CancellationTable(db)[j].qtdPedidosCancelados >= 1
  {
    var sales := CancelledSales(db);
    var ks := GroupKeys(sales, StateBrandMonthOf);
    var k := ks[j];
    assert k in ks;
    var n :| 0 <= n < |sales| && StateBrandMonthOf(sales[n]) == k;
    var s := sales[n];
    assert s in sales;
    assert ItemOfPedido(s.0.0.0, s.0.0.1);
    var g := FilterKey(sales, StateBrandMonthOf, k);
    assert s in g;
    var i :| 0 <= i < |g| && g[i] == s;
    CountDistinctPositive(Keys(g, SaleOrderId), i);
  }

  /** The cancelled value adds up to every qualifying row's order total. */
  lemma CancellationTotal(db: TrustedDb)
    ensures SumOf(CancellationTable(db), VlrTotalCancelado) == SumOf(CancelledSales(db), SaleOrderTotal)
  {
    var sales := CancelledSales(db);
    var ks := GroupKeys(sales, StateBrandMonthOf);
    SumOverGroups(ks, sales, StateBrandMonthOf, SaleOrderTotal, CancellationTable(db), VlrTotalCancelado);
    SumRegroup(sales, StateBrandMonthOf, SaleOrderTotal);
  }
}
