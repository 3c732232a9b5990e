/**
 * refined.analise_regional: sales per month and delivery state. Orders are
 * left-joined to their non-cancelled items and those to their products, and
 * orders without a delivery state are left out.
 */
module RegionalAnalysis {
  import opened Sql
  import opened Trusted

  datatype Regional = Regional(mesAno: Option<YearMonth>, sglUfEntrega: Option<string>, qtdPedidos: nat,
                               receitaTotal: Option<int>, ticketMedio: Option<int>, qtdItens: Option<int>,
                               qtdProdutosDistintos: nat, qtdMarcasDistintas: nat)

  /** A row of ... LEFT JOIN pedido_item i ... LEFT JOIN produto pr ON pr.id = i.id_produto. */
  type Line = ((Pedido, Option<PedidoItem>), Option<Produto>)

  /** ON pr.id = i.id_produto, where a missing item matches no product. */
  predicate ProdutoOfLine(l: (Pedido, Option<PedidoItem>), pr: Produto) {
    l.1.Some? && SqlEq(pr.id, l.1.value.idProduto)
  }

  /** WHERE p.sgl_uf_entrega IS NOT NULL */
  predicate HasUf(l: Line) {
    l.0.0.sglUfEntrega.Some?
  }

  function RegionalLines(db: TrustedDb): seq<Line> {
    Filter(LeftJoin(OrderLines(db), db.produto, ProdutoOfLine), HasUf)
  }

  /** GROUP BY DATE_TRUNC('month', p.data), p.sgl_uf_entrega */
  type StateMonth = (Option<YearMonth>, Option<string>)

  function StateMonthOf(l: Line): StateMonth {
    (MonthOf(l.0.0.data), l.0.0.sglUfEntrega)
  }

  function LineOrderId(l: Line): Option<int> {
    l.0.0.id
  }

  function LineTotal(l: Line): Option<int> {
    l.0.0.vlrTotal
  }

  function LineQty(l: Line): Option<int> {
    if l.0.1.Some? then l.0.1.value.qtdProduto else None
  }

  function LineProduto(l: Line): Option<int> {
    if l.0.1.Some? then l.0.1.value.idProduto else None
  }

  function LineMarca(l: Line): Option<int> {
    if l.1.Some? then l.1.value.idMarca else None
  }

  function GroupRow(lines: seq<Line>, k: StateMonth): Regional {
    var g := FilterKey(lines, StateMonthOf, k);
    Regional(k.0, k.1, CountDistinct(Keys(g, LineOrderId)), SumOf(g, LineTotal), RoundedAvg(g, LineTotal),
             SumOf(g, LineQty), CountDistinct(Keys(g, LineProduto)), CountDistinct(Keys(g, LineMarca)))
  }

  /** The table the job creates from the trusted layer. */
  function RegionalTable(db: TrustedDb): seq<Regional> {
    var lines := RegionalLines(db);
    var ks := GroupKeys(lines, StateMonthOf);
    seq(|ks|, j requires 0 <= j < |ks| => GroupRow(lines, ks[j]))
  }

  function KeyOf(r: Regional): StateMonth {
    (r.mesAno, r.sglUfEntrega)
  }

  function ReceitaTotal(r: Regional): Option<int> {
    r.receitaTotal
  }

  // ---------------------------------------------------------------
  // The job's output
  // ---------------------------------------------------------------

  lemma RegionalKeys(db: TrustedDb)
    ensures Keys(RegionalTable(db), KeyOf) == GroupKeys(RegionalLines(db), StateMonthOf)
  {
  }

  /** Every joined row carries an order of the trusted table. */
  lemma LineOrder(db: TrustedDb, l: Line)
    requires l in LeftJoin(OrderLines(db), db.produto, ProdutoOfLine)
    ensures l.0.0 in db.pedido
  {
    LeftJoinRow(OrderLines(db), db.produto, ProdutoOfLine, l);
    LeftJoinRow(db.pedido, db.pedidoItem, LiveItemOf, l.0);
  }

  /** Both LEFT JOINs keep every order. */
  lemma OrderKept(db: TrustedDb, p: Pedido) returns (l: Line)
    requires p in db.pedido
    ensures l in LeftJoin(OrderLines(db), db.produto, ProdutoOfLine) && l.0.0 == p
  {
    var o: (Pedido, Option<PedidoItem>);
    if HasMatch(p, db.pedidoItem, LiveItemOf) {
      var n :| 0 <= n < |db.pedidoItem| && LiveItemOf(p, db.pedidoItem[n]);
      o := (p, Some(db.pedidoItem[n]));
    } else {
      o := (p, None);
    }
    assert o in OrderLines(db);
    if HasMatch(o, db.produto, ProdutoOfLine) {
      var n :| 0 <= n < |db.produto| && ProdutoOfLine(o, db.produto[n]);
      l := (o, Some(db.produto[n]));
    } else {
      l := (o, None);
    }
  }

  /** Order `p` has a delivery state and falls in group `k`. */
  predicate OrderInGroup(p: Pedido, k: StateMonth) {
    p.sglUfEntrega.Some? && MonthOf(p.data) == k.0 && p.sglUfEntrega == k.1
  }

  lemma GroupHasOrder(db: TrustedDb, k: StateMonth) returns (p: Pedido)
    requires k in GroupKeys(RegionalLines(db), StateMonthOf)
    ensures p in db.pedido && OrderInGroup(p, k)
  {
    var lines := RegionalLines(db);
    var i :| 0 <= i < |lines| && StateMonthOf(lines[i]) == k;
    assert lines[i] in lines;
    LineOrder(db, lines[i]);
    p := lines[i].0.0;
  }

  lemma OrderHasGroup(db: TrustedDb, p: Pedido, k: StateMonth)
    requires p in db.pedido && OrderInGroup(p, k)
    ensures k in GroupKeys(RegionalLines(db), StateMonthOf)
  {
    var lines := RegionalLines(db);
    var l := OrderKept(db, p);
    assert l in lines;
    var i :| 0 <= i < |lines| && lines[i] == l;
    assert StateMonthOf(lines[i]) == k;
  }

  /** One row per (month, state) of an order that has a state, and no other. */
  lemma RegionalGroups(db: TrustedDb)
    ensures NoDuplicates(Keys(RegionalTable(db), KeyOf))
    ensures forall k :: k in Keys(RegionalTable(db), KeyOf) <==> exists p :: p in db.pedido && OrderInGroup(p, k)
  {
    var ks := GroupKeys(RegionalLines(db), StateMonthOf);
    RegionalKeys(db);
    forall k ensures k in ks <==> exists p :: p in db.pedido && OrderInGroup(p, k) {
      if k in ks {
        var p := GroupHasOrder(db, k);
      }
      if exists p :: p in db.pedido && OrderInGroup(p, k) {
        var p :| p in db.pedido && OrderInGroup(p, k);
        OrderHasGroup(db, p, k);
      }
    }
  }

  /** No row has a NULL state. */
  lemma RegionalStates(db: TrustedDb, j: int)
    requires 0 <= j < |RegionalTable(db)|
    ensures RegionalTable(db)[j].sglUfEntrega.Some?
  {
    var ks := GroupKeys(RegionalLines(db), StateMonthOf);
    assert ks[j] in ks;
    var p := GroupHasOrder(db, ks[j]);
  }

  /** The regional revenue adds up to the order totals of every joined row of an order with a state. */
  lemma RegionalTotal(db: TrustedDb)
    ensures SumOf(RegionalTable(db), ReceitaTotal) == SumOf(RegionalLines(db), LineTotal)
  {
    var lines := RegionalLines(db);
    var ks := GroupKeys(lines, StateMonthOf);
    SumOverGroups(ks, lines, StateMonthOf, LineTotal, RegionalTable(db), ReceitaTotal);
    SumRegroup(lines, StateMonthOf, LineTotal);
  }
}
