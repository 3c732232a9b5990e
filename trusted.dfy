/**
 * The trusted layer: the six tables the loader fills and every later step
 * reads. Every column is nullable, as in the warehouse (a NOT NULL rule is a
 * check of the validator, not a constraint of the table). Money is in integer
 * cents; `data` is a calendar date.
 */
module Trusted {
  import opened Sql

  /** trusted.marca */
  datatype Marca = Marca(id: Option<int>, nome: Option<string>)

  /** trusted.produto */
  datatype Produto = Produto(id: Option<int>, nome: Option<string>, idMarca: Option<int>, categoria: Option<string>)

  /** trusted.data: the calendar dimension, keyed by `data`. */
  datatype Data = Data(data: Option<Date>, ano: Option<int>, mes: Option<int>, dia: Option<int>)

  /** trusted.pedido: `vlrTotal` in cents. */
  datatype Pedido = Pedido(id: Option<int>, data: Option<Date>, sglUfEntrega: Option<string>,
                           vlrTotal: Option<int>, status: Option<string>)

  /** trusted.pedido_item: `vlrUnitario` in cents, `flgCancelado` is 'S' or 'N'. */
  datatype PedidoItem = PedidoItem(id: Option<int>, idPedido: Option<int>, idProduto: Option<int>,
                                   qtdProduto: Option<int>, vlrUnitario: Option<int>, flgCancelado: Option<string>)

  /** trusted.meta: a brand's sales target for one month, `valor` in cents. */
  datatype Meta = Meta(idMarca: Option<int>, ano: Option<int>, mes: Option<int>, valor: Option<int>)

  datatype TrustedDb = TrustedDb(marca: seq<Marca>, produto: seq<Produto>, data: seq<Data>,
                                 pedido: seq<Pedido>, pedidoItem: seq<PedidoItem>, meta: seq<Meta>)

  const CANCELADO: string := "CANCELADO"

  /** i.flg_cancelado = 'N' (a NULL flag is neither 'N' nor 'S'). */
  predicate NotCancelled(i: PedidoItem) {
    i.flgCancelado == Some("N")
  }

  /** i.flg_cancelado = 'S' */
  predicate FlaggedCancelled(i: PedidoItem) {
    i.flgCancelado == Some("S")
  }

  /** p.status = 'CANCELADO' */
  predicate OrderCancelled(p: Pedido) {
    p.status == Some(CANCELADO)
  }

  /** ON i.id_pedido = p.id */
  predicate ItemOfPedido(p: Pedido, i: PedidoItem) {
    SqlEq(i.idPedido, p.id)
  }

  /** trusted.pedido p JOIN trusted.pedido_item i ON i.id_pedido = p.id */
  function PedidoItens(db: TrustedDb): (r: seq<(Pedido, PedidoItem)>)
    ensures forall p, i :: (p, i) in r <==> p in db.pedido && i in db.pedidoItem && ItemOfPedido(p, i)
  {
    Join(db.pedido, db.pedidoItem, ItemOfPedido)
  }

  /** ON i.id_pedido = p.id AND i.flg_cancelado = 'N' */
  predicate LiveItemOf(p: Pedido, i: PedidoItem) {
    ItemOfPedido(p, i) && NotCancelled(i)
  }

  /** pedido p LEFT JOIN pedido_item i ON i.id_pedido = p.id AND i.flg_cancelado = 'N' */
  function OrderLines(db: TrustedDb): (r: seq<(Pedido, Option<PedidoItem>)>)
    ensures forall p, i :: (p, Some(i)) in r <==> p in db.pedido && i in db.pedidoItem && LiveItemOf(p, i)
    ensures forall p :: (p, None) in r <==> p in db.pedido && !HasMatch(p, db.pedidoItem, LiveItemOf)
  {
    LiveItemPairs(db);
    LeftJoin(db.pedido, db.pedidoItem, LiveItemOf)
  }

  lemma LiveItemPairs(db: TrustedDb)
    ensures forall p, i :: (p, Some(i)) in LeftJoin(db.pedido, db.pedidoItem, LiveItemOf) <==>
      p in db.pedido && i in db.pedidoItem && LiveItemOf(p, i)
  {
    forall p, i
      ensures (p, Some(i)) in LeftJoin(db.pedido, db.pedidoItem, LiveItemOf) <==>
        p in db.pedido && i in db.pedidoItem && LiveItemOf(p, i)
    {
      if (p, Some(i)) in LeftJoin(db.pedido, db.pedidoItem, LiveItemOf) {
        LeftJoinRow(db.pedido, db.pedidoItem, LiveItemOf, (p, Some(i)));
      }
    }
  }

  /** ON pr.id = i.id_produto */
  predicate ProdutoOfItem(pi: (Pedido, PedidoItem), pr: Produto) {
    SqlEq(pr.id, pi.1.idProduto)
  }

  /** pedido p JOIN pedido_item i ON i.id_pedido = p.id JOIN produto pr ON pr.id = i.id_produto */
  function Vendas(db: TrustedDb): (r: seq<((Pedido, PedidoItem), Produto)>)
    ensures forall p, i, pr :: ((p, i), pr) in r <==>
      p in db.pedido && i in db.pedidoItem && pr in db.produto && ItemOfPedido(p, i) && ProdutoOfItem((p, i), pr)
  {
    Join(PedidoItens(db), db.produto, ProdutoOfItem)
  }

  /** qtd_produto * vlr_unitario, NULL when either is NULL. */
  function LineValue(i: PedidoItem): Option<int> {
    if i.qtdProduto.Some? && i.vlrUnitario.Some? then Some(i.qtdProduto.value * i.vlrUnitario.value) else None
  }
}
