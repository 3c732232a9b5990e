/**
 * refined.mais_vendidos_mensal_estado: quantity sold per product, month and
 * delivery state, ranked inside each (month, state) by RANK() over the total
 * quantity, highest first.
 */
module BestSellers {
  import opened Sql
  import opened Trusted

  datatype BestSeller = BestSeller(mesAno: Option<YearMonth>, sglUfEntrega: Option<string>,
                                   idProduto: Option<int>, nomeProduto: Option<string>,
                                   totalQtd: Option<int>, posicao: int)

  type Sale = ((Pedido, PedidoItem), Produto)

  /** GROUP BY DATE_TRUNC('month', p.data), p.sgl_uf_entrega, i.id_produto, pr.nome */
  type ProductMonth = (Option<YearMonth>, Option<string>, Option<int>, Option<string>)

  function ProductMonthOf(s: Sale): ProductMonth {
    (MonthOf(s.0.0.data), s.0.0.sglUfEntrega, s.0.1.idProduto, s.1.nome)
  }

  /** i.qtd_produto: every joined item counts, whatever its cancellation flag. */
  function SaleQty(s: Sale): Option<int> {
    s.0.1.qtdProduto
  }

  function KeyOf(b: BestSeller): ProductMonth {
    (b.mesAno, b.sglUfEntrega, b.idProduto, b.nomeProduto)
  }

  function TotalQtd(b: BestSeller): Option<int> {
    b.totalQtd
  }

  /** SUM(i.qtd_produto) of one group. */
  function GroupQty(sales: seq<Sale>, k: ProductMonth): Option<int> {
    SumOf(FilterKey(sales, ProductMonthOf, k), SaleQty)
  }

  /** PARTITION BY DATE_TRUNC('month', p.data), p.sgl_uf_entrega */
  predicate SamePartition(a: BestSeller, b: BestSeller) {
    a.mesAno == b.mesAno && a.sglUfEntrega == b.sglUfEntrega
  }

  /** `a` comes strictly before `b` in its partition's ORDER BY SUM(...) DESC. */
  predicate Outranks(a: BestSeller, b: BestSeller) {
    SamePartition(a, b) && DescBefore(a.totalQtd, b.totalQtd)
  }

  function RowsAbove(table: seq<BestSeller>, r: BestSeller): nat {
    CountIf(table, x => Outranks(x, r))
  }

  function PartitionSize(table: seq<BestSeller>, r: BestSeller): nat {
    CountIf(table, x => SamePartition(x, r))
  }

  /** Standard competition ranking: one more than the number of rows strictly ahead. */
  ghost predicate CompetitionRanked(table: seq<BestSeller>) {
    forall j :: 0 <= j < |table| ==> table[j].posicao == 1 + RowsAbove(table, table[j])
  }

  /** Group `m` is in the partition of group `k` and sorts strictly before it. */
  predicate GroupAhead(sales: seq<Sale>, m: ProductMonth, k: ProductMonth) {
    m.0 == k.0 && m.1 == k.1 && DescBefore(GroupQty(sales, m), GroupQty(sales, k))
  }

  /** RANK() of group `k` among the groups `ks`. */
  function RankOf(sales: seq<Sale>, ks: seq<ProductMonth>, k: ProductMonth): int {
    1 + CountIf(ks, m => GroupAhead(sales, m, k))
  }

  function Build(sales: seq<Sale>): seq<BestSeller> {
    var ks := GroupKeys(sales, ProductMonthOf);
    seq(|ks|, j requires 0 <= j < |ks| =>
      BestSeller(ks[j].0, ks[j].1, ks[j].2, ks[j].3, GroupQty(sales, ks[j]), RankOf(sales, ks, ks[j])))
  }

  /** The table the job creates from the trusted layer. */
  function BestSellersTable(db: TrustedDb): seq<BestSeller> {
    Build(Vendas(db))
  }

  // ---------------------------------------------------------------
  // The job's output
  // ---------------------------------------------------------------

  /** posicao is 1 + the number of rows of the same partition with a strictly larger total. */
  lemma BestSellersRanked(db: TrustedDb)
    ensures CompetitionRanked(BestSellersTable(db))
  {
    var sales := Vendas(db);
    var ks := GroupKeys(sales, ProductMonthOf);
    var t := Build(sales);
    forall j | 0 <= j < |t|
      ensures t[j].posicao == 1 + RowsAbove(t, t[j])
    {
      var k := ks[j];
      CountIfSame(ks, m => GroupAhead(sales, m, k), t, x => Outranks(x, t[j]));
    }
  }

  /** One row per (month, state, product, name) that occurs among the joined sales, and no other. */
  lemma BestSellersGroups(db: TrustedDb)
    ensures NoDuplicates(Keys(BestSellersTable(db), KeyOf))
    ensures forall k :: k in Keys(BestSellersTable(db), KeyOf) <==> k in Keys(Vendas(db), ProductMonthOf)
  {
    var sales := Vendas(db);
    var ks := GroupKeys(sales, ProductMonthOf);
    assert Keys(Build(sales), KeyOf) == ks;
    GroupKeysCover(sales, ProductMonthOf);
  }

  /**
   * The quantities of the table add up to the quantity of every item that
   * joins an order and a product, cancelled items included.
   */
  lemma BestSellersTotal(db: TrustedDb)
    ensures SumOf(BestSellersTable(db), TotalQtd) == SumOf(Vendas(db), SaleQty)
  {
    var sales := Vendas(db);
    var ks := GroupKeys(sales, ProductMonthOf);
    SumOverGroups(ks, sales, ProductMonthOf, SaleQty, Build(sales), TotalQtd);
    SumRegroup(sales, ProductMonthOf, SaleQty);
  }

  // ---------------------------------------------------------------
  // What competition ranking guarantees
  // ---------------------------------------------------------------

  /** Ranks start at 1 and never exceed the size of the partition. */
  lemma RankBounds(t: seq<BestSeller>, j: int)
    requires CompetitionRanked(t) && 0 <= j < |t|
    ensures 1 <= t[j].posicao <= PartitionSize(t, t[j])
  {
    CountIfSubset(t, x => Outranks(x, t[j]), x => SamePartition(x, t[j]));
    assert SamePartition(t[j], t[j]) && !Outranks(t[j], t[j]);
  }

  /** Within a partition a smaller rank means a strictly larger total, and equal totals share a rank. */
  lemma RankOrder(t: seq<BestSeller>, a: int, b: int)
    requires CompetitionRanked(t) && 0 <= a < |t| && 0 <= b < |t| && SamePartition(t[a], t[b])
    ensures t[a].posicao < t[b].posicao <==> DescBefore(t[a].totalQtd, t[b].totalQtd)
    ensures t[a].totalQtd == t[b].totalQtd ==> t[a].posicao == t[b].posicao
  {
    if DescBefore(t[a].totalQtd, t[b].totalQtd) {
      Ahead(t, a, b);
    } else if DescBefore(t[b].totalQtd, t[a].totalQtd) {
      Ahead(t, b, a);
    } else {
      assert t[a].totalQtd == t[b].totalQtd;
      CountIfSame(t, x => Outranks(x, t[a]), t, x => Outranks(x, t[b]));
    }
  }

  lemma Ahead(t: seq<BestSeller>, a: int, b: int)
    requires CompetitionRanked(t) && 0 <= a < |t| && 0 <= b < |t| && Outranks(t[a], t[b])
    ensures t[a].posicao < t[b].posicao
  {
    CountIfSubset(t, x => Outranks(x, t[a]), x => Outranks(x, t[b]));
    assert Outranks(t[a], t[b]) && !Outranks(t[a], t[a]);
  }

  /** Every partition holds a row ranked 1. */
  lemma TopRank(t: seq<BestSeller>, j: int)
    requires CompetitionRanked(t) && 0 <= j < |t|
    ensures exists k :: 0 <= k < |t| && SamePartition(t[k], t[j]) && t[k].posicao == 1
  {
    var best := j;
    var i := 0;
    while i < |t|
      invariant 0 <= i <= |t| && 0 <= best < |t| && SamePartition(t[best], t[j])
      invariant forall m :: 0 <= m < i ==> !Outranks(t[m], t[best])
    {
      if Outranks(t[i], t[best]) {
        best := i;
      }
      i := i + 1;
    }
    CountIfPositive(t, x => Outranks(x, t[best]));
  }
}
