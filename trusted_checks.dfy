/**
 * The queries of the trusted-layer validator, each reduced to the number it
 * returns, and the severity each number is graded with. `TrustedReport` is
 * the whole result list of one run, in the order `main` runs the checks.
 */
module TrustedChecks {
  import opened Sql
  import opened Trusted
  import opened Results

  // ---------------------------------------------------------------
  // 1. Volume: SELECT COUNT(*) per table
  // ---------------------------------------------------------------

  function TableCounts(db: TrustedDb): seq<(string, nat)> {
    [("marca", |db.marca|), ("produto", |db.produto|), ("data", |db.data|),
     ("pedido", |db.pedido|), ("pedido_item", |db.pedidoItem|), ("meta", |db.meta|)]
  }

  /** An empty table is an error, fewer than ten rows a warning. */
  function VolumeStatus(count: nat): (s: Status)
    ensures s == Error <==> count == 0
    ensures s == Warning <==> 0 < count < 10
    ensures s == Success <==> count >= 10
  {
    if count == 0 then Error else if count < 10 then Warning else Success
  }

  // Key columns, named so that every query uses the same column.
  function MarcaId(m: Marca): Option<int> { m.id }
  function ProdutoId(p: Produto): Option<int> { p.id }
  function ProdutoMarca(p: Produto): Option<int> { p.idMarca }
  function PedidoId(p: Pedido): Option<int> { p.id }
  function PedidoData(p: Pedido): Option<Date> { p.data }
  function ItemId(i: PedidoItem): Option<int> { i.id }
  function ItemPedido(i: PedidoItem): Option<int> { i.idPedido }
  function ItemProduto(i: PedidoItem): Option<int> { i.idProduto }
  function MetaMarca(m: Meta): Option<int> { m.idMarca }
  function DataKey(d: Data): Option<Date> { d.data }
  // Required columns.
  function MarcaNome(m: Marca): Option<string> { m.nome }
  function ProdutoNome(p: Produto): Option<string> { p.nome }
  function PedidoTotal(p: Pedido): Option<int> { p.vlrTotal }
  function ItemQuantidade(i: PedidoItem): Option<int> { i.qtdProduto }
  function DataAno(d: Data): Option<int> { d.ano }
  function DataMes(d: Data): Option<int> { d.mes }

  // ---------------------------------------------------------------
  // 2. Referential integrity
  // ---------------------------------------------------------------

  /** Some parent row has a key equal to `c` (never true for a NULL `c`). */
  predicate Resolves<K(==,!new)>(c: Option<K>, parents: seq<Option<K>>) {
    exists j :: 0 <= j < |parents| && SqlEq(c, parents[j])
  }

  /**
   * SELECT COUNT(*) FROM child LEFT JOIN parent ON child.fk = parent.key
   * WHERE parent.key IS NULL: the child rows that match no parent.
   */
  function Orphans<K(==,!new)>(children: seq<Option<K>>, parents: seq<Option<K>>): nat {
    CountIf(children, c => !Resolves(c, parents))
  }

  /** No orphan exactly when every child key is non-NULL and equals some parent key. */
  lemma OrphansNone<K(!new)>(children: seq<Option<K>>, parents: seq<Option<K>>)
    ensures Orphans(children, parents) == 0 <==>
            forall i :: 0 <= i < |children| ==>
              children[i].Some? && exists j :: 0 <= j < |parents| && parents[j] == children[i]
  {
    CountIfPositive(children, c => !Resolves(c, parents));
  }

  function ForeignKeyChecks(db: TrustedDb): seq<(string, nat)> {
    [("produto.id_marca -> marca.id",
      Orphans(Keys(db.produto, ProdutoMarca), Keys(db.marca, MarcaId))),
     ("pedido.data -> data.data",
      Orphans(Keys(db.pedido, PedidoData), Keys(db.data, DataKey))),
     ("pedido_item.id_pedido -> pedido.id",
      Orphans(Keys(db.pedidoItem, ItemPedido), Keys(db.pedido, PedidoId))),
     ("pedido_item.id_produto -> produto.id",
      Orphans(Keys(db.pedidoItem, ItemProduto), Keys(db.produto, ProdutoId))),
     ("meta.id_marca -> marca.id",
      Orphans(Keys(db.meta, MetaMarca), Keys(db.marca, MarcaId)))]
  }

  // ---------------------------------------------------------------
  // 3. Required fields: SELECT COUNT(*) ... WHERE field IS NULL
  // ---------------------------------------------------------------

  /** SELECT COUNT(*) FROM table WHERE column IS NULL */
  function NullCount<A(!new), X(!new)>(rows: seq<A>, column: A -> Option<X>): nat {
    CountIf(rows, r => column(r).None?)
  }

  /** Every row has a value in `column`. */
  ghost predicate AllPresent<A, X>(rows: seq<A>, column: A -> Option<X>) {
    forall i :: 0 <= i < |rows| ==> column(rows[i]).Some?
  }

  lemma NullCountZero<A(!new), X(!new)>(rows: seq<A>, column: A -> Option<X>)
    ensures NullCount(rows, column) == 0 <==> AllPresent(rows, column)
  {
    CountIfPositive(rows, r => column(r).None?);
  }

  function NullChecks(db: TrustedDb): seq<(string, nat)> {
    [("marca.nome", NullCount(db.marca, MarcaNome)),
     ("produto.nome", NullCount(db.produto, ProdutoNome)),
     ("produto.id_marca", NullCount(db.produto, ProdutoMarca)),
     ("pedido.data", NullCount(db.pedido, PedidoData)),
     ("pedido.vlr_total", NullCount(db.pedido, PedidoTotal)),
     ("pedido_item.id_pedido", NullCount(db.pedidoItem, ItemPedido)),
     ("pedido_item.id_produto", NullCount(db.pedidoItem, ItemProduto)),
     ("pedido_item.qtd_produto", NullCount(db.pedidoItem, ItemQuantidade)),
     ("data.ano", NullCount(db.data, DataAno)),
     ("data.mes", NullCount(db.data, DataMes))]
  }

  // ---------------------------------------------------------------
  // 4. Ranges and formats (a NULL value satisfies none of the conditions)
  // ---------------------------------------------------------------

  /** sgl_uf_entrega ~ '^[A-Z]{2}$' */
  predicate IsUf(s: string) {
    |s| == 2 && 'A' <= s[0] <= 'Z' && 'A' <= s[1] <= 'Z'
  }

  predicate NegativeTotal(p: Pedido) {
    p.vlrTotal.Some? && p.vlrTotal.value < 0
  }

  predicate NonPositiveQuantity(i: PedidoItem) {
    i.qtdProduto.Some? && i.qtdProduto.value <= 0
  }

  predicate MalformedUf(p: Pedido) {
    p.sglUfEntrega.Some? && !IsUf(p.sglUfEntrega.value)
  }

  predicate MonthOutOfRange(d: Data) {
    d.mes.Some? && (d.mes.value < 1 || d.mes.value > 12)
  }

  function RangeChecks(db: TrustedDb): seq<(string, nat)> {
    [("pedido.vlr_total", CountIf(db.pedido, NegativeTotal)),
     ("pedido_item.qtd_produto", CountIf(db.pedidoItem, NonPositiveQuantity)),
     ("pedido.sgl_uf_entrega", CountIf(db.pedido, MalformedUf)),
     ("data.mes", CountIf(db.data, MonthOutOfRange))]
  }

  // ---------------------------------------------------------------
  // 5. Duplicated keys: GROUP BY key HAVING COUNT(*) > 1
  // ---------------------------------------------------------------

  /** The key values that occur more than once (all NULL keys form one group). */
  function DuplicateKeys<K(==)>(keys: seq<K>): set<K> {
    set k | k in keys && multiset(keys)[k] > 1
  }

  /** COUNT(*) of SELECT key ... GROUP BY key HAVING COUNT(*) > 1 */
  function DuplicateCount<K(==)>(keys: seq<K>): nat {
    |DuplicateKeys(keys)|
  }

  lemma {:induction false} TwoOccurrences<K>(keys: seq<K>, k: K)
    ensures multiset(keys)[k] > 1 <==> exists i, j :: 0 <= i < j < |keys| && keys[i] == k && keys[j] == k
  {
    if keys != [] {
      var rest := keys[1..];
      assert keys == [keys[0]] + rest;
      assert multiset(keys) == multiset{keys[0]} + multiset(rest);
      TwoOccurrences(rest, k);
      if exists i, j :: 0 <= i < j < |keys| && keys[i] == k && keys[j] == k {
        var i, j :| 0 <= i < j < |keys| && keys[i] == k && keys[j] == k;
        assert rest[j - 1] == k;
        if i > 0 {
          assert rest[i - 1] == k;
        } else {
          assert k in rest;
        }
      }
      if multiset(keys)[k] > 1 {
        if keys[0] == k {
          assert k in multiset(rest);
          var j :| 0 <= j < |rest| && rest[j] == k;
          assert keys[0] == k && keys[j + 1] == k;
        } else {
          var i, j :| 0 <= i < j < |rest| && rest[i] == k && rest[j] == k;
          assert keys[i + 1] == k && keys[j + 1] == k;
        }
      }
    }
  }

  /** The reported number is zero exactly when no two rows share a key. */
  lemma DuplicateKeysNone<K(!new)>(keys: seq<K>)
    ensures |DuplicateKeys(keys)| == 0 <==> NoDuplicates(keys)
  {
    if |DuplicateKeys(keys)| != 0 {
      var k :| k in DuplicateKeys(keys);
      TwoOccurrences(keys, k);
    }
    if !NoDuplicates(keys) {
      var i, j :| 0 <= i < j < |keys| && keys[i] == keys[j];
      TwoOccurrences(keys, keys[i]);
      assert keys[i] in DuplicateKeys(keys);
    }
  }

  function DuplicateChecks(db: TrustedDb): seq<(string, nat)> {
    [("marca.id", DuplicateCount(Keys(db.marca, MarcaId))),
     ("produto.id", DuplicateCount(Keys(db.produto, ProdutoId))),
     ("pedido.id", DuplicateCount(Keys(db.pedido, PedidoId))),
     ("pedido_item.id", DuplicateCount(Keys(db.pedidoItem, ItemId))),
     ("data.data", DuplicateCount(Keys(db.data, DataKey)))]
  }

  // ---------------------------------------------------------------
  // 6. Business rules (graded as warnings)
  // ---------------------------------------------------------------

  /** GROUP BY p.id, p.vlr_total */
  function OrderKey(row: (Pedido, PedidoItem)): (Option<int>, Option<int>) {
    (row.0.id, row.0.vlrTotal)
  }

  /** CASE WHEN i.flg_cancelado = 'N' THEN i.qtd_produto * i.vlr_unitario ELSE 0 END */
  function CountedValue(row: (Pedido, PedidoItem)): Option<int> {
    if NotCancelled(row.1) then LineValue(row.1) else Some(0)
  }

  /** HAVING ABS(p.vlr_total - SUM(...)) > 0.01, in cents: a NULL on either side never diverges. */
  predicate Diverges(rows: seq<(Pedido, PedidoItem)>, k: (Option<int>, Option<int>)) {
    var computed := SumOf(FilterKey(rows, OrderKey, k), CountedValue);
    k.1.Some? && computed.Some? && Abs(k.1.value - computed.value) > 1
  }

  /** The (order, stored total) groups whose items do not add up to the total. */
  function DivergentOrders(db: TrustedDb): set<(Option<int>, Option<int>)> {
    var rows := PedidoItens(db);
    set k | k in GroupKeys(rows, OrderKey) && Diverges(rows, k)
  }

  const DIVERGENCE_LIMIT: nat := 10

  /** len(result) of the divergence query, which stops at LIMIT 10. */
  function DivergenceReported(db: TrustedDb): nat {
    var n := |DivergentOrders(db)|;
    if n < DIVERGENCE_LIMIT then n else DIVERGENCE_LIMIT
  }

  /** The query's WHERE i.id IS NULL holds for a left-joined row. */
  predicate ItemIdMissing(row: (Pedido, Option<PedidoItem>)) {
    row.1.None? || row.1.value.id.None?
  }

  /** pedido LEFT JOIN pedido_item ... WHERE i.id IS NULL, counted. */
  function OrdersWithoutItems(db: TrustedDb): nat {
    CountIf(LeftJoin(db.pedido, db.pedidoItem, ItemOfPedido), ItemIdMissing)
  }

  function BusinessChecks(db: TrustedDb): seq<(string, nat)> {
    [("pedido.vlr_total", DivergenceReported(db)),
     ("pedido_item.id_pedido", OrdersWithoutItems(db))]
  }

  /**
   * The reported number never exceeds the LIMIT, and it is positive exactly
   * when some order that has an item diverges from the sum of its items.
   */
  lemma DivergenceFound(db: TrustedDb)
    ensures DivergenceReported(db) <= DIVERGENCE_LIMIT
    ensures DivergenceReported(db) > 0 <==>
      exists p, i :: p in db.pedido && i in db.pedidoItem && ItemOfPedido(p, i) &&
                     Diverges(PedidoItens(db), (p.id, p.vlrTotal))
  {
    if DivergenceReported(db) > 0 {
      assert DivergentOrders(db) != {};
      var k :| k in DivergentOrders(db);
      var p, i := DivergentHasOrder(db, k);
    }
    if exists p, i :: p in db.pedido && i in db.pedidoItem && ItemOfPedido(p, i) &&
                      Diverges(PedidoItens(db), (p.id, p.vlrTotal)) {
      var p, i :| p in db.pedido && i in db.pedidoItem && ItemOfPedido(p, i) && Diverges(PedidoItens(db), (p.id, p.vlrTotal));
      OrderDivergent(db, p, i);
    }
  }

  lemma DivergentHasOrder(db: TrustedDb, k: (Option<int>, Option<int>)) returns (p: Pedido, i: PedidoItem)
    requires k in DivergentOrders(db)
    ensures p in db.pedido && i in db.pedidoItem && ItemOfPedido(p, i)
    ensures Diverges(PedidoItens(db), (p.id, p.vlrTotal))
  {
    var rows := PedidoItens(db);
    assert k in GroupKeys(rows, OrderKey) && Diverges(rows, k);
    var idx :| 0 <= idx < |rows| && OrderKey(rows[idx]) == k;
    JoinRow(db.pedido, db.pedidoItem, ItemOfPedido, rows[idx]);
    p, i := rows[idx].0, rows[idx].1;
  }

  lemma OrderDivergent(db: TrustedDb, p: Pedido, i: PedidoItem)
    requires p in db.pedido && i in db.pedidoItem && ItemOfPedido(p, i)
    requires Diverges(PedidoItens(db), (p.id, p.vlrTotal))
    ensures (p.id, p.vlrTotal) in DivergentOrders(db)
  {
    var rows := PedidoItens(db);
    assert (p, i) in rows;
    var idx :| 0 <= idx < |rows| && rows[idx] == (p, i);
    assert OrderKey(rows[idx]) == (p.id, p.vlrTotal);
    assert (p.id, p.vlrTotal) in GroupKeys(rows, OrderKey);
  }

  /** One order with a stored total, and one non-cancelled item of 5 units at 2.00. */
  function OneItemOrder(total: int): TrustedDb {
    TrustedDb([], [], [], [Pedido(Some(10), None, None, Some(total), None)],
              [PedidoItem(Some(1), Some(10), None, Some(5), Some(200), Some("N"))], [])
  }

  /**
   * Against 5 x 2.00 = 10.00, a stored total is reported as one divergent
   * order exactly when it is more than one cent away: 10.00 and 10.01 pass,
   * 12.00 does not.
   */
  lemma OneItemOrderDivergence(total: int)
    ensures DivergenceReported(OneItemOrder(total)) == (if Abs(total - 1000) > 1 then 1 else 0)
  {
    var db := OneItemOrder(total);
    var rows := PedidoItens(db);
    var k := (Some(10), Some(total));
    OneItemOrderRows(total);
    assert k in GroupKeys(rows, OrderKey) by {
      assert OrderKey(rows[0]) == k;
    }
    forall x | x in DivergentOrders(db) ensures x == k {
      var n :| 0 <= n < |rows| && OrderKey(rows[n]) == x;
    }
    if Abs(total - 1000) > 1 {
      assert DivergentOrders(db) == {k};
    } else {
      assert DivergentOrders(db) == {};
    }
  }

  /** The join of the one order with its one item, and that item's counted value. */
  lemma OneItemOrderRows(total: int)
    ensures PedidoItens(OneItemOrder(total)) == [(OneItemOrder(total).pedido[0], OneItemOrder(total).pedidoItem[0])]
    ensures SumOf(FilterKey(PedidoItens(OneItemOrder(total)), OrderKey, (Some(10), Some(total))), CountedValue) == Some(1000)
  {
    var db := OneItemOrder(total);
    var rows := PedidoItens(db);
    var p, i := db.pedido[0], db.pedidoItem[0];
    assert ItemOfPedido(p, i);
    assert db.pedido[1..] == [] && db.pedidoItem[1..] == [];
    assert JoinOne(p, db.pedidoItem[1..], ItemOfPedido) == [];
    assert JoinOne(p, db.pedidoItem, ItemOfPedido) == [(p, i)];
    assert rows == JoinOne(p, db.pedidoItem, ItemOfPedido) + Join(db.pedido[1..], db.pedidoItem, ItemOfPedido);
    assert FilterKey(rows, OrderKey, (Some(10), Some(total))) == rows;
  }

  /** Some item references the order but has a NULL id of its own. */
  ghost predicate HasItemWithoutId(p: Pedido, items: seq<PedidoItem>) {
    exists i :: i in items && ItemOfPedido(p, i) && i.id.None?
  }

  /**
   * An order is counted as having no items when no item references it, and
   * also once for every referencing item whose own id is NULL.
   */
  ghost predicate CountedWithoutItems(p: Pedido, items: seq<PedidoItem>) {
    !HasMatch(p, items, ItemOfPedido) || HasItemWithoutId(p, items)
  }

  lemma OrdersWithoutItemsFound(db: TrustedDb)
    ensures OrdersWithoutItems(db) > 0 <==>
      exists p :: p in db.pedido && CountedWithoutItems(p, db.pedidoItem)
  {
    if OrdersWithoutItems(db) > 0 {
      OrderWithoutItemsWitness(db);
    }
    if exists p :: p in db.pedido && CountedWithoutItems(p, db.pedidoItem) {
      var p :| p in db.pedido && CountedWithoutItems(p, db.pedidoItem);
      OrderWithoutItemsCounted(db, p);
    }
  }

  lemma OrderWithoutItemsWitness(db: TrustedDb)
    requires OrdersWithoutItems(db) > 0
    ensures exists p :: p in db.pedido && CountedWithoutItems(p, db.pedidoItem)
  {
    var rows := LeftJoin(db.pedido, db.pedidoItem, ItemOfPedido);
    CountIfPositive(rows, ItemIdMissing);
    var k :| 0 <= k < |rows| && ItemIdMissing(rows[k]);
    var p := rows[k].0;
    LeftJoinRow(db.pedido, db.pedidoItem, ItemOfPedido, rows[k]);
    if rows[k].1.Some? {
      assert HasItemWithoutId(p, db.pedidoItem);
    }
    assert CountedWithoutItems(p, db.pedidoItem);
  }

  lemma OrderWithoutItemsCounted(db: TrustedDb, p: Pedido)
    requires p in db.pedido && CountedWithoutItems(p, db.pedidoItem)
    ensures OrdersWithoutItems(db) > 0
  {
    var rows := LeftJoin(db.pedido, db.pedidoItem, ItemOfPedido);
    CountIfPositive(rows, ItemIdMissing);
    if !HasMatch(p, db.pedidoItem, ItemOfPedido) {
      assert (p, None) in rows;
      var k :| 0 <= k < |rows| && rows[k] == (p, None);
      assert ItemIdMissing(rows[k]);
    } else {
      var i :| i in db.pedidoItem && ItemOfPedido(p, i) && i.id.None?;
      assert (p, Some(i)) in rows;
      var k :| 0 <= k < |rows| && rows[k] == (p, Some(i));
      assert ItemIdMissing(rows[k]);
    }
  }

  // ---------------------------------------------------------------
  // 7. Calendar consistency
  // ---------------------------------------------------------------

  /** EXTRACT(YEAR/MONTH/DAY FROM data) differs from ano, mes or dia (NULLs compare as unknown). */
  predicate DateInconsistent(d: Data) {
    d.data.Some? &&
    ((d.ano.Some? && d.ano.value != d.data.value.year) ||
     (d.mes.Some? && d.mes.value != d.data.value.month) ||
     (d.dia.Some? && d.dia.value != d.data.value.day))
  }

  function DateChecks(db: TrustedDb): seq<(string, nat)> {
    [("data", CountIf(db.data, DateInconsistent))]
  }

  // ---------------------------------------------------------------
  // The whole run
  // ---------------------------------------------------------------

  /** The result list of `main`, check by check. */
  function TrustedReport(db: TrustedDb): seq<Entry> {
    Graded(TableCounts(db), VolumeStatus)
    + Graded(ForeignKeyChecks(db), ErrorIfAny)
    + Graded(NullChecks(db), ErrorIfAny)
    + Graded(RangeChecks(db), ErrorIfAny)
    + Graded(DuplicateChecks(db), ErrorIfAny)
    + Graded(BusinessChecks(db), WarningIfAny)
    + Graded(DateChecks(db), ErrorIfAny)
  }

  // ---------------------------------------------------------------
  // What a passing run means, row by row
  // ---------------------------------------------------------------

  ghost predicate TablesPopulated(db: TrustedDb) {
    db.marca != [] && db.produto != [] && db.data != [] &&
    db.pedido != [] && db.pedidoItem != [] && db.meta != []
  }

  /** Every child row carries a non-NULL key that equals the key of some parent row. */
  ghost predicate EveryRowReferences<A, B, K>(children: seq<A>, fk: A -> Option<K>, parents: seq<B>, key: B -> Option<K>) {
    forall i :: 0 <= i < |children| ==>
      (fk(children[i]).Some? && exists j :: 0 <= j < |parents| && key(parents[j]) == fk(children[i]))
  }

  ghost predicate ReferencesResolve(db: TrustedDb) {
    EveryRowReferences(db.produto, ProdutoMarca, db.marca, MarcaId) &&
    EveryRowReferences(db.pedido, PedidoData, db.data, DataKey) &&
    EveryRowReferences(db.pedidoItem, ItemPedido, db.pedido, PedidoId) &&
    EveryRowReferences(db.pedidoItem, ItemProduto, db.produto, ProdutoId) &&
    EveryRowReferences(db.meta, MetaMarca, db.marca, MarcaId)
  }

  ghost predicate RequiredPresent(db: TrustedDb) {
    AllPresent(db.marca, MarcaNome) && AllPresent(db.produto, ProdutoNome) &&
    AllPresent(db.produto, ProdutoMarca) && AllPresent(db.pedido, PedidoData) &&
    AllPresent(db.pedido, PedidoTotal) && AllPresent(db.pedidoItem, ItemPedido) &&
    AllPresent(db.pedidoItem, ItemProduto) && AllPresent(db.pedidoItem, ItemQuantidade) &&
    AllPresent(db.data, DataAno) && AllPresent(db.data, DataMes)
  }

  ghost predicate ValuesInRange(db: TrustedDb) {
    (forall i :: 0 <= i < |db.pedido| ==> !NegativeTotal(db.pedido[i]) && !MalformedUf(db.pedido[i])) &&
    (forall i :: 0 <= i < |db.pedidoItem| ==> !NonPositiveQuantity(db.pedidoItem[i])) &&
    (forall i :: 0 <= i < |db.data| ==> !MonthOutOfRange(db.data[i]))
  }

  /** No two rows of `rows` share a key (two NULL keys count as equal, as in GROUP BY). */
  ghost predicate UniqueKey<A, K>(rows: seq<A>, key: A -> K) {
    forall i, j :: 0 <= i < j < |rows| ==> key(rows[i]) != key(rows[j])
  }

  ghost predicate KeysUnique(db: TrustedDb) {
    UniqueKey(db.marca, MarcaId) && UniqueKey(db.produto, ProdutoId) && UniqueKey(db.pedido, PedidoId) &&
    UniqueKey(db.pedidoItem, ItemId) && UniqueKey(db.data, DataKey)
  }

  ghost predicate DatesConsistent(db: TrustedDb) {
    forall i :: 0 <= i < |db.data| ==> !DateInconsistent(db.data[i])
  }

  /** The trusted layer passes every structural rule; the business rules only warn. */
  ghost predicate TrustedHealthy(db: TrustedDb) {
    TablesPopulated(db) && ReferencesResolve(db) && RequiredPresent(db) &&
    ValuesInRange(db) && KeysUnique(db) && DatesConsistent(db)
  }

  predicate AllZero(checks: seq<(string, nat)>) {
    forall i :: 0 <= i < |checks| ==> checks[i].1 == 0
  }

  lemma VolumeChecksPass(db: TrustedDb)
    ensures ErrorFree(Graded(TableCounts(db), VolumeStatus)) <==> TablesPopulated(db)
  {
    GradedErrorFree(TableCounts(db), VolumeStatus);
    var c := TableCounts(db);
    assert c[0].1 == |db.marca| && c[1].1 == |db.produto| && c[2].1 == |db.data|;
    assert c[3].1 == |db.pedido| && c[4].1 == |db.pedidoItem| && c[5].1 == |db.meta|;
  }

  lemma OrphansNoneRows<A(!new), B(!new), K(!new)>(children: seq<A>, fk: A -> Option<K>, parents: seq<B>, key: B -> Option<K>)
    ensures Orphans(Keys(children, fk), Keys(parents, key)) == 0 <==> EveryRowReferences(children, fk, parents, key)
  {
    OrphansNone(Keys(children, fk), Keys(parents, key));
  }

  lemma ForeignKeyChecksPass(db: TrustedDb)
    ensures AllZero(ForeignKeyChecks(db)) <==> ReferencesResolve(db)
  {
    var c := ForeignKeyChecks(db);
    assert AllZero(c) <==> c[0].1 == 0 && c[1].1 == 0 && c[2].1 == 0 && c[3].1 == 0 && c[4].1 == 0;
    assert c[0].1 == 0 <==> EveryRowReferences(db.produto, ProdutoMarca, db.marca, MarcaId) by {
      OrphansNoneRows(db.produto, ProdutoMarca, db.marca, MarcaId);
    }
    assert c[1].1 == 0 <==> EveryRowReferences(db.pedido, PedidoData, db.data, DataKey) by {
      OrphansNoneRows(db.pedido, PedidoData, db.data, DataKey);
    }
    assert c[2].1 == 0 <==> EveryRowReferences(db.pedidoItem, ItemPedido, db.pedido, PedidoId) by {
      OrphansNoneRows(db.pedidoItem, ItemPedido, db.pedido, PedidoId);
    }
    assert c[3].1 == 0 <==> EveryRowReferences(db.pedidoItem, ItemProduto, db.produto, ProdutoId) by {
      OrphansNoneRows(db.pedidoItem, ItemProduto, db.produto, ProdutoId);
    }
    assert c[4].1 == 0 <==> EveryRowReferences(db.meta, MetaMarca, db.marca, MarcaId) by {
      OrphansNoneRows(db.meta, MetaMarca, db.marca, MarcaId);
    }
  }

  lemma NullChecksPass(db: TrustedDb)
    ensures AllZero(NullChecks(db)) <==> RequiredPresent(db)
  {
    var c := NullChecks(db);
    NullCountZero(db.marca, MarcaNome);
    NullCountZero(db.produto, ProdutoNome);
    NullCountZero(db.produto, ProdutoMarca);
    NullCountZero(db.pedido, PedidoData);
    NullCountZero(db.pedido, PedidoTotal);
    NullCountZero(db.pedidoItem, ItemPedido);
    NullCountZero(db.pedidoItem, ItemProduto);
    NullCountZero(db.pedidoItem, ItemQuantidade);
    NullCountZero(db.data, DataAno);
    NullCountZero(db.data, DataMes);
    assert AllZero(c) <==> c[0].1 == 0 && c[1].1 == 0 && c[2].1 == 0 && c[3].1 == 0 && c[4].1 == 0 &&
                           c[5].1 == 0 && c[6].1 == 0 && c[7].1 == 0 && c[8].1 == 0 && c[9].1 == 0;
  }

  lemma RangeChecksPass(db: TrustedDb)
    ensures AllZero(RangeChecks(db)) <==> ValuesInRange(db)
  {
    var c := RangeChecks(db);
    CountIfPositive(db.pedido, NegativeTotal);
    CountIfPositive(db.pedidoItem, NonPositiveQuantity);
    CountIfPositive(db.pedido, MalformedUf);
    CountIfPositive(db.data, MonthOutOfRange);
    assert AllZero(c) <==> c[0].1 == 0 && c[1].1 == 0 && c[2].1 == 0 && c[3].1 == 0;
  }

  lemma NoDuplicateRows<A(!new), K(!new)>(rows: seq<A>, key: A -> K)
    ensures DuplicateCount(Keys(rows, key)) == 0 <==> UniqueKey(rows, key)
  {
    DuplicateKeysNone(Keys(rows, key));
  }

  lemma DuplicateChecksPass(db: TrustedDb)
    ensures AllZero(DuplicateChecks(db)) <==> KeysUnique(db)
  {
    var c := DuplicateChecks(db);
    assert AllZero(c) <==> c[0].1 == 0 && c[1].1 == 0 && c[2].1 == 0 && c[3].1 == 0 && c[4].1 == 0;
    assert c[0].1 == 0 <==> UniqueKey(db.marca, MarcaId) by { NoDuplicateRows(db.marca, MarcaId); }
    assert c[1].1 == 0 <==> UniqueKey(db.produto, ProdutoId) by { NoDuplicateRows(db.produto, ProdutoId); }
    assert c[2].1 == 0 <==> UniqueKey(db.pedido, PedidoId) by { NoDuplicateRows(db.pedido, PedidoId); }
    assert c[3].1 == 0 <==> UniqueKey(db.pedidoItem, ItemId) by { NoDuplicateRows(db.pedidoItem, ItemId); }
    assert c[4].1 == 0 <==> UniqueKey(db.data, DataKey) by { NoDuplicateRows(db.data, DataKey); }
  }

  lemma DateChecksPass(db: TrustedDb)
    ensures AllZero(DateChecks(db)) <==> DatesConsistent(db)
  {
    CountIfPositive(db.data, DateInconsistent);
    assert AllZero(DateChecks(db)) <==> DateChecks(db)[0].1 == 0;
  }

  lemma ErrorIfAnyPass(checks: seq<(string, nat)>)
    ensures ErrorFree(Graded(checks, ErrorIfAny)) <==> AllZero(checks)
  {
    GradedErrorFree(checks, ErrorIfAny);
  }

  lemma WarningsNeverFail(checks: seq<(string, nat)>)
    ensures ErrorFree(Graded(checks, WarningIfAny))
  {
    GradedErrorFree(checks, WarningIfAny);
  }

  /**
   * The validator exits with 0 exactly when the trusted layer is healthy; in
   * particular no business-rule finding can make it fail.
   */
  lemma TrustedVerdict(db: TrustedDb)
    ensures ExitCode(TrustedReport(db)) == 0 <==> TrustedHealthy(db)
  {
    var volume := Graded(TableCounts(db), VolumeStatus);
    var fk := Graded(ForeignKeyChecks(db), ErrorIfAny);
    var nulls := Graded(NullChecks(db), ErrorIfAny);
    var ranges := Graded(RangeChecks(db), ErrorIfAny);
    var dups := Graded(DuplicateChecks(db), ErrorIfAny);
    var business := Graded(BusinessChecks(db), WarningIfAny);
    var dates := Graded(DateChecks(db), ErrorIfAny);
    assert TrustedReport(db) == volume + fk + nulls + ranges + dups + business + dates;
    assert ErrorFree(TrustedReport(db)) <==>
      ErrorFree(volume) && ErrorFree(fk) && ErrorFree(nulls) && ErrorFree(ranges) &&
      ErrorFree(dups) && ErrorFree(business) && ErrorFree(dates) by {
      ErrorFreeAppend(volume, fk);
      ErrorFreeAppend(volume + fk, nulls);
      ErrorFreeAppend(volume + fk + nulls, ranges);
      ErrorFreeAppend(volume + fk + nulls + ranges, dups);
      ErrorFreeAppend(volume + fk + nulls + ranges + dups, business);
      ErrorFreeAppend(volume + fk + nulls + ranges + dups + business, dates);
    }
    assert ErrorFree(volume) <==> TablesPopulated(db) by { VolumeChecksPass(db); }
    assert ErrorFree(fk) <==> ReferencesResolve(db) by {
      ErrorIfAnyPass(ForeignKeyChecks(db));
      ForeignKeyChecksPass(db);
    }
    assert ErrorFree(nulls) <==> RequiredPresent(db) by {
      ErrorIfAnyPass(NullChecks(db));
      NullChecksPass(db);
    }
    assert ErrorFree(ranges) <==> ValuesInRange(db) by {
      ErrorIfAnyPass(RangeChecks(db));
      RangeChecksPass(db);
    }
    assert ErrorFree(dups) <==> KeysUnique(db) by {
      ErrorIfAnyPass(DuplicateChecks(db));
      DuplicateChecksPass(db);
    }
    assert ErrorFree(business) by { WarningsNeverFail(BusinessChecks(db)); }
    assert ErrorFree(dates) <==> DatesConsistent(db) by {
      ErrorIfAnyPass(DateChecks(db));
      DateChecksPass(db);
    }
  }
}
