/** Receiver groups, the transaction built for a chunk of them, and committing it to the ledger. */
module Orders {
  import opened Prelude
  import opened Bytes
  import opened Text
  import opened Contracts
  import opened Ledger

  /** All pending transfers of one group, and the receiver they share. */
  datatype Order = Order(receiver: Address, rows: seq<Transfer>)

  function AllRows(orders: seq<Order>): seq<Transfer> {
    if orders == [] then [] else orders[0].rows + AllRows(orders[1..])
  }

  function Receivers(orders: seq<Order>): (r: seq<Address>)
    ensures |r| == |orders|
    ensures forall i :: 0 <= i < |r| ==> r[i] == orders[i].receiver
  {
    if orders == [] then [] else [orders[0].receiver] + Receivers(orders[1..])
  }

  function RowsSum(rows: seq<Transfer>): nat {
    if rows == [] then 0 else rows[0].Amount() + RowsSum(rows[1..])
  }

  function Sums(orders: seq<Order>): (a: seq<nat>)
    ensures |a| == |orders|
    ensures forall i :: 0 <= i < |a| ==> a[i] == RowsSum(orders[i].rows)
  {
    if orders == [] then [] else [RowsSum(orders[0].rows)] + Sums(orders[1..])
  }

  predicate AllParse(rows: seq<Transfer>) {
    forall row | row in rows :: ParseAmount(row.tokenAmount).Some?
  }

  predicate AnyFinish(rows: seq<Transfer>) {
    exists row | row in rows :: row.depositFinish > 0
  }

  /** The transaction for one chunk of receivers: sum each group, then pick the encoding. */
  function ChunkTx(setup: PaymentSetup, chain: ChainSetup, key: MultiKey, chunk: seq<Order>): Result<Tx, PaymentError>
    requires chunk != [] && key.token.Some?
  {
    if !AllParse(AllRows(chunk)) then Err(Custom("Invalid token amount"))
    else EncodeChunk(setup, chain, key, Receivers(chunk), Sums(chunk), AnyFinish(AllRows(chunk)))
  }

  // ---- well-formed groups ----

  ghost predicate OrderOk(o: Order) {
    o.rows != [] && forall row | row in o.rows ::
      row.receiverAddr == o.rows[0].receiverAddr && ParseAddress(row.receiverAddr) == Some(o.receiver)
  }

  ghost predicate AllOk(orders: seq<Order>) {
    forall k | 0 <= k < |orders| :: OrderOk(orders[k])
  }

  ghost predicate HasText(orders: seq<Order>, text: string) {
    exists o | o in orders :: o.rows != [] && o.rows[0].receiverAddr == text
  }

  ghost predicate DistinctTexts(orders: seq<Order>) {
    orders == [] ||
    (orders[0].rows != [] && !HasText(orders[1..], orders[0].rows[0].receiverAddr) && DistinctTexts(orders[1..]))
  }

  ghost predicate OrdersOk(ts: seq<Transfer>, orders: seq<Order>) {
    && AllOk(orders)
    && DistinctTexts(orders)
    && Fresh(ts, AllRows(orders))
    && DistinctIds(AllRows(orders))
  }

  ghost predicate OfKey(orders: seq<Order>, key: MultiKey) {
    forall row | row in AllRows(orders) :: row.Multi() == key
  }

  lemma {:induction false} AllRowsConcat(a: seq<Order>, b: seq<Order>)
    ensures AllRows(a + b) == AllRows(a) + AllRows(b)
  {
    if a == [] {
      assert a + b == b;
    } else {
      assert (a + b)[1..] == a[1..] + b;
      AllRowsConcat(a[1..], b);
    }
  }

  lemma {:induction false} DistinctTextsSplit(a: seq<Order>, b: seq<Order>)
    requires DistinctTexts(a + b)
    ensures DistinctTexts(a) && DistinctTexts(b)
  {
    if a == [] {
      assert a + b == b;
    } else {
      assert (a + b)[1..] == a[1..] + b;
      DistinctTextsSplit(a[1..], b);
    }
  }

  /** Splitting a list of groups into a chunk and the rest keeps both well-formed and disjoint. */
  lemma {:induction false} OrdersSplit(ts: seq<Transfer>, orders: seq<Order>, n: nat)
    requires OrdersOk(ts, orders) && n <= |orders|
    ensures OrdersOk(ts, orders[..n]) && OrdersOk(ts, orders[n..])
    ensures AllRows(orders) == AllRows(orders[..n]) + AllRows(orders[n..])
    ensures Ids(AllRows(orders)) == Ids(AllRows(orders[..n])) + Ids(AllRows(orders[n..]))
    ensures Ids(AllRows(orders[..n])) !! Ids(AllRows(orders[n..]))
  {
    var a, b := orders[..n], orders[n..];
    assert orders == a + b;
    AllRowsConcat(a, b);
    DistinctTextsSplit(a, b);
    DistinctConcat(AllRows(a), AllRows(b));
  }

  lemma {:induction false} RowHasText(orders: seq<Order>, row: Transfer)
    requires AllOk(orders) && row in AllRows(orders)
    ensures HasText(orders, row.receiverAddr)
  {
    if row in orders[0].rows {
      assert orders[0] in orders && OrderOk(orders[0]);
    } else {
      RowHasText(orders[1..], row);
    }
  }

  lemma HasTextMore(a: seq<Order>, b: seq<Order>, text: string)
    requires HasText(b, text)
    ensures HasText(a + b, text)
  {
    var o :| o in b && o.rows != [] && o.rows[0].receiverAddr == text;
    assert o in a + b;
  }

  /** A receiver's group is not split: rows of different parts of a list are of different receivers. */
  lemma {:induction false} PartsDiffer(a: seq<Order>, b: seq<Order>, x: Transfer)
    requires AllOk(a) && DistinctTexts(a + b) && x in AllRows(a)
    ensures !HasText(b, x.receiverAddr)
  {
    var rest := a[1..];
    assert (a + b)[1..] == rest + b && (a + b)[0] == a[0];
    if x in a[0].rows {
      assert OrderOk(a[0]);
      if HasText(b, x.receiverAddr) { HasTextMore(rest, b, x.receiverAddr); }
    } else {
      PartsDiffer(rest, b, x);
    }
  }

  // ---- what a list of groups owes ----

  lemma {:induction false} OneReceiverTotal(rows: seq<Transfer>, pick: Pick, yes: bool)
    requires forall row | row in rows :: Counts(row, pick) == yes
    ensures RowsTotal(rows, pick) == if yes then RowsSum(rows) else 0
  {
    if rows != [] { OneReceiverTotal(rows[1..], pick, yes); }
  }

  /** Per address, the rows owe what the batch of group sums pays. */
  lemma {:induction false} OwedByAddress(orders: seq<Order>, a: Address)
    requires AllOk(orders)
    ensures RowsTotal(AllRows(orders), ToAddress(a)) == Paid(Zip(Receivers(orders), Sums(orders)), a)
  {
    if orders != [] {
      var o, rest := orders[0], orders[1..];
      OwedByAddress(rest, a);
      RowsTotalConcat(o.rows, AllRows(rest), ToAddress(a));
      OneReceiverTotal(o.rows, ToAddress(a), o.receiver == a);
      var r, s := Receivers(orders), Sums(orders);
      assert r[1..] == Receivers(rest) && s[1..] == Sums(rest);
      var z := Zip(r, s);
      assert z == [Payment(o.receiver, RowsSum(o.rows))] + Zip(r[1..], s[1..]);
      assert z[1..] == Zip(Receivers(rest), Sums(rest));
    }
  }

  lemma {:induction false} NoTextOwesNothing(orders: seq<Order>, text: string)
    requires AllOk(orders)
    requires !HasText(orders, text)
    ensures RowsTotal(AllRows(orders), ToText(text)) == 0
  {
    if orders != [] {
      var o, rest := orders[0], orders[1..];
      assert o in orders;
      NoTextOwesNothing(rest, text);
      RowsTotalConcat(o.rows, AllRows(rest), ToText(text));
      OneReceiverTotal(o.rows, ToText(text), false);
    }
  }

  /** Per spelling of a receiver, the rows owe one group sum. */
  lemma {:induction false} OwedByText(orders: seq<Order>, k: nat)
    requires AllOk(orders) && DistinctTexts(orders) && k < |orders|
    requires orders[k].rows != []
    ensures RowsTotal(AllRows(orders), ToText(orders[k].rows[0].receiverAddr)) == Sums(orders)[k]
  {
    var o, rest := orders[0], orders[1..];
    var text := orders[k].rows[0].receiverAddr;
    RowsTotalConcat(o.rows, AllRows(rest), ToText(text));
    if k == 0 {
      NoTextOwesNothing(rest, text);
      OneReceiverTotal(o.rows, ToText(text), true);
    } else {
      assert rest[k - 1] in rest;
      OwedByText(rest, k - 1);
      OneReceiverTotal(o.rows, ToText(text), false);
    }
  }

  /** Some spelling owes exactly `amount` > 0 iff some group sums to it. */
  lemma {:induction false} OwedSomeText(orders: seq<Order>, amount: nat)
    requires AllOk(orders) && DistinctTexts(orders) && amount > 0
    ensures (exists text :: RowsTotal(AllRows(orders), ToText(text)) == amount) <==> amount in Sums(orders)
  {
    if text :| RowsTotal(AllRows(orders), ToText(text)) == amount {
      if !HasText(orders, text) {
        NoTextOwesNothing(orders, text);
      } else {
        var o :| o in orders && o.rows != [] && o.rows[0].receiverAddr == text;
        var k :| 0 <= k < |orders| && orders[k] == o;
        OwedByText(orders, k);
      }
    }
    if amount in Sums(orders) {
      var k :| 0 <= k < |orders| && Sums(orders)[k] == amount;
      assert OrderOk(orders[k]);
      OwedByText(orders, k);
    }
  }

  // ---- committing a transaction ----

  /** The transaction is right for these groups. */
  ghost predicate Settles(tx: Tx, orders: seq<Order>) {
    && (forall row | row in AllRows(orders) :: Agrees(row, tx))
    && (forall x, y | x in AllRows(orders) && y in AllRows(orders) :: x.Multi() == y.Multi())
    && (tx.call.Closes() <==> tx.call.IsLock() && AnyFinish(AllRows(orders)))
    && (PaysSame(Payouts(tx), Zip(Receivers(orders), Sums(orders))) <==>
        !(tx.call.IsPacked() && TWO_96 in Sums(orders)))
    && PaysAtMost(Payouts(tx), Zip(Receivers(orders), Sums(orders)))
  }

  lemma {:induction false} NothingLinked(ts: seq<Transfer>, t: nat, pick: Pick)
    requires forall i | 0 <= i < |ts| :: ts[i].txId != Some(t)
    ensures LinkedTotal(ts, t, pick) == 0
  {
    if ts != [] { NothingLinked(ts[..|ts| - 1], t, pick); }
  }

  /** After the commit, exactly the given rows are linked to the new transaction. */
  lemma CommitLinks(s: State, tx: Tx, rows: seq<Transfer>)
    requires WellFormed(s) && Fresh(s.transfers, rows) && DistinctIds(rows)
    ensures var s' := Commit(s, tx, rows);
            && WellFormed(s')
            && |s'.transfers| == |s.transfers|
            && (forall i :: Linked(s'.transfers, i, |s.txs|) <==> i in Ids(rows))
            && (forall t | 0 <= t < |s.txs| :: SameLinks(s.transfers, s'.transfers, t))
            && (forall row | row in rows :: s'.transfers[row.id] == LinkRow(row, |s.txs|))
            && (forall i | 0 <= i < |s.transfers| && i !in Ids(rows) :: s'.transfers[i] == s.transfers[i])
  {
    LinkRowsTable(s.transfers, rows, |s.txs|);
    forall i | i in Ids(rows)
      ensures 0 <= i < |s.transfers| && s.transfers[i].txId.None? && s.transfers[i].id == i
      ensures LinkRows(s.transfers, rows, |s.txs|)[i] == LinkRow(s.transfers[i], |s.txs|)
    {
      var row :| row in rows && row.id == i;
    }
  }

  lemma CommitTotals(s: State, tx: Tx, orders: seq<Order>, pick: Pick)
    requires WellFormed(s) && OrdersOk(s.transfers, orders)
    ensures LinkedTotal(Commit(s, tx, AllRows(orders)).transfers, |s.txs|, pick) == RowsTotal(AllRows(orders), pick)
  {
    LinkRowsTotal(s.transfers, AllRows(orders), |s.txs|, pick);
    NothingLinked(s.transfers, |s.txs|, pick);
  }

  lemma CommitLinkedRow(s: State, tx: Tx, rows: seq<Transfer>, i: int)
    requires WellFormed(s) && Fresh(s.transfers, rows) && DistinctIds(rows)
    requires Linked(Commit(s, tx, rows).transfers, i, |s.txs|)
    ensures 0 <= i < |s.transfers|
    ensures s.transfers[i] in rows && Commit(s, tx, rows).transfers[i] == LinkRow(s.transfers[i], |s.txs|)
  {
    CommitLinks(s, tx, rows);
    var row :| row in rows && row.id == i;
  }

  lemma CommitRowLinked(s: State, tx: Tx, rows: seq<Transfer>, row: Transfer)
    requires WellFormed(s) && Fresh(s.transfers, rows) && DistinctIds(rows) && row in rows
    ensures Linked(Commit(s, tx, rows).transfers, row.id, |s.txs|)
    ensures Commit(s, tx, rows).transfers[row.id] == LinkRow(row, |s.txs|)
  {
    CommitLinks(s, tx, rows);
  }

  lemma LinkedRowAgrees(s: State, tx: Tx, rows: seq<Transfer>, i: int, key: MultiKey)
    requires WellFormed(s) && Fresh(s.transfers, rows) && DistinctIds(rows)
    requires forall row | row in rows :: Agrees(row, tx) && row.Multi() == key
    requires Linked(Commit(s, tx, rows).transfers, i, |s.txs|)
    ensures var row := Commit(s, tx, rows).transfers[i]; Agrees(row, tx) && row.Multi() == key
  {
    CommitLinkedRow(s, tx, rows, i);
    var row := s.transfers[i];
    assert Agrees(row, tx) && row.Multi() == key;
  }

  /** The rows linked to the new transaction agree with it. */
  lemma NewLinksAgree(s: State, tx: Tx, rows: seq<Transfer>, ts': seq<Transfer>, key: MultiKey)
    requires WellFormed(s) && Fresh(s.transfers, rows) && DistinctIds(rows) && rows != []
    requires forall row | row in rows :: Agrees(row, tx) && row.Multi() == key
    requires ts' == Commit(s, tx, rows).transfers
    ensures LinksAgree(ts', |s.txs|, tx)
  {
    var t := |s.txs|;
    CommitRowLinked(s, tx, rows, rows[0]);
    forall i | Linked(ts', i, t)
      ensures Agrees(ts'[i], tx) && ts'[i].Multi() == key
    {
      LinkedRowAgrees(s, tx, rows, i, key);
    }
  }

  /** One of the linked rows asks to finish iff a given row does. */
  lemma NewLinksFinish(s: State, tx: Tx, rows: seq<Transfer>, ts': seq<Transfer>)
    requires WellFormed(s) && Fresh(s.transfers, rows) && DistinctIds(rows)
    requires ts' == Commit(s, tx, rows).transfers
    ensures LinksFinish(ts', |s.txs|) <==> AnyFinish(rows)
  {
    var t := |s.txs|;
    if i :| Linked(ts', i, t) && ts'[i].depositFinish > 0 {
      CommitLinkedRow(s, tx, rows, i);
    }
    if row :| row in rows && row.depositFinish > 0 {
      CommitRowLinked(s, tx, rows, row);
    }
  }

  /** What the new transaction's rows owe is the batch of group sums. */
  lemma NewTotals(s: State, tx: Tx, orders: seq<Order>, ts': seq<Transfer>)
    requires WellFormed(s) && OrdersOk(s.transfers, orders)
    requires ts' == Commit(s, tx, AllRows(orders)).transfers
    ensures PaysLinked(ts', |s.txs|, tx) <==> PaysSame(Payouts(tx), Zip(Receivers(orders), Sums(orders)))
    ensures NeverOverpays(ts', |s.txs|, tx) <==> PaysAtMost(Payouts(tx), Zip(Receivers(orders), Sums(orders)))
    ensures Overfull(ts', |s.txs|) <==> TWO_96 in Sums(orders)
  {
    var t := |s.txs|;
    forall a: Address
      ensures LinkedTotal(ts', t, ToAddress(a)) == Paid(Zip(Receivers(orders), Sums(orders)), a)
    {
      CommitTotals(s, tx, orders, ToAddress(a));
      OwedByAddress(orders, a);
    }
    forall text ensures LinkedTotal(ts', t, ToText(text)) == RowsTotal(AllRows(orders), ToText(text)) {
      CommitTotals(s, tx, orders, ToText(text));
    }
    OwedSomeText(orders, TWO_96);
  }

  lemma NewTxOk(s: State, tx: Tx, orders: seq<Order>, ts': seq<Transfer>)
    requires WellFormed(s) && OrdersOk(s.transfers, orders) && orders != [] && Settles(tx, orders)
    requires ts' == Commit(s, tx, AllRows(orders)).transfers
    ensures TxOk(ts', |s.txs|, tx)
  {
    assert AllRows(orders) != [] by { assert OrderOk(orders[0]) && orders[0].rows[0] in AllRows(orders); }
    NewLinksAgree(s, tx, AllRows(orders), ts', AllRows(orders)[0].Multi());
    NewLinksFinish(s, tx, AllRows(orders), ts');
    NewTotals(s, tx, orders, ts');
  }

  lemma OldTxOk(s: State, tx: Tx, rows: seq<Transfer>, t: nat)
    requires WellFormed(s) && Fresh(s.transfers, rows) && DistinctIds(rows)
    requires t < |s.txs| && TxOk(s.transfers, t, s.txs[t])
    ensures TxOk(Commit(s, tx, rows).transfers, t, s.txs[t])
  {
    CommitLinks(s, tx, rows);
    TxOkFrame(s.transfers, Commit(s, tx, rows).transfers, t, s.txs[t]);
  }

  lemma InvAfterCommit(s: State, s': State, tx: Tx)
    requires s'.txs == s.txs + [tx] && WellFormed(s')
    requires forall t | 0 <= t < |s.txs| :: TxOk(s'.transfers, t, s.txs[t])
    requires TxOk(s'.transfers, |s.txs|, tx)
    ensures Inv(s')
  {
    hide TxOk, WellFormed;
    forall t | 0 <= t < |s'.txs| ensures TxOk(s'.transfers, t, s'.txs[t]) {
      if t < |s.txs| { assert s'.txs[t] == s.txs[t]; }
    }
  }

  /** Committing the right transaction for fresh groups keeps the ledger invariant. */
  lemma CommitKeepsInv(s: State, tx: Tx, orders: seq<Order>)
    requires Inv(s) && OrdersOk(s.transfers, orders) && orders != [] && Settles(tx, orders)
    ensures Inv(Commit(s, tx, AllRows(orders)))
  {
    var rows := AllRows(orders);
    var s' := Commit(s, tx, rows);
    assert WellFormed(s') by { CommitLinks(s, tx, rows); }
    forall t | 0 <= t < |s.txs| ensures TxOk(s'.transfers, t, s.txs[t]) {
      OldTxOk(s, tx, rows, t);
    }
    NewTxOk(s, tx, orders, s'.transfers);
    InvAfterCommit(s, s', tx);
  }

  /** A chunk's transaction settles the chunk. */
  lemma ChunkTxSettles(setup: PaymentSetup, chain: ChainSetup, key: MultiKey, chunk: seq<Order>)
    requires chunk != [] && key.token.Some? && OfKey(chunk, key)
    requires ChunkTx(setup, chain, key, chunk).Ok?
    ensures Settles(ChunkTx(setup, chain, key, chunk).value, chunk)
  {
    var tx := ChunkTx(setup, chain, key, chunk).value;
    var finish := AnyFinish(AllRows(chunk));
    EncodeChunkCarries(setup, chain, key, Receivers(chunk), Sums(chunk), finish);
    CarriedBatchIsPaid(tx, Receivers(chunk), Sums(chunk));
    forall row | row in AllRows(chunk) ensures Agrees(row, tx) {
      assert row.Multi() == key;
    }
  }
}
