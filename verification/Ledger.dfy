/** The database tables the gathering works on, and what it means for a transaction to pay its transfers. */
module Ledger {
  import opened Prelude
  import opened Text
  import opened Contracts

  /** Five-part grouping key. */
  datatype Key = Key(from: string, receiver: string, chainId: int, token: Option<string>, deposit: Option<string>) {
    function Multi(): MultiKey {
      MultiKey(from, chainId, token, deposit)
    }
  }

  /** A row of table token_transfer. */
  datatype Transfer = Transfer(
    id: nat,
    fromAddr: string,
    receiverAddr: string,
    chainId: int,
    tokenAddr: Option<string>,
    tokenAmount: string,
    depositId: Option<string>,
    depositFinish: int,
    txId: Option<nat>,
    error: Option<string>)
  {
    function KeyOf(): Key {
      Key(fromAddr, receiverAddr, chainId, tokenAddr, depositId)
    }

    function Multi(): MultiKey {
      KeyOf().Multi()
    }

    function Amount(): nat {
      ParseAmount(tokenAmount).GetOr(0)
    }
  }

  /** Tables token_transfer and tx. Ids are positions: rows are appended and never deleted. */
  datatype State = State(transfers: seq<Transfer>, txs: seq<Tx>)

  /** UPDATE token_transfer SET ... WHERE id = row.id */
  function Put(ts: seq<Transfer>, row: Transfer): seq<Transfer> {
    if row.id < |ts| then ts[row.id := row] else ts
  }

  function LinkRow(row: Transfer, tx: nat): Transfer {
    row.(txId := Some(tx))
  }

  function LinkRows(ts: seq<Transfer>, rows: seq<Transfer>, tx: nat): seq<Transfer>
    decreases |rows|
  {
    if rows == [] then ts else LinkRows(Put(ts, LinkRow(rows[0], tx)), rows[1..], tx)
  }

  function MarkRows(ts: seq<Transfer>, rows: seq<Transfer>, error: string): seq<Transfer>
    decreases |rows|
  {
    if rows == [] then ts else MarkRows(Put(ts, rows[0].(error := Some(error))), rows[1..], error)
  }

  /** One database transaction: insert `tx` and link `rows` to it. */
  function Commit(s: State, tx: Tx, rows: seq<Transfer>): State {
    State(LinkRows(s.transfers, rows, |s.txs|), s.txs + [tx])
  }

  // ---- row lists ----

  ghost function Ids(rows: seq<Transfer>): set<nat> {
    set row | row in rows :: row.id
  }

  ghost predicate DistinctIds(rows: seq<Transfer>) {
    rows == [] || (rows[0].id !in Ids(rows[1..]) && DistinctIds(rows[1..]))
  }

  /** The rows are current copies of unlinked, error-free table rows. */
  ghost predicate Fresh(ts: seq<Transfer>, rows: seq<Transfer>) {
    forall row | row in rows :: row.id < |ts| && ts[row.id] == row && row.txId.None? && row.error.None?
  }

  ghost predicate InSync(ts: seq<Transfer>, rows: seq<Transfer>) {
    forall row | row in rows :: row.id < |ts| && ts[row.id] == row
  }

  lemma IdsCons(rows: seq<Transfer>)
    requires rows != []
    ensures Ids(rows) == {rows[0].id} + Ids(rows[1..])
  {
    assert rows == [rows[0]] + rows[1..];
  }

  lemma {:induction false} DistinctConcat(a: seq<Transfer>, b: seq<Transfer>)
    ensures DistinctIds(a + b) <==> DistinctIds(a) && DistinctIds(b) && Ids(a) !! Ids(b)
  {
    if a == [] {
      assert a + b == b;
    } else {
      assert (a + b)[1..] == a[1..] + b;
      DistinctConcat(a[1..], b);
      assert Ids(a + b) == Ids(a) + Ids(b);
      assert Ids(a[1..] + b) == Ids(a[1..]) + Ids(b);
      IdsCons(a);
    }
  }

  lemma {:induction false} LinkRowsTable(ts: seq<Transfer>, rows: seq<Transfer>, tx: nat)
    requires Fresh(ts, rows) && DistinctIds(rows)
    ensures var ts' := LinkRows(ts, rows, tx);
            && |ts'| == |ts|
            && (forall row | row in rows :: ts'[row.id] == LinkRow(row, tx))
            && forall i | 0 <= i < |ts| && i !in Ids(rows) :: ts'[i] == ts[i]
    decreases |rows|
  {
    if rows != [] {
      var ts1, rest := Put(ts, LinkRow(rows[0], tx)), rows[1..];
      assert rows == [rows[0]] + rest;
      assert Fresh(ts1, rest) by {
        forall row | row in rest ensures ts1[row.id] == row { assert row.id in Ids(rest); }
      }
      LinkRowsTable(ts1, rest, tx);
      assert Ids(rows) == {rows[0].id} + Ids(rest);
    }
  }

  lemma {:induction false} MarkRowsTable(ts: seq<Transfer>, rows: seq<Transfer>, error: string)
    requires InSync(ts, rows) && DistinctIds(rows)
    ensures var ts' := MarkRows(ts, rows, error);
            && |ts'| == |ts|
            && (forall row | row in rows :: ts'[row.id] == ts[row.id].(error := Some(error)))
            && forall i | 0 <= i < |ts| && i !in Ids(rows) :: ts'[i] == ts[i]
    decreases |rows|
  {
    if rows != [] {
      var ts1, rest := Put(ts, rows[0].(error := Some(error))), rows[1..];
      assert rows == [rows[0]] + rest;
      assert InSync(ts1, rest) by {
        forall row | row in rest ensures ts1[row.id] == row { assert row.id in Ids(rest); }
      }
      MarkRowsTable(ts1, rest, error);
      assert Ids(rows) == {rows[0].id} + Ids(rest);
      forall row | row in rest ensures ts1[row.id] == ts[row.id] { assert row.id in Ids(rest); }
    }
  }

  // ---- totals ----

  /** Which rows a total counts: those paying an address, or those spelling a receiver this way. */
  datatype Pick = ToAddress(a: Address) | ToText(text: string)

  predicate Counts(row: Transfer, pick: Pick) {
    match pick
    case ToAddress(a) => ParseAddress(row.receiverAddr) == Some(a)
    case ToText(text) => row.receiverAddr == text
  }

  function Share(row: Transfer, pick: Pick): nat {
    if Counts(row, pick) then row.Amount() else 0
  }

  function LinkedShare(row: Transfer, tx: nat, pick: Pick): nat {
    if row.txId == Some(tx) then Share(row, pick) else 0
  }

  function RowsTotal(rows: seq<Transfer>, pick: Pick): nat {
    if rows == [] then 0 else Share(rows[0], pick) + RowsTotal(rows[1..], pick)
  }

  /** What the rows linked to `tx` owe. */
  function LinkedTotal(ts: seq<Transfer>, tx: nat, pick: Pick): nat {
    if ts == [] then 0
    else LinkedTotal(ts[..|ts| - 1], tx, pick) + LinkedShare(ts[|ts| - 1], tx, pick)
  }

  lemma {:induction false} RowsTotalConcat(a: seq<Transfer>, b: seq<Transfer>, pick: Pick)
    ensures RowsTotal(a + b, pick) == RowsTotal(a, pick) + RowsTotal(b, pick)
  {
    if a == [] {
      assert a + b == b;
    } else {
      assert (a + b)[1..] == a[1..] + b;
      RowsTotalConcat(a[1..], b, pick);
    }
  }

  lemma {:induction false} PutTotal(ts: seq<Transfer>, row: Transfer, tx: nat, pick: Pick)
    requires row.id < |ts|
    ensures LinkedTotal(Put(ts, row), tx, pick) + LinkedShare(ts[row.id], tx, pick)
         == LinkedTotal(ts, tx, pick) + LinkedShare(row, tx, pick)
  {
    var n := |ts| - 1;
    if row.id == n {
      assert Put(ts, row)[..n] == ts[..n];
    } else {
      assert Put(ts, row)[..n] == Put(ts[..n], row);
      PutTotal(ts[..n], row, tx, pick);
    }
  }

  /** Linking rows to a transaction adds exactly what they owe to it, and changes no other. */
  lemma {:induction false} LinkRowsTotal(ts: seq<Transfer>, rows: seq<Transfer>, tx: nat, pick: Pick)
    requires Fresh(ts, rows) && DistinctIds(rows)
    ensures LinkedTotal(LinkRows(ts, rows, tx), tx, pick) == LinkedTotal(ts, tx, pick) + RowsTotal(rows, pick)
    decreases |rows|
  {
    if rows != [] {
      var ts1, rest := Put(ts, LinkRow(rows[0], tx)), rows[1..];
      PutTotal(ts, LinkRow(rows[0], tx), tx, pick);
      assert Fresh(ts1, rest) by {
        forall row | row in rest ensures ts1[row.id] == row { assert row.id in Ids(rest); }
      }
      LinkRowsTotal(ts1, rest, tx, pick);
    }
  }

  /** A total depends only on the rows linked to the transaction. */
  lemma {:induction false} LinkedTotalFrame(ts: seq<Transfer>, ts': seq<Transfer>, tx: nat, pick: Pick)
    requires |ts| <= |ts'|
    requires forall i | 0 <= i < |ts| :: LinkedShare(ts[i], tx, pick) == LinkedShare(ts'[i], tx, pick)
    requires forall i | |ts| <= i < |ts'| :: ts'[i].txId != Some(tx)
    ensures LinkedTotal(ts, tx, pick) == LinkedTotal(ts', tx, pick)
  {
    if ts' != [] {
      var n := |ts'| - 1;
      if |ts| == |ts'| { LinkedTotalFrame(ts[..n], ts'[..n], tx, pick); }
      else { LinkedTotalFrame(ts, ts'[..n], tx, pick); }
    }
  }

  // ---- the invariant ----

  ghost predicate Linked(ts: seq<Transfer>, i: int, tx: nat) {
    0 <= i < |ts| && ts[i].txId == Some(tx)
  }

  /** The transaction is one this row may be paid by. */
  predicate Agrees(row: Transfer, tx: Tx) {
    && ParseAddress(row.fromAddr) == Some(tx.from)
    && row.chainId == tx.chainId
    && (tx.call.IsLock() ==> row.depositId.Some? && ParseU256(row.depositId.value) == Some(tx.call.id))
    && (tx.call.IsLock() ==> row.tokenAddr.Some? || tx.call.CloseDeposit?)
    && (tx.call.CloseDeposit? ==> row.depositFinish > 0 && ParseAddress(row.receiverAddr) == Some(0))
    && (if tx.call.EthTransfer? then row.tokenAddr.None? else tx.value == 0)
    && (tx.call.Erc20Transfer? ==> row.tokenAddr.Some? && ParseAddress(row.tokenAddr.value) == Some(tx.to))
  }

  /** Some rows are linked to tx number t, all of one four-part key, and all agree with it. */
  ghost predicate LinksAgree(ts: seq<Transfer>, t: nat, tx: Tx) {
    && (exists i :: Linked(ts, i, t))
    && (forall i | Linked(ts, i, t) :: Agrees(ts[i], tx))
    && (forall i, j | Linked(ts, i, t) && Linked(ts, j, t) :: ts[i].Multi() == ts[j].Multi())
  }

  ghost predicate LinksFinish(ts: seq<Transfer>, t: nat) {
    exists i :: Linked(ts, i, t) && ts[i].depositFinish > 0
  }

  ghost predicate PaysLinked(ts: seq<Transfer>, t: nat, tx: Tx) {
    forall a: Address :: Paid(Payouts(tx), a) == LinkedTotal(ts, t, ToAddress(a))
  }

  ghost predicate NeverOverpays(ts: seq<Transfer>, t: nat, tx: Tx) {
    forall a: Address :: Paid(Payouts(tx), a) <= LinkedTotal(ts, t, ToAddress(a))
  }

  /** Some receiver's linked transfers add up to exactly 2^96. */
  ghost predicate Overfull(ts: seq<Transfer>, t: nat) {
    exists text :: LinkedTotal(ts, t, ToText(text)) == TWO_96
  }

  /** Transaction number t is a payment of exactly the rows linked to it, and closes their deposit
      exactly when one of them asks for it. */
  ghost predicate TxOk(ts: seq<Transfer>, t: nat, tx: Tx) {
    && LinksAgree(ts, t, tx)
    && (tx.call.Closes() <==> tx.call.IsLock() && LinksFinish(ts, t))
    && (PaysLinked(ts, t, tx) <==> !(tx.call.IsPacked() && Overfull(ts, t)))
    && NeverOverpays(ts, t, tx)
  }

  ghost predicate WellFormed(s: State) {
    forall i | 0 <= i < |s.transfers| ::
      s.transfers[i].id == i && (s.transfers[i].txId.Some? ==> s.transfers[i].txId.value < |s.txs|)
  }

  ghost predicate Inv(s: State) {
    WellFormed(s) && forall t {:trigger TxOk(s.transfers, t, s.txs[t])} | 0 <= t < |s.txs| ::
      TxOk(s.transfers, t, s.txs[t])
  }

  lemma WellFormedLedger(s: State)
    requires Inv(s)
    ensures WellFormed(s)
  {
  }

  /** Same row up to the error text. */
  predicate SamePayment(x: Transfer, y: Transfer) {
    x.(error := None) == y.(error := None)
  }

  /** The rows linked to t are the same, up to their error text, in both tables. */
  ghost predicate SameLinks(ts: seq<Transfer>, ts': seq<Transfer>, t: nat) {
    && |ts| <= |ts'|
    && (forall i :: Linked(ts', i, t) ==> i < |ts|)
    && (forall i | 0 <= i < |ts| && (Linked(ts, i, t) || Linked(ts', i, t)) :: SamePayment(ts[i], ts'[i]))
  }

  lemma SameLinksTotal(ts: seq<Transfer>, ts': seq<Transfer>, t: nat, pick: Pick)
    requires SameLinks(ts, ts', t)
    ensures LinkedTotal(ts, t, pick) == LinkedTotal(ts', t, pick)
  {
    forall i | 0 <= i < |ts| ensures LinkedShare(ts[i], t, pick) == LinkedShare(ts'[i], t, pick) {
      assert Linked(ts, i, t) || Linked(ts', i, t) ==> SamePayment(ts[i], ts'[i]);
    }
    forall i | |ts| <= i < |ts'| ensures ts'[i].txId != Some(t) {
      assert Linked(ts', i, t) ==> i < |ts|;
    }
    LinkedTotalFrame(ts, ts', t, pick);
  }

  /** TxOk survives any change that leaves the rows of the transaction alone. */
  lemma TxOkFrame(ts: seq<Transfer>, ts': seq<Transfer>, t: nat, tx: Tx)
    requires SameLinks(ts, ts', t) && TxOk(ts, t, tx)
    ensures TxOk(ts', t, tx)
  {
    forall i | Linked(ts, i, t) || Linked(ts', i, t)
      ensures Linked(ts, i, t) && Linked(ts', i, t)
      ensures ts'[i].Multi() == ts[i].Multi() && ts'[i].depositFinish == ts[i].depositFinish
      ensures Agrees(ts[i], tx) && Agrees(ts'[i], tx)
    {
      assert SamePayment(ts[i], ts'[i]);
    }
    forall pick ensures LinkedTotal(ts, t, pick) == LinkedTotal(ts', t, pick) {
      SameLinksTotal(ts, ts', t, pick);
    }
    assert LinksFinish(ts, t) <==> LinksFinish(ts', t);
    assert PaysLinked(ts, t, tx) <==> PaysLinked(ts', t, tx);
    assert Overfull(ts, t) <==> Overfull(ts', t);
    assert NeverOverpays(ts, t, tx) <==> NeverOverpays(ts', t, tx);
  }
}
