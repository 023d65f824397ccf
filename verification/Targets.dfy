/** Where the transactions of a gather go: each calls the contract that is configured for its chain. */
module Targets {
  import opened Prelude
  import opened Text
  import opened Contracts
  import opened Ledger
  import opened Orders
  import opened Chunks
  import opened Gathering
  import opened MultiFacts
  import opened Deposits
  import opened PlanFacts

  /** The transaction is for a configured chain. A call of the lock contract goes to the one configured there; a multi
      payment goes to the multi contract configured there, with the methods the settings name. */
  predicate Aimed(setup: PaymentSetup, tx: Tx) {
    && tx.chainId in setup.chains
    && (tx.call.IsLock() ==> setup.chains[tx.chainId].lockContract == Some(tx.to))
    && (tx.call.IsMulti() ==>
          && setup.chains[tx.chainId].multiContract == Some(tx.to)
          && (tx.call.IsDirect() <==> setup.useDirectMethod)
          && (tx.call.IsPacked() <==> !setup.useUnpackedMethod))
  }

  ghost predicate AimedFrom(setup: PaymentSetup, txs: seq<Tx>, lo: nat) {
    forall t | lo <= t < |txs| :: Aimed(setup, txs[t])
  }

  // ---- the three encoders ----

  lemma ClosingAimed(setup: PaymentSetup, row: Transfer)
    requires Classify(setup, row).Closing?
    ensures Aimed(setup, Classify(setup, row).tx)
  {
    hide ParseAddress, ParseAmount, ParseU256;
  }

  lemma NativeAimed(setup: PaymentSetup, key: Key, rows: seq<Transfer>)
    requires NativeTx(setup, key, rows).Ok?
    ensures Aimed(setup, NativeTx(setup, key, rows).value)
  {
    hide ParseAddress, RowsSum, AllParse;
  }

  lemma ChunkAimed(setup: PaymentSetup, key: MultiKey, chunk: seq<Order>)
    requires key.chainId in setup.chains && chunk != [] && key.token.Some?
    requires ChunkTx(setup, setup.chains[key.chainId], key, chunk).Ok?
    ensures Aimed(setup, ChunkTx(setup, setup.chains[key.chainId], key, chunk).value)
  {
    hide EncodeChunk;
    var chain := setup.chains[key.chainId];
    EncodingTarget(setup, chain, key, Receivers(chunk), Sums(chunk), AnyFinish(AllRows(chunk)));
    EncodeChunkCarries(setup, chain, key, Receivers(chunk), Sums(chunk), AnyFinish(AllRows(chunk)));
  }

  // ---- the stages ----

  lemma CommitAimed(setup: PaymentSetup, s: State, tx: Tx, rows: seq<Transfer>, lo: nat)
    requires AimedFrom(setup, s.txs, lo) && Aimed(setup, tx)
    ensures AimedFrom(setup, Commit(s, tx, rows).txs, lo)
  {
    hide Aimed;
  }

  lemma {:induction false} PreRunAimed(setup: PaymentSetup, s: State, groups: Groups, rows: seq<Transfer>, lo: nat)
    requires AimedFrom(setup, s.txs, lo)
    ensures AimedFrom(setup, PreRun(setup, s, groups, rows).s.txs, lo)
    decreases |rows|
  {
    if rows != [] {
      hide Classify, Push, Put, Commit, AimedFrom;
      var row, rest := rows[0], rows[1..];
      match Classify(setup, row)
      case Rejected(e) =>
        PreRunAimed(setup, s.(transfers := Put(s.transfers, row.(error := Some(e)))), groups, rest, lo);
      case Stop(_) =>
      case Closing(tx) =>
        ClosingAimed(setup, row);
        CommitAimed(setup, s, tx, [row], lo);
        PreRunAimed(setup, Commit(s, tx, [row]), groups, rest, lo);
      case Grouped => PreRunAimed(setup, s, Push(groups, row), rest, lo);
    }
  }

  lemma {:induction false} PassAimed(setup: PaymentSetup, s: State, groups: Groups, keys: seq<Key>, multi: MultiMap,
                                     failed: set<Key>, lo: nat)
    requires (forall k | k in keys :: k in groups) && AimedFrom(setup, s.txs, lo)
    ensures AimedFrom(setup, SortedPass(setup, s, groups, keys, multi, failed).s.txs, lo)
    decreases |keys|
  {
    if keys != [] {
      hide NativeTx, Commit, AimedFrom, PushOrder;
      var key, rest := keys[0], keys[1..];
      assert key in keys;
      if key.token.None? {
        match NativeTx(setup, key, groups[key])
        case Err(_) => PassAimed(setup, s, groups, rest, multi, failed + {key}, lo);
        case Ok(tx) =>
          NativeAimed(setup, key, groups[key]);
          CommitAimed(setup, s, tx, groups[key], lo);
          PassAimed(setup, Commit(s, tx, groups[key]), groups, rest, multi, failed, lo);
      } else {
        match ParseAddress(key.receiver)
        case None =>
        case Some(receiver) =>
          PassAimed(setup, s, groups, rest, PushOrder(multi, key.Multi(), Order(receiver, groups[key])), failed, lo);
      }
    }
  }

  lemma {:induction false} BatchAimed(setup: PaymentSetup, key: MultiKey, s: State, orders: seq<Order>, lo: nat)
    requires key.chainId in setup.chains && setup.chains[key.chainId].maxAtOnce > 0 && key.token.Some?
    requires AimedFrom(setup, s.txs, lo)
    ensures AimedFrom(setup, BatchRun(setup, setup.chains[key.chainId], key, s, orders).s.txs, lo)
    decreases |orders|
  {
    if orders != [] {
      hide ChunkTx, Commit, AimedFrom, Aimed, AllRows;
      var chain := setup.chains[key.chainId];
      var n := Min(chain.maxAtOnce, |orders|);
      var chunk, rest := orders[..n], orders[n..];
      match ChunkTx(setup, chain, key, chunk)
      case Err(_) =>
      case Ok(tx) =>
        ChunkAimed(setup, key, chunk);
        CommitAimed(setup, s, tx, AllRows(chunk), lo);
        BatchAimed(setup, key, Commit(s, tx, AllRows(chunk)), rest, lo);
    }
  }

  lemma GroupAimed(setup: PaymentSetup, allowances: Allowances, key: MultiKey, s: State, orders: seq<Order>, lo: nat)
    requires ValidSetup(setup) && AimedFrom(setup, s.txs, lo)
    ensures AimedFrom(setup, BatchMulti(setup, allowances, key, s, orders).s.txs, lo)
    ensures AimedFrom(setup, AfterBatch(BatchMulti(setup, allowances, key, s, orders)).txs, lo)
  {
    hide BatchRun, CheckAllowance, AimedFrom;
    if key.chainId in setup.chains && key.token.Some? { BatchAimed(setup, key, s, orders, lo); }
  }

  lemma {:induction false} MultiAimed(setup: PaymentSetup, allowances: Allowances, s: State, multi: MultiMap,
                                      order: seq<MultiKey>, failed: set<MultiKey>, lo: nat)
    requires ValidSetup(setup) && (forall k | k in order :: k in multi) && AimedFrom(setup, s.txs, lo)
    ensures AimedFrom(setup, MultiRun(setup, allowances, s, multi, order, failed).s.txs, lo)
    decreases |order|
  {
    if order != [] {
      hide MultiRun, BatchMulti, AfterBatch, AimedFrom;
      var key := order[0];
      assert key in order;
      RunUnfolds(setup, allowances, s, multi, order, failed);
      GroupAimed(setup, allowances, key, s, multi[key], lo);
      var b := BatchMulti(setup, allowances, key, s, multi[key]);
      if !(b.error.Some? && b.error.value.NoAllowanceFound?) {
        MultiAimed(setup, allowances, AfterBatch(b), multi, order[1..],
                   if b.error.None? then failed else failed + {key}, lo);
      }
    } else {
      assert MultiRun(setup, allowances, s, multi, order, failed).s == s;
    }
  }

  // ---- the whole gather ----

  /** Every transaction inserted by a gather calls the contract configured for its chain, close markers included,
      however the gather ends and whatever requests come between its stages. */
  lemma NewTransactionsAimed(setup: PaymentSetup, allowances: Allowances, account: Address, chainId: int, s: State,
                             mid: State, g: Gather)
    requires ValidSetup(setup) && IsSplitGather(setup, allowances, account, chainId, s, mid, g)
    requires mid.txs == FirstStage(setup, account, chainId, s).txs
    ensures AimedFrom(setup, g.multi.s.txs, |s.txs|)
  {
    hide PreRun, SortedPass, MultiRun, AimedFrom, Pending;
    assert AimedFrom(setup, s.txs, |s.txs|) by { NoneYet(setup, s.txs); }
    PreRunAimed(setup, s, map[], Pending(s.transfers, account, chainId), |s.txs|);
    if g.pre.error.None? {
      PassAimed(setup, g.pre.s, g.pre.groups, g.keys, map[], {}, |s.txs|);
      if g.pass.error.None? {
        MultiAimed(setup, allowances, g.pass.s, g.pass.multi, g.order, {}, |s.txs|);
      }
    }
  }

  lemma NoneYet(setup: PaymentSetup, txs: seq<Tx>)
    ensures AimedFrom(setup, txs, |txs|)
  {
  }

  /** The same for an undisturbed gather. */
  lemma GatherAimed(setup: PaymentSetup, allowances: Allowances, account: Address, chainId: int, s: State, g: Gather)
    requires ValidSetup(setup) && IsGather(setup, allowances, account, chainId, s, g)
    ensures AimedFrom(setup, g.multi.s.txs, |s.txs|)
  {
    hide IsSecondStage, PreRun, Pending, AimedFrom;
    NewTransactionsAimed(setup, allowances, account, chainId, s, FirstStage(setup, account, chainId, s), g);
  }
}
