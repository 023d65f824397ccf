/** A whole gather against its plan: when it fails, what becomes of every row, and how many transactions it makes. */
module GatherPlan {
  import opened Prelude
  import opened Text
  import opened Contracts
  import opened Ledger
  import opened Orders
  import opened Chunks
  import opened Gathering
  import opened GatherFacts
  import opened PostFacts
  import opened MultiFacts
  import opened GatherTheorems
  import opened Plan
  import opened PlanFacts

  // ---- the first stage ----

  lemma PendingRows(s: State, account: Address, chainId: int)
    requires Inv(s)
    ensures Ascending(Pending(s.transfers, account, chainId))
  {
    PendingAscending(s.transfers, account, chainId);
  }

  /** The first stage builds the planned groups, or stops at a row it cannot classify. */
  lemma PreAsPlanned(setup: PaymentSetup, allowances: Allowances, account: Address, chainId: int, s: State, g: Gather)
    requires ValidSetup(setup) && Inv(s) && IsGather(setup, allowances, account, chainId, s, g)
    ensures var rows := Pending(s.transfers, account, chainId);
            && (g.pre.error.None? <==> !Stops(setup, rows))
            && (g.pre.error.None? ==> g.pre.groups == PlanGroups(setup, rows) && g.keys == PayKeys(setup, rows))
  {
    hide Inv, PreRun, SortedPass, MultiRun, PlanGroups, Stops, Pending;
    var rows := Pending(s.transfers, account, chainId);
    NoRowsNoGroups(setup);
    PreRunPlan(setup, s, map[], [], rows);
    assert [] + rows == rows;
    if g.pre.error.None? {
      PendingRows(s, account, chainId);
      PlanIsSorted(setup, rows);
      PayKeysFacts(setup, rows);
      SortedIsUnique(g.pre.groups, g.keys, PayKeys(setup, rows));
    }
  }

  lemma NoRowsNoGroups(setup: PaymentSetup)
    ensures GroupsSeen(setup, map[], [])
  {
  }

  // ---- the second stage ----

  /** The second stage collects the planned groups and leaves exactly the native groups that cannot be paid. */
  ghost predicate PassOfPlan(setup: PaymentSetup, rows: seq<Transfer>, s: State, pass: PassOutcome) {
    && pass.error.None?
    && (forall k :: k in pass.failed <==> k in PayKeys(setup, rows) && NativeFails(setup, rows, k))
    && |pass.s.txs| == |s.txs| + NativeCount(setup, PlanGroups(setup, rows), PayKeys(setup, rows))
    && (forall mk :: mk in pass.multi <==> PaysToken(setup, rows, mk))
    && forall mk | mk in pass.multi :: pass.multi[mk] == PlanOrders(setup, rows, mk)
  }

  ghost predicate HasTokenKey(keys: seq<Key>, mk: MultiKey) {
    exists key :: key in keys && key.token.Some? && key.Multi() == mk
  }

  ghost predicate PaysToken(setup: PaymentSetup, rows: seq<Transfer>, mk: MultiKey) {
    HasTokenKey(PayKeys(setup, rows), mk)
  }

  lemma CollectedIsPlanned(setup: PaymentSetup, rows: seq<Transfer>, multi: MultiMap, mk: MultiKey)
    requires forall k | k in PayKeys(setup, rows) :: k in PlanGroups(setup, rows)
    requires mk.token.Some? && CollectedAs(PlanGroups(setup, rows), PayKeys(setup, rows), map[], multi, mk)
    ensures mk in multi <==> PaysToken(setup, rows, mk)
    ensures mk in multi ==> multi[mk] == PlanOrders(setup, rows, mk)
  {
    hide PlanGroups, PayKeys;
    var keys := PayKeys(setup, rows);
    KeysOfFacts(keys, mk);
    if key :| key in keys && key.token.Some? && key.Multi() == mk { assert key in KeysOf(keys, mk); }
    if KeysOf(keys, mk) != [] { assert KeysOf(keys, mk)[0] in KeysOf(keys, mk); }
    assert [] + PlanOrders(setup, rows, mk) == PlanOrders(setup, rows, mk);
  }

  lemma PassAsPlan(setup: PaymentSetup, allowances: Allowances, account: Address, chainId: int, s: State, g: Gather)
    requires ValidSetup(setup) && Inv(s) && IsGather(setup, allowances, account, chainId, s, g) && g.pre.error.None?
    ensures PassOfPlan(setup, Pending(s.transfers, account, chainId), g.pre.s, g.pass)
  {
    hide Inv, PreRun, SortedPass, MultiRun, Pending, Fails, PassAsPlanned, CollectedAs, PlanGroups;
    var rows := Pending(s.transfers, account, chainId);
    PreAsPlanned(setup, allowances, account, chainId, s, g);
    PreStage(setup, s, account, chainId, g.pre);
    PassStage(setup, g.pre, g.keys, g.pass);
    GroupsParse(setup, g.pre.s.transfers, g.pre.groups, g.keys);
    PassPlan(setup, g.pre.s, g.pre.groups, g.keys, map[], {});
    FromPassPlan(setup, rows, g.pre.s, g.pass);
  }

  lemma GroupsParse(setup: PaymentSetup, ts: seq<Transfer>, groups: Groups, keys: seq<Key>)
    requires GroupsOk(setup, ts, groups) && forall k | k in keys :: k in groups
    ensures ReceiversParse(groups, keys)
  {
    forall k | k in keys ensures ParseAddress(k.receiver).Some? {
      assert GroupOk(setup, ts, k, groups[k]);
      GroupReceiver(setup, ts, k, groups[k]);
    }
  }

  lemma FromPassPlan(setup: PaymentSetup, rows: seq<Transfer>, s: State, pass: PassOutcome)
    requires forall k | k in PayKeys(setup, rows) :: k in PlanGroups(setup, rows)
    requires PassAsPlanned(setup, PlanGroups(setup, rows), PayKeys(setup, rows), map[], {}, s, pass)
    requires PassSound(pass)
    ensures PassOfPlan(setup, rows, s, pass)
  {
    hide CollectedAs, Inv, NativeTx, PaysToken;
    forall mk ensures mk in pass.multi <==> PaysToken(setup, rows, mk) {
      if mk.token.Some? { CollectedIsPlanned(setup, rows, pass.multi, mk); }
      else { NoTokenNoPay(setup, rows, mk); }
    }
    forall mk | mk in pass.multi ensures pass.multi[mk] == PlanOrders(setup, rows, mk) {
      CollectedIsPlanned(setup, rows, pass.multi, mk);
    }
  }

  lemma NoTokenNoPay(setup: PaymentSetup, rows: seq<Transfer>, mk: MultiKey)
    requires mk.token.None?
    ensures !PaysToken(setup, rows, mk)
  {
  }

  // ---- when a gather fails ----

  /** Exactly when a gather returns an error, and exactly which groups and batches fail otherwise: all of it can be
      told from the pending rows, the settings and the allowances. */
  lemma GatherErrors(setup: PaymentSetup, allowances: Allowances, account: Address, chainId: int, s: State, g: Gather)
    requires ValidSetup(setup) && Inv(s) && IsGather(setup, allowances, account, chainId, s, g)
    ensures var rows := Pending(s.transfers, account, chainId);
            && (g.Error().None? <==> !Stops(setup, rows) && AllowancesMet(setup, allowances, rows))
            && (g.Error().None? ==>
                  && (forall k :: k in g.pass.failed <==> k in PayKeys(setup, rows) && NativeFails(setup, rows, k))
                  && (forall mk :: mk in g.multi.failed <==>
                        PaysToken(setup, rows, mk) && PlanError(setup, allowances, rows, mk).Some?))
            && (g.Clean() <==> Succeeds(setup, allowances, rows))
  {
    var rows := Pending(s.transfers, account, chainId);
    hide Inv, PreRun, SortedPass, MultiRun, Pending, NativeFails, Stops, PlanGroups, PlanOrders, BatchError, Committed;
    PreAsPlanned(setup, allowances, account, chainId, s, g);
    if g.pre.error.None? {
      PassAsPlan(setup, allowances, account, chainId, s, g);
      MultiAsPlan(setup, allowances, account, chainId, s, g);
      CleanFromErrors(setup, allowances, rows, g);
    }
  }

  ghost predicate MultiErrors(setup: PaymentSetup, allowances: Allowances, rows: seq<Transfer>, multi: MultiOutcome)
    requires ValidSetup(setup)
  {
    && (multi.error.None? <==> AllowancesMet(setup, allowances, rows))
    && (multi.error.None? ==> forall mk :: mk in multi.failed <==>
          PaysToken(setup, rows, mk) && PlanError(setup, allowances, rows, mk).Some?)
  }

  lemma ReadyForMulti(pass: PassOutcome, order: seq<MultiKey>)
    requires PassSound(pass) && Enumerates(order, pass.multi.Keys)
    ensures MultiReady(pass.s, pass.multi, order)
  {
  }

  lemma ErrorsFromPlan(setup: PaymentSetup, allowances: Allowances, rows: seq<Transfer>, s: State, pass: PassOutcome,
                       order: seq<MultiKey>, multi: MultiOutcome)
    requires ValidSetup(setup) && PassOfPlan(setup, rows, s, pass) && Enumerates(order, pass.multi.Keys)
    requires forall k | k in order :: k in pass.multi && k.token.Some?
    requires multi.error.None? <==> forall k | k in order :: !LacksAllowance(setup, allowances, pass.multi, k)
    requires multi.error.None? ==>
               MultiAsPlanned(setup, allowances, pass.s, pass.multi, order, {}, multi)
    ensures MultiErrors(setup, allowances, rows, multi)
  {
    hide PlanOrders, BatchError, CommittedSum, PlacedSomewhere, PayKeys, NativeFails;
    forall key | key in PayKeys(setup, rows) && key.token.Some? ensures key.Multi() in order {
      assert PaysToken(setup, rows, key.Multi());
    }
    forall k | k in order
      ensures LacksAllowance(setup, allowances, pass.multi, k) <==>
              PlanError(setup, allowances, rows, k).Some? &&
              PlanError(setup, allowances, rows, k).value.NoAllowanceFound?
      ensures exists key :: key in PayKeys(setup, rows) && key.token.Some? && key.Multi() == k
    {
      assert PaysToken(setup, rows, k);
    }
  }

  lemma MultiAsPlan(setup: PaymentSetup, allowances: Allowances, account: Address, chainId: int, s: State, g: Gather)
    requires ValidSetup(setup) && Inv(s) && IsGather(setup, allowances, account, chainId, s, g) && g.pre.error.None?
    ensures MultiErrors(setup, allowances, Pending(s.transfers, account, chainId), g.multi)
    ensures g.multi.error.None? ==>
              (forall k | k in g.order :: k in g.pass.multi && k.token.Some?) &&
              MultiAsPlanned(setup, allowances, g.pass.s, g.pass.multi, g.order, {}, g.multi)
  {
    hide Inv, PreRun, SortedPass, MultiRun, Pending, PassOfPlan, MultiErrors, MultiAsPlanned, LacksAllowance;
    var rows := Pending(s.transfers, account, chainId);
    PreStage(setup, s, account, chainId, g.pre);
    PassStage(setup, g.pre, g.keys, g.pass);
    PassAsPlan(setup, allowances, account, chainId, s, g);
    NoPassError(setup, rows, g.pre.s, g.pass);
    ReadyForMulti(g.pass, g.order);
    assert forall k | k in g.order :: k in g.pass.multi && k.token.Some? by {
      assert MapOk(g.pass.s.transfers, g.pass.multi); }
    MultiPlan(setup, allowances, g.pass.s, g.pass.multi, g.order, {}, g.multi);
    ErrorsFromPlan(setup, allowances, rows, g.pre.s, g.pass, g.order, g.multi);
  }

  lemma NoPassError(setup: PaymentSetup, rows: seq<Transfer>, s: State, pass: PassOutcome)
    requires PassOfPlan(setup, rows, s, pass)
    ensures pass.error.None?
  {
  }

  lemma CleanFromErrors(setup: PaymentSetup, allowances: Allowances, rows: seq<Transfer>, g: Gather)
    requires ValidSetup(setup) && g.pre.error.None? && !Stops(setup, rows) && g.pass.error.None?
    requires forall k :: k in g.pass.failed <==> k in PayKeys(setup, rows) && NativeFails(setup, rows, k)
    requires MultiErrors(setup, allowances, rows, g.multi)
    ensures g.Clean() <==> Succeeds(setup, allowances, rows)
  {
    hide PlanError, NativeFails, Stops;
    forall key | key in PayKeys(setup, rows) && key.token.Some? ensures PaysToken(setup, rows, key.Multi()) {}
  }

  // ---- the same, told from settings, allowances and amounts alone ----

  /** A group in the chain's own currency fails exactly when its chain is not configured or an amount is unreadable. */
  lemma NativeFailsIff(setup: PaymentSetup, rows: seq<Transfer>, key: Key)
    requires key in PayKeys(setup, rows) && key.token.None?
    ensures NativeFails(setup, rows, key) <==>
            key.chainId !in setup.chains ||
            exists row :: row in rows && Classify(setup, row).Grouped? && row.KeyOf() == key &&
                          ParseAmount(row.tokenAmount).None?
  {
    hide ParseAddress, ParseAmount;
    PayKeysFacts(setup, rows);
    assert Pays(setup, rows, key);
    KeyRowsFacts(setup, rows, key);
  }

  /** The receiver's group at position i among the groups of mk is readable and fits the chunk around it. */
  predicate GroupFits(setup: PaymentSetup, rows: seq<Transfer>, mk: MultiKey, i: nat) {
    var keys := KeysOf(PayKeys(setup, rows), mk);
    && mk.chainId in setup.chains && setup.chains[mk.chainId].maxAtOnce > 0 && i < |keys|
    && AllParse(KeyRows(setup, rows, keys[i]))
    && Fits(setup, setup.chains[mk.chainId], mk, SizeAround(|keys|, setup.chains[mk.chainId].maxAtOnce, i),
            RowsSum(KeyRows(setup, rows, keys[i])))
  }

  /** Exactly when a batch does not fail. */
  lemma BatchOkIff(setup: PaymentSetup, allowances: Allowances, rows: seq<Transfer>, mk: MultiKey)
    requires ValidSetup(setup) && mk.token.Some?
    ensures PlanError(setup, allowances, rows, mk).None? <==>
            && mk.chainId in setup.chains
            && (Checked(setup, mk) ==> Approved(setup, allowances, mk))
            && forall i: nat | i < |KeysOf(PayKeys(setup, rows), mk)| :: GroupFits(setup, rows, mk, i)
  {
    hide CheckAllowance, ChunkError, AllFit, KeyRows, PayKeys, KeysOf, Fits, Checked, Approved, Lacks, RequestFor;
    var orders := PlanOrders(setup, rows, mk);
    if mk.chainId in setup.chains {
      Gate(setup, allowances, mk);
      BatchFits(setup, setup.chains[mk.chainId], mk, orders);
      AllFitIsGroups(setup, rows, mk);
    }
  }

  lemma AllFitIsGroups(setup: PaymentSetup, rows: seq<Transfer>, mk: MultiKey)
    requires ValidSetup(setup) && mk.chainId in setup.chains
    ensures AllFit(setup, setup.chains[mk.chainId], mk, PlanOrders(setup, rows, mk)) <==>
            forall i: nat | i < |KeysOf(PayKeys(setup, rows), mk)| :: GroupFits(setup, rows, mk, i)
  {
    hide KeyRows, PayKeys, KeysOf, Fits;
    var orders, keys, chain := PlanOrders(setup, rows, mk), KeysOf(PayKeys(setup, rows), mk), setup.chains[mk.chainId];
    PlanOrdersLength(setup, rows, mk);
    forall i: nat | i < |keys|
      ensures OrderFits(setup, chain, mk, SizeAround(|orders|, chain.maxAtOnce, i), orders[i]) <==>
              GroupFits(setup, rows, mk, i)
    {
      PayKeysFacts(setup, rows);
      KeysOfFacts(PayKeys(setup, rows), mk);
    }
  }

  /** The chain is configured, and the group's amounts are readable; a token group also has its allowance, and all
      groups of its four-part key fit. */
  predicate GroupPayable(setup: PaymentSetup, allowances: Allowances, rows: seq<Transfer>, key: Key) {
    && key.chainId in setup.chains
    && if key.token.None? then AllParse(KeyRows(setup, rows, key))
       else
         && (Checked(setup, key.Multi()) ==> Approved(setup, allowances, key.Multi()))
         && forall i: nat | i < |KeysOf(PayKeys(setup, rows), key.Multi())| :: GroupFits(setup, rows, key.Multi(), i)
  }

  lemma PayableIff(setup: PaymentSetup, allowances: Allowances, rows: seq<Transfer>, key: Key)
    requires ValidSetup(setup) && key in PayKeys(setup, rows)
    ensures GroupPayable(setup, allowances, rows, key) <==>
            if key.token.None? then !NativeFails(setup, rows, key)
            else PlanError(setup, allowances, rows, key.Multi()).None?
  {
    hide Classify, Checked, Approved, KeyRows, PayKeys, KeysOf, NativeFails, PlanError, GroupFits, ParseAmount;
    if key.token.None? {
      NativeFailsIff(setup, rows, key);
      KeyRowsFacts(setup, rows, key);
    } else {
      BatchOkIff(setup, allowances, rows, key.Multi());
    }
  }

  /** Exactly when nothing fails. */
  lemma SucceedsIff(setup: PaymentSetup, allowances: Allowances, rows: seq<Transfer>)
    requires ValidSetup(setup)
    ensures Succeeds(setup, allowances, rows) <==>
            && (forall row | row in rows :: !Classify(setup, row).Stop?)
            && forall key | key in PayKeys(setup, rows) :: GroupPayable(setup, allowances, rows, key)
  {
    hide Classify, PayKeys, NativeFails, PlanError, GroupPayable;
    forall key | key in PayKeys(setup, rows)
      ensures GroupPayable(setup, allowances, rows, key) <==>
              if key.token.None? then !NativeFails(setup, rows, key)
              else PlanError(setup, allowances, rows, key.Multi()).None?
    {
      PayableIff(setup, allowances, rows, key);
    }
    if Succeeds(setup, allowances, rows) {
      forall key | key in PayKeys(setup, rows) ensures GroupPayable(setup, allowances, rows, key) {
        assert !NativeFails(setup, rows, key);
      }
    } else {
      NativeFailsIsNative(setup, rows);
    }
  }

  lemma NativeFailsIsNative(setup: PaymentSetup, rows: seq<Transfer>)
    ensures forall key | NativeFails(setup, rows, key) :: key.token.None?
  {
  }

  // ---- what becomes of every row ----

  predicate Joins(row': Transfer, row: Transfer, lo: nat, hi: nat) {
    row'.txId.Some? && lo <= row'.txId.value < hi && row' == LinkRow(row, row'.txId.value)
  }

  /** The new value of a pending row, from its contents, the other pending rows, the settings and the allowances.
      A row of a batch that fails carries the failure text, and keeps a transaction exactly when its chunk comes
      before the first that cannot be encoded. */
  ghost predicate PlannedFate(setup: PaymentSetup, allowances: Allowances, rows: seq<Transfer>, row: Transfer,
                              row': Transfer, lo: nat, hi: nat)
    requires ValidSetup(setup)
  {
    match Classify(setup, row)
    case Rejected(e) => row' == row.(error := Some(e))
    case Stop(_) => false
    case Closing(_) => Joins(row', row, lo, hi)
    case Grouped =>
      if row.tokenAddr.None? then
        if NativeFails(setup, rows, row.KeyOf()) then row' == row else Joins(row', row, lo, hi)
      else if PlanError(setup, allowances, rows, row.Multi()).None? then Joins(row', row, lo, hi)
      else
        && row'.error == Some(GATHER_ERROR)
        && if RowCommitted(setup, allowances, row.Multi(), PlanOrders(setup, rows, row.Multi()), row)
           then Joins(row'.(error := None), row, lo, hi)
           else row'.(error := None) == row
  }

  /** After an error-free gather every pending row has exactly its planned fate, and no other row has changed. */
  lemma GatherFollowsPlan(setup: PaymentSetup, allowances: Allowances, account: Address, chainId: int, s: State,
                          g: Gather, i: nat)
    requires ValidSetup(setup) && Inv(s) && IsGather(setup, allowances, account, chainId, s, g) && g.Error().None?
    requires i < |s.transfers|
    ensures i < |g.multi.s.transfers|
    ensures if IsPending(s.transfers[i], account, chainId)
            then PlannedFate(setup, allowances, Pending(s.transfers, account, chainId), s.transfers[i],
                             g.multi.s.transfers[i], |s.txs|, |g.multi.s.txs|)
            else g.multi.s.transfers[i] == s.transfers[i]
  {
    hide IsGather, Inv, Pending, NativeFails, PlanError, RowCommitted, PlanOrders, Classify;
    GatherFates(setup, allowances, account, chainId, s, g, i);
    var rows, row := Pending(s.transfers, account, chainId), s.transfers[i];
    if IsPending(row, account, chainId) {
      PendingComplete(s.transfers, account, chainId, i);
      RowIsIn(s, i);
      GatherErrors(setup, allowances, account, chainId, s, g);
      if Classify(setup, row).Grouped? {
        GroupedIsPaid(setup, rows, row);
        if row.tokenAddr.Some? {
          LinkedIffCommitted(setup, allowances, account, chainId, s, g, row);
          MarkedFate(setup, allowances, rows, s, g, row, g.multi.s.transfers[i]);
        }
      }
    }
  }

  lemma RowIsIn(s: State, i: nat)
    requires Inv(s) && i < |s.transfers|
    ensures s.transfers[i].id == i
  {
  }

  lemma GroupedIsPaid(setup: PaymentSetup, rows: seq<Transfer>, row: Transfer)
    requires row in rows && Classify(setup, row).Grouped?
    ensures row.KeyOf() in PayKeys(setup, rows)
    ensures row.tokenAddr.Some? ==> PaysToken(setup, rows, row.Multi())
  {
    PayKeysFacts(setup, rows);
    assert Pays(setup, rows, row.KeyOf());
  }

  lemma MarkedFate(setup: PaymentSetup, allowances: Allowances, rows: seq<Transfer>, s: State, g: Gather, row: Transfer,
                   row': Transfer)
    requires ValidSetup(setup) && Fate(setup, s, g, row, row') && row.txId.None?
    requires Classify(setup, row).Grouped? && row.tokenAddr.Some?
    requires row.Multi() in g.multi.failed <==> PlanError(setup, allowances, rows, row.Multi()).Some?
    requires row'.txId.Some? <==>
               RowCommitted(setup, allowances, row.Multi(), PlanOrders(setup, rows, row.Multi()), row)
    ensures PlannedFate(setup, allowances, rows, row, row', |s.txs|, |g.multi.s.txs|)
  {
    hide PlanError, RowCommitted, PlanOrders, Classify;
  }

  // ---- where the transactions are ----

  /** At the end of an error-free gather the committed chunks of every batch sit in consecutive new transactions, each
      with exactly its rows, whatever batches came before or after. */
  lemma BatchesArePlaced(setup: PaymentSetup, allowances: Allowances, account: Address, chainId: int, s: State,
                         g: Gather, mk: MultiKey)
    requires ValidSetup(setup) && Inv(s) && IsGather(setup, allowances, account, chainId, s, g) && g.Error().None?
    requires PaysToken(setup, Pending(s.transfers, account, chainId), mk)
    ensures mk.token.Some?
    ensures PlacedSomewhere(setup, allowances, mk, PlanOrders(setup, Pending(s.transfers, account, chainId), mk),
                            g.multi.s, |s.txs|)
  {
    hide Inv, PreRun, SortedPass, MultiRun, Pending, PlanOrders, BatchPlaced, PaysToken;
    var rows := Pending(s.transfers, account, chainId);
    PassAsPlan(setup, allowances, account, chainId, s, g);
    MultiAsPlan(setup, allowances, account, chainId, s, g);
    PassGrows(setup, allowances, account, chainId, s, g);
    assert mk in g.pass.multi && mk in g.order;
    assert PlacedSomewhere(setup, allowances, mk, g.pass.multi[mk], g.multi.s, |g.pass.s.txs|);
  }

  lemma PassGrows(setup: PaymentSetup, allowances: Allowances, account: Address, chainId: int, s: State, g: Gather)
    requires ValidSetup(setup) && Inv(s) && IsGather(setup, allowances, account, chainId, s, g) && g.Error().None?
    ensures s.txs <= g.pass.s.txs <= g.multi.s.txs && Evolves(g.pass.s, g.multi.s) && |s.txs| <= |g.pre.s.txs|
  {
    hide Inv, PreRun, SortedPass, MultiRun, Pending, Evolves;
    PreStage(setup, s, account, chainId, g.pre);
    PassStage(setup, g.pre, g.keys, g.pass);
    MultiStage(setup, allowances, g.pass, g.order, g.multi);
  }

  /** A row of a batch is linked exactly when its chunk is committed. */
  lemma LinkedIffCommitted(setup: PaymentSetup, allowances: Allowances, account: Address, chainId: int, s: State,
                           g: Gather, row: Transfer)
    requires ValidSetup(setup) && Inv(s) && IsGather(setup, allowances, account, chainId, s, g) && g.Error().None?
    requires row in Pending(s.transfers, account, chainId) && Classify(setup, row).Grouped? && row.tokenAddr.Some?
    ensures row.id < |g.multi.s.transfers|
    ensures g.multi.s.transfers[row.id].txId.Some? <==>
              RowCommitted(setup, allowances, row.Multi(),
                           PlanOrders(setup, Pending(s.transfers, account, chainId), row.Multi()), row)
  {
    hide IsGather, Inv, Pending, PlanOrders, RowCommitted, Classify, ChunkPlaced, Committed;
    var rows, mk := Pending(s.transfers, account, chainId), row.Multi();
    GroupedIsPaid(setup, rows, row);
    BatchesArePlaced(setup, allowances, account, chainId, s, g, mk);
    RowInOrders(setup, rows, row);
  }

  /** A row to be paid is in the orders of its four-part key. */
  lemma RowInOrders(setup: PaymentSetup, rows: seq<Transfer>, row: Transfer)
    requires row in rows && Classify(setup, row).Grouped?
    ensures row in AllRows(PlanOrders(setup, rows, row.Multi()))
  {
    var keys, mk := PayKeys(setup, rows), row.Multi();
    GroupedIsPaid(setup, rows, row);
    KeysOfFacts(keys, mk);
    KeyRowsFacts(setup, rows, row.KeyOf());
    var orders := PlanOrders(setup, rows, mk);
    var i :| 0 <= i < |KeysOf(keys, mk)| && KeysOf(keys, mk)[i] == row.KeyOf();
    assert orders[i].rows == KeyRows(setup, rows, row.KeyOf());
    OrderRowsIn(orders, orders[i], row);
  }

  /** At the end of an error-free gather every payable group in the chain's own currency has its own new transaction,
      with exactly its rows. */
  lemma NativeIsPlaced(setup: PaymentSetup, allowances: Allowances, account: Address, chainId: int, s: State, g: Gather,
                       key: Key) returns (t: nat)
    requires ValidSetup(setup) && Inv(s) && IsGather(setup, allowances, account, chainId, s, g) && g.Error().None?
    requires key in PayKeys(setup, Pending(s.transfers, account, chainId)) && key.token.None?
    requires !NativeFails(setup, Pending(s.transfers, account, chainId), key)
    ensures |s.txs| <= t
    ensures CarriesGroup(setup, key, KeyRows(setup, Pending(s.transfers, account, chainId), key), g.multi.s, t)
  {
    hide Inv, PreRun, SortedPass, MultiRun, Pending, PayKeys, CarriesGroup, NativeTx;
    PreStage(setup, s, account, chainId, g.pre);
    PreAsPlanned(setup, allowances, account, chainId, s, g);
    ReadyForPass(setup, g.pre, g.keys);
    t := PassNative(setup, g.pre.s, g.pre.groups, g.keys, map[], {}, g.pass, key);
    PassGrows(setup, allowances, account, chainId, s, g);
    GroupStays(setup, key, g.pre.groups[key], g.pass.s, g.multi.s, t);
  }

  lemma ReadyForPass(setup: PaymentSetup, pre: PreOutcome, keys: seq<Key>)
    requires Inv(pre.s) && GroupsOk(setup, pre.s.transfers, pre.groups) && SortedKeys(pre.groups, keys)
    ensures PassReady(setup, pre.s, pre.groups, keys, map[])
  {
    forall k | k in keys ensures GroupOk(setup, pre.s.transfers, k, pre.groups[k]) {}
  }

  // ---- how many transactions ----

  function ClosingCount(setup: PaymentSetup, rows: seq<Transfer>): nat {
    if rows == [] then 0
    else (if Classify(setup, rows[0]).Closing? then 1 else 0) + ClosingCount(setup, rows[1..])
  }

  lemma {:induction false} PreRunCount(setup: PaymentSetup, s: State, groups: Groups, rows: seq<Transfer>)
    requires !Stops(setup, rows)
    ensures |PreRun(setup, s, groups, rows).s.txs| == |s.txs| + ClosingCount(setup, rows)
    decreases |rows|
  {
    if rows != [] {
      hide Classify, Push, Put;
      var row, rest := rows[0], rows[1..];
      assert rows == [row] + rest;
      assert !Classify(setup, row).Stop? by { assert row in rows; }
      match Classify(setup, row)
      case Rejected(e) => PreRunCount(setup, s.(transfers := Put(s.transfers, row.(error := Some(e)))), groups, rest);
      case Closing(tx) => PreRunCount(setup, Commit(s, tx, [row]), groups, rest);
      case Grouped => PreRunCount(setup, s, Push(groups, row), rest);
    }
  }

  /** The four-part keys of the token groups, each once. */
  function TokenKeys(keys: seq<Key>): seq<MultiKey> {
    if keys == [] then []
    else
      var before, last := TokenKeys(keys[..|keys| - 1]), keys[|keys| - 1];
      if last.token.Some? && last.Multi() !in before then before + [last.Multi()] else before
  }

  lemma {:induction false} TokenKeysFacts(keys: seq<Key>)
    ensures NoRepeats(TokenKeys(keys))
    ensures forall mk :: mk in TokenKeys(keys) <==> HasTokenKey(keys, mk)
  {
    if keys != [] {
      var front, last := keys[..|keys| - 1], keys[|keys| - 1];
      TokenKeysFacts(front);
      assert keys == front + [last];
      forall mk ensures HasTokenKey(keys, mk) <==>
          HasTokenKey(front, mk) || (last.token.Some? && last.Multi() == mk)
      {
        if last.token.Some? && last.Multi() == mk { assert last in keys; }
      }
    }
  }

  /** How many chunks are committed under these keys. */
  function PlanSum(setup: PaymentSetup, allowances: Allowances, rows: seq<Transfer>, order: seq<MultiKey>): nat
    requires ValidSetup(setup)
  {
    if order == [] then 0
    else Committed(setup, allowances, order[0], PlanOrders(setup, rows, order[0])) +
         PlanSum(setup, allowances, rows, order[1..])
  }

  lemma {:induction false} PlanSumConcat(setup: PaymentSetup, allowances: Allowances, rows: seq<Transfer>,
                                         a: seq<MultiKey>, b: seq<MultiKey>)
    requires ValidSetup(setup)
    ensures PlanSum(setup, allowances, rows, a + b) ==
            PlanSum(setup, allowances, rows, a) + PlanSum(setup, allowances, rows, b)
  {
    hide Committed, PlanOrders;
    if a == [] {
      assert a + b == b;
    } else {
      assert (a + b)[1..] == a[1..] + b;
      PlanSumConcat(setup, allowances, rows, a[1..], b);
    }
  }

  /** The hash map's order does not matter for the sum. */
  lemma {:induction false} PlanSumSame(setup: PaymentSetup, allowances: Allowances, rows: seq<Transfer>,
                                       a: seq<MultiKey>, b: seq<MultiKey>)
    requires ValidSetup(setup) && NoRepeats(a) && NoRepeats(b) && forall k :: k in a <==> k in b
    ensures PlanSum(setup, allowances, rows, a) == PlanSum(setup, allowances, rows, b)
  {
    hide Committed, PlanOrders;
    if a == [] {
      HeadIsIn(b);
    } else {
      assert a[0] in b;
      var i :| 0 <= i < |b| && b[i] == a[0];
      var rest := b[..i] + b[i + 1..];
      SplitOff(a, b, i);
      PlanSumSame(setup, allowances, rows, a[1..], rest);
      PlanSumConcat(setup, allowances, rows, b[..i], [b[i]] + b[i + 1..]);
      PlanSumConcat(setup, allowances, rows, b[..i], b[i + 1..]);
      assert ([b[i]] + b[i + 1..])[1..] == b[i + 1..];
    }
  }

  lemma SplitOff<T>(a: seq<T>, b: seq<T>, i: nat)
    requires NoRepeats(a) && NoRepeats(b) && (forall k :: k in a <==> k in b) && a != [] && i < |b| && b[i] == a[0]
    ensures b == b[..i] + ([b[i]] + b[i + 1..])
    ensures NoRepeats(a[1..]) && NoRepeats(b[..i] + b[i + 1..])
    ensures forall k :: k in a[1..] <==> k in b[..i] + b[i + 1..]
  {
    var rest := b[..i] + b[i + 1..];
    assert a == [a[0]] + a[1..] && b == b[..i] + ([b[i]] + b[i + 1..]);
    forall j | 0 <= j < |rest| ensures rest[j] == b[if j < i then j else j + 1] {}
    forall k ensures k in a[1..] <==> k in rest {
      if k in a[1..] { assert k in a && k != a[0]; }
      if k in rest { assert k in b && k != b[i]; }
    }
  }

  lemma {:induction false} CommittedIsPlanned(setup: PaymentSetup, allowances: Allowances, rows: seq<Transfer>,
                                              multi: MultiMap, order: seq<MultiKey>)
    requires ValidSetup(setup)
    requires forall k | k in order :: k in multi && multi[k] == PlanOrders(setup, rows, k)
    ensures CommittedSum(setup, allowances, multi, order) == PlanSum(setup, allowances, rows, order)
  {
    hide Committed, PlanOrders;
    if order != [] { CommittedIsPlanned(setup, allowances, rows, multi, order[1..]); }
  }

  /** How many transactions an error-free gather inserts: one for each close marker, one for each payable group in the
      chain's own currency, and one for each committed chunk of every four-part key. */
  lemma GatherCount(setup: PaymentSetup, allowances: Allowances, account: Address, chainId: int, s: State, g: Gather)
    requires ValidSetup(setup) && Inv(s) && IsGather(setup, allowances, account, chainId, s, g) && g.Error().None?
    ensures var rows := Pending(s.transfers, account, chainId);
            var keys := PayKeys(setup, rows);
            && (forall k | k in keys :: k in PlanGroups(setup, rows))
            && |g.multi.s.txs| == |s.txs| + ClosingCount(setup, rows) +
                                  NativeCount(setup, PlanGroups(setup, rows), keys) +
                                  PlanSum(setup, allowances, rows, TokenKeys(keys))
  {
    hide Inv, PreRun, SortedPass, MultiRun, Pending, PayKeys, PlanOrders, ClosingCount, NativeCount, PlanSum, Stops;
    hide PlacedSomewhere, CommittedSum, NativeFails;
    var rows := Pending(s.transfers, account, chainId);
    var keys := PayKeys(setup, rows);
    PreAsPlanned(setup, allowances, account, chainId, s, g);
    PreRunCount(setup, s, map[], rows);
    PassAsPlan(setup, allowances, account, chainId, s, g);
    MultiAsPlan(setup, allowances, account, chainId, s, g);
    CommittedIsPlanned(setup, allowances, rows, g.pass.multi, g.order);
    TokenKeysFacts(keys);
    forall mk ensures mk in g.order <==> mk in TokenKeys(keys) {
      assert mk in g.pass.multi <==> PaysToken(setup, rows, mk); }
    PlanSumSame(setup, allowances, rows, g.order, TokenKeys(keys));
  }

  /** When nothing fails, each four-part key with n receivers is paid by n / max transactions, rounded up. */
  lemma CleanCount(setup: PaymentSetup, allowances: Allowances, rows: seq<Transfer>, mk: MultiKey)
    requires ValidSetup(setup) && Succeeds(setup, allowances, rows) && mk in TokenKeys(PayKeys(setup, rows))
    ensures mk.chainId in setup.chains
    ensures var n, max := |KeysOf(PayKeys(setup, rows), mk)|, setup.chains[mk.chainId].maxAtOnce;
            Committed(setup, allowances, mk, PlanOrders(setup, rows, mk)) == (n + max - 1) / max
  {
    hide Stops, NativeFails, ChunkError, OkChunks, CheckAllowance, PayKeys, PlanOrders, ChunkCount;
    TokenKeysFacts(PayKeys(setup, rows));
    assert PlanError(setup, allowances, rows, mk).None?;
    var orders, chain := PlanOrders(setup, rows, mk), setup.chains[mk.chainId];
    OkChunksBound(setup, chain, mk, orders);
    PlanOrdersLength(setup, rows, mk);
    ChunkCountIsCeiling(|orders|, chain.maxAtOnce);
  }

  lemma PlanOrdersLength(setup: PaymentSetup, rows: seq<Transfer>, mk: MultiKey)
    ensures |PlanOrders(setup, rows, mk)| == |KeysOf(PayKeys(setup, rows), mk)|
  {
  }

  // ---- a gather exists for every order of the hash map ----

  lemma {:induction false} Enumeration(keys: set<MultiKey>) returns (order: seq<MultiKey>)
    ensures Enumerates(order, keys)
  {
    if keys == {} {
      order := [];
    } else {
      var k :| k in keys;
      var rest := Enumeration(keys - {k});
      ConsNoRepeats(k, rest);
      order := [k] + rest;
    }
  }

  lemma GatherExists(setup: PaymentSetup, allowances: Allowances, account: Address, chainId: int, s: State)
    returns (g: Gather)
    requires ValidSetup(setup) && Inv(s)
    ensures IsGather(setup, allowances, account, chainId, s, g)
  {
    hide Inv, PreRun, SortedPass, MultiRun, Pending, PlanGroups, PayKeys, Stops;
    var rows := Pending(s.transfers, account, chainId);
    var pre := PreRun(setup, s, map[], rows);
    NoRowsNoGroups(setup);
    PreRunPlan(setup, s, map[], [], rows);
    assert [] + rows == rows;
    if pre.error.Some? {
      g := Gather(pre, [], PassOutcome(pre.s, map[], {}, None), [], MultiOutcome(pre.s, {}, None));
    } else {
      PendingRows(s, account, chainId);
      PlanIsSorted(setup, rows);
      var keys := PayKeys(setup, rows);
      var pass := SortedPass(setup, pre.s, pre.groups, keys, map[], {});
      if pass.error.Some? {
        g := Gather(pre, keys, pass, [], MultiOutcome(pass.s, {}, None));
      } else {
        var order := Enumeration(pass.multi.Keys);
        g := Gather(pre, keys, pass, order, MultiRun(setup, allowances, pass.s, pass.multi, order, {}));
      }
    }
  }
}
