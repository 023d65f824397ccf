/** The status tracker of runtime.rs: a list changed in place that refines a map defined from the event history. */
module Status {
  import opened Prelude

  datatype Property =
    | CantSign(chainId: int, address: string)
    | NoGas(chainId: int, address: string, missingGas: real)
    | NoToken(chainId: int, address: string, missingToken: real)
    | Web3RpcError(chainId: int, error: string)
    | TxStuck(chainId: int)

  /** What identifies an issue; the rest of a property is its payload. */
  datatype Issue =
    | SignIssue(chainId: int, address: string)
    | GasIssue(chainId: int, address: string)
    | TokenIssue(chainId: int, address: string)
    | RpcIssue(chainId: int)
    | StuckIssue(chainId: int)

  function IssueOf(p: Property): Issue {
    match p
    case CantSign(c, a) => SignIssue(c, a)
    case NoGas(c, a, _) => GasIssue(c, a)
    case NoToken(c, a, _) => TokenIssue(c, a)
    case Web3RpcError(c, _) => RpcIssue(c)
    case TxStuck(c) => StuckIssue(c)
  }

  type Uint64 = n: nat | n < TWO_64 witness 0

  /** Casting an unsigned chain id to a signed one. */
  function Signed(n: Uint64): int {
    if 2 * n < TWO_64 then n else n - TWO_64
  }

  datatype RpcContent = RpcSuccess | RpcError(text: string) | AllEndpointsFailed

  datatype Event =
    | SignFailed(chainId: int, address: string)
    | StuckNoGas(chainId: int, from: string, gasBalance: real, gasNeeded: real)
    | StuckNoToken(chainId: int, from: string, tokenBalance: real, tokenNeeded: real)
    | StuckGasPriceLow(chainId: int)
    | TransferFinished(chainId: int)
    | Web3RpcMessage(rpcChainId: Uint64, content: RpcContent)
    | OtherEvent(text: string)

  /** The property an event reports, if any. */
  function Raises(ev: Event): Option<Property> {
    match ev
    case SignFailed(c, a) => Some(CantSign(c, a))
    case StuckNoGas(c, a, balance, needed) => Some(NoGas(c, a, needed - balance))
    case StuckNoToken(c, a, balance, needed) => Some(NoToken(c, a, balance - needed))
    case StuckGasPriceLow(c) => Some(TxStuck(c))
    case Web3RpcMessage(c, RpcError(text)) => Some(Web3RpcError(Signed(c), text))
    case Web3RpcMessage(c, AllEndpointsFailed) => Some(Web3RpcError(Signed(c), "All endpoints failed"))
    case _ => None
  }

  predicate Clears(ev: Event, chainId: int) {
    ev.TransferFinished? && ev.chainId == chainId
  }

  // ---- the list operations ----

  predicate Has(list: seq<Property>, issue: Issue) {
    exists i :: 0 <= i < |list| && IssueOf(list[i]) == issue
  }

  predicate NoDuplicates(list: seq<Property>) {
    forall i, j :: 0 <= i < j < |list| ==> IssueOf(list[i]) != IssueOf(list[j])
  }

  /** The list with p's entry replaced in place, or p added at the end. */
  function Put(list: seq<Property>, p: Property): seq<Property> {
    if list == [] then [p]
    else if IssueOf(list[0]) == IssueOf(p) then [p] + list[1..]
    else [list[0]] + Put(list[1..], p)
  }

  /** The list without the entries of a chain. */
  function Without(list: seq<Property>, chainId: int): seq<Property> {
    if list == [] then []
    else (if list[0].chainId == chainId then [] else [list[0]]) + Without(list[1..], chainId)
  }

  lemma {:induction false} PutAt(list: seq<Property>, p: Property, k: nat)
    requires k <= |list| && forall j :: 0 <= j < k ==> IssueOf(list[j]) != IssueOf(p)
    requires k < |list| ==> IssueOf(list[k]) == IssueOf(p)
    ensures Put(list, p) == if k < |list| then list[k := p] else list + [p]
  {
    if k > 0 {
      PutAt(list[1..], p, k - 1);
      assert list == [list[0]] + list[1..];
    } else if list != [] {
      assert [p] + list[1..] == list[0 := p];
    }
  }

  /** Put keeps one entry per issue: p for its own issue, and every other entry. */
  lemma PutFacts(list: seq<Property>, p: Property)
    requires NoDuplicates(list)
    ensures NoDuplicates(Put(list, p))
    ensures forall q :: q in Put(list, p) <==> q == p || (q in list && IssueOf(q) != IssueOf(p))
  {
    var k := First(list, p);
    PutAt(list, p, k);
    var out := Put(list, p);
    assert out[k] == p;
    forall q | q in list && IssueOf(q) != IssueOf(p) ensures q in out {
      var i :| 0 <= i < |list| && list[i] == q;
      assert out[i] == q;
    }
  }

  /** Position of the entry with p's issue, or the length. */
  ghost function First(list: seq<Property>, p: Property): (k: nat)
    ensures k <= |list| && (forall j :: 0 <= j < k ==> IssueOf(list[j]) != IssueOf(p))
    ensures k < |list| ==> IssueOf(list[k]) == IssueOf(p)
  {
    if list == [] || IssueOf(list[0]) == IssueOf(p) then 0 else First(list[1..], p) + 1
  }

  lemma {:induction false} WithoutMembers(list: seq<Property>, chainId: int)
    ensures forall q :: q in Without(list, chainId) <==> q in list && q.chainId != chainId
  {
    if list != [] {
      WithoutMembers(list[1..], chainId);
      assert list == [list[0]] + list[1..];
    }
  }

  lemma {:induction false} WithoutShrinks(list: seq<Property>, chainId: int)
    ensures |Without(list, chainId)| <= |list|
    ensures |Without(list, chainId)| == |list| ==> Without(list, chainId) == list
  {
    if list != [] {
      WithoutShrinks(list[1..], chainId);
      assert list == [list[0]] + list[1..];
    }
  }

  lemma {:induction false} WithoutKeepsUnique(list: seq<Property>, chainId: int)
    requires NoDuplicates(list)
    ensures NoDuplicates(Without(list, chainId))
  {
    if list != [] {
      var rest, out := Without(list[1..], chainId), Without(list, chainId);
      WithoutKeepsUnique(list[1..], chainId);
      if list[0].chainId == chainId {
        assert out == rest;
      } else {
        WithoutMembers(list[1..], chainId);
        forall j | 0 <= j < |rest| ensures IssueOf(rest[j]) != IssueOf(list[0]) {
          assert rest[j] in rest && rest[j] in list[1..];
        }
        UniqueCons(list[0], rest);
      }
    }
  }

  lemma UniqueCons(p: Property, rest: seq<Property>)
    requires NoDuplicates(rest) && forall j :: 0 <= j < |rest| ==> IssueOf(rest[j]) != IssueOf(p)
    ensures NoDuplicates([p] + rest)
  {
  }

  lemma {:induction false} WithoutConcat(a: seq<Property>, p: Property, chainId: int)
    ensures Without(a + [p], chainId) == Without(a, chainId) + Without([p], chainId)
  {
    if a != [] {
      WithoutConcat(a[1..], p, chainId);
      assert (a + [p])[1..] == a[1..] + [p];
    } else {
      assert a + [p] == [p];
    }
  }

  // ---- one event ----

  datatype Message = Raw(event: Event) | StatusChanged(list: seq<Property>)

  function Handle(list: seq<Property>, ev: Event): seq<Property> {
    match Raises(ev)
    case Some(p) => Put(list, p)
    case None => if ev.TransferFinished? then Without(list, ev.chainId) else list
  }

  /** Whether the handler reports a change: always, except for an issue without payload that is already listed
      and for a finished transfer on a chain without issues. */
  predicate Reports(list: seq<Property>, ev: Event) {
    match Raises(ev)
    case Some(p) => !((p.CantSign? || p.TxStuck?) && Has(list, IssueOf(p)))
    case None => ev.TransferFinished? && exists q :: q in list && q.chainId == ev.chainId
  }

  predicate Passes(ev: Event) {
    !(ev.Web3RpcMessage? && ev.content.RpcSuccess?)
  }

  function Messages(list: seq<Property>, ev: Event): seq<Message> {
    if !Passes(ev) then []
    else [Raw(ev)] + if Reports(list, ev) then [StatusChanged(Handle(list, ev))] else []
  }

  /** No report means no change. */
  lemma SilenceMeansUnchanged(list: seq<Property>, ev: Event)
    ensures !Reports(list, ev) ==> Handle(list, ev) == list
  {
    if !Reports(list, ev) {
      match Raises(ev)
      case Some(p) =>
        var k := First(list, p);
        PutAt(list, p, k);
        assert k < |list| && list[k] == p;
      case None =>
        if ev.TransferFinished? { KeepAll(list, ev.chainId); }
    }
  }

  lemma {:induction false} KeepAll(list: seq<Property>, chainId: int)
    requires forall q :: q in list ==> q.chainId != chainId
    ensures Without(list, chainId) == list
  {
    if list != [] {
      assert list[0] in list && list == [list[0]] + list[1..];
      KeepAll(list[1..], chainId);
    }
  }

  class StatusTracker {
    var status: seq<Property>
    /** What every attached listener has been sent. */
    var sent: seq<Message>

    constructor ()
      ensures status == [] && sent == []
    {
      status, sent := [], [];
    }

    method Update(p: Property) returns (changed: bool)
      modifies this`status
      ensures status == Put(old(status), p)
      ensures changed <==> !((p.CantSign? || p.TxStuck?) && Has(old(status), IssueOf(p)))
    {
      for i := 0 to |status|
        invariant status == old(status)
        invariant forall j :: 0 <= j < i ==> IssueOf(status[j]) != IssueOf(p)
      {
        match (status[i], p) {
          case (CantSign(id1, addr1), CantSign(id2, addr2)) =>
            if id1 == id2 && addr1 == addr2 {
              PutAt(status, p, i);
              return false;
            }
          case (NoGas(id1, addr1, _), NoGas(id2, addr2, newMissing)) =>
            if id1 == id2 && addr1 == addr2 {
              PutAt(status, p, i);
              status := status[i := status[i].(missingGas := newMissing)];
              return true;
            }
          case (NoToken(id1, addr1, _), NoToken(id2, addr2, newMissing)) =>
            if id1 == id2 && addr1 == addr2 {
              PutAt(status, p, i);
              status := status[i := status[i].(missingToken := newMissing)];
              return true;
            }
          case (Web3RpcError(id1, _), Web3RpcError(id2, text)) =>
            if id1 == id2 {
              PutAt(status, p, i);
              status := status[i := status[i].(error := text)];
              return true;
            }
          case (TxStuck(id1), TxStuck(id2)) =>
            if id1 == id2 {
              PutAt(status, p, i);
              return false;
            }
          case _ =>
        }
      }
      PutAt(status, p, |status|);
      status := status + [p];
      return true;
    }

    method ClearIssues(okChainId: int) returns (changed: bool)
      modifies this`status
      ensures status == Without(old(status), okChainId)
      ensures changed <==> exists q :: q in old(status) && q.chainId == okChainId
    {
      var oldLen := |status|;
      var kept := [];
      for i := 0 to oldLen
        invariant status == old(status)
        invariant kept == Without(status[..i], okChainId)
      {
        WithoutConcat(status[..i], status[i], okChainId);
        assert status[..i + 1] == status[..i] + [status[i]];
        if status[i].chainId != okChainId {
          kept := kept + [status[i]];
        }
      }
      assert status[..oldLen] == status;
      WithoutShrinks(status, okChainId);
      WithoutMembers(status, okChainId);
      if forall q :: q in status ==> q.chainId != okChainId {
        KeepAll(status, okChainId);
      }
      status := kept;
      return |status| != oldLen;
    }

    /** The body of the event loop. */
    method HandleEvent(ev: Event)
      modifies this
      ensures status == Handle(old(status), ev)
      ensures sent == old(sent) + Messages(old(status), ev)
    {
      var passRawMessage := true;
      var emitChanged := false;
      match ev {
        case SignFailed(chainId, address) =>
          emitChanged := Update(CantSign(chainId, address));
        case StuckNoGas(chainId, from, gasBalance, gasNeeded) =>
          var missingGas := gasNeeded - gasBalance;
          emitChanged := Update(NoGas(chainId, from, missingGas));
        case StuckNoToken(chainId, from, tokenBalance, tokenNeeded) =>
          var missingToken := tokenBalance - tokenNeeded;
          emitChanged := Update(NoToken(chainId, from, missingToken));
        case StuckGasPriceLow(chainId) =>
          emitChanged := Update(TxStuck(chainId));
        case TransferFinished(chainId) =>
          emitChanged := ClearIssues(chainId);
        case Web3RpcMessage(chainId, content) =>
          match content {
            case RpcSuccess => passRawMessage := false;
            case RpcError(text) => emitChanged := Update(Web3RpcError(Signed(chainId), text));
            case AllEndpointsFailed => emitChanged := Update(Web3RpcError(Signed(chainId), "All endpoints failed"));
          }
        case OtherEvent(_) =>
      }
      if passRawMessage {
        sent := sent + [Raw(ev)];
        if emitChanged {
          sent := sent + [StatusChanged(status)];
        }
      }
    }

    /** The event loop over the events received so far. */
    method Listen(history: seq<Event>)
      requires status == [] && sent == []
      modifies this
      ensures status == StatusAfter(history) && sent == SentAfter(history)
    {
      for i := 0 to |history|
        invariant status == StatusAfter(history[..i]) && sent == SentAfter(history[..i])
      {
        assert history[..i + 1][..i] == history[..i];
        HandleEvent(history[i]);
      }
      assert history[..|history|] == history;
    }
  }

  // ---- whole histories ----

  function StatusAfter(history: seq<Event>): seq<Property> {
    if history == [] then [] else Handle(StatusAfter(history[..|history| - 1]), history[|history| - 1])
  }

  function SentAfter(history: seq<Event>): seq<Message> {
    if history == [] then []
    else
      var before := history[..|history| - 1];
      SentAfter(before) + Messages(StatusAfter(before), history[|history| - 1])
  }

  /** Event k is the latest report of p's issue, it reported p, and no transfer on the chain finished since. */
  predicate Stands(history: seq<Event>, p: Property, k: int) {
    && 0 <= k < |history| && Raises(history[k]) == Some(p)
    && forall j :: k < j < |history| ==> !Touches(history[j], p)
  }

  predicate Touches(ev: Event, p: Property) {
    Clears(ev, p.chainId) || (Raises(ev).Some? && IssueOf(Raises(ev).value) == IssueOf(p))
  }

  ghost predicate Standing(history: seq<Event>, p: Property) {
    exists k :: Stands(history, p, k)
  }

  lemma StandsStep(history: seq<Event>, p: Property)
    requires history != []
    ensures var ev, before := history[|history| - 1], history[..|history| - 1];
            Standing(history, p) <==> Raises(ev) == Some(p) || (Standing(before, p) && !Touches(ev, p))
  {
    var n := |history| - 1;
    var ev, before := history[n], history[..n];
    if Raises(ev) == Some(p) { assert Stands(history, p, n); }
    forall k | Stands(before, p, k) && !Touches(ev, p) ensures Stands(history, p, k) {
      forall j | k < j < |history| ensures !Touches(history[j], p) {
        if j < n { assert history[j] == before[j]; }
      }
    }
    forall k | Stands(history, p, k) && k < n ensures Stands(before, p, k) && !Touches(ev, p) {
      forall j | k < j < n ensures !Touches(before[j], p) { assert before[j] == history[j]; }
    }
  }

  /** The list refines the map from issues to their standing payload: after every history it has one entry per
      issue, and holds a property exactly when that is the latest report of its issue since the last finished
      transfer on its chain. */
  lemma {:induction false} ListRefinesHistory(history: seq<Event>)
    ensures NoDuplicates(StatusAfter(history))
    ensures forall p :: p in StatusAfter(history) <==> Standing(history, p)
  {
    if history != [] {
      var ev, before := history[|history| - 1], history[..|history| - 1];
      ListRefinesHistory(before);
      var list := StatusAfter(before);
      match Raises(ev) {
        case Some(p) => PutFacts(list, p);
        case None => if ev.TransferFinished? { WithoutMembers(list, ev.chainId); WithoutKeepsUnique(list, ev.chainId); }
      }
      forall p ensures p in StatusAfter(history) <==> Standing(history, p) {
        StandsStep(history, p);
        assert p in list <==> Standing(before, p);
      }
    }
  }

  /** The status list a listener last heard of. */
  function Heard(sent: seq<Message>): seq<Property> {
    if sent == [] then []
    else match sent[|sent| - 1]
      case StatusChanged(list) => list
      case Raw(_) => Heard(sent[..|sent| - 1])
  }

  lemma HeardConcat(sent: seq<Message>, list: seq<Property>, ev: Event)
    ensures Heard(sent + Messages(list, ev)) ==
            if Passes(ev) && Reports(list, ev) then Handle(list, ev) else Heard(sent)
  {
    var all := sent + Messages(list, ev);
    if !Passes(ev) {
      assert all == sent;
    } else if Reports(list, ev) {
      assert all[|all| - 1] == StatusChanged(Handle(list, ev));
    } else {
      assert all[|all| - 1] == Raw(ev) && all[..|all| - 1] == sent;
    }
  }

  /** A listener that keeps the last announced list always knows the tracker's list, although unchanged lists
      and swallowed messages are never announced. */
  lemma {:induction false} ListenersAreUpToDate(history: seq<Event>)
    ensures Heard(SentAfter(history)) == StatusAfter(history)
  {
    if history != [] {
      var ev, before := history[|history| - 1], history[..|history| - 1];
      ListenersAreUpToDate(before);
      HeardConcat(SentAfter(before), StatusAfter(before), ev);
      SilenceMeansUnchanged(StatusAfter(before), ev);
    }
  }

  lemma PutUnchangedIff(list: seq<Property>, p: Property)
    requires NoDuplicates(list)
    ensures Put(list, p) == list <==> p in list
  {
    var k := First(list, p);
    PutAt(list, p, k);
    if p in list {
      var j :| 0 <= j < |list| && list[j] == p;
      assert j == k;
      assert list[k := p] == list;
    } else if k < |list| {
      assert list[k := p][k] == p;
    }
  }

  /** The event repeats a listed amount or text word for word. */
  predicate Repeats(list: seq<Property>, ev: Event) {
    && Raises(ev).Some? && Raises(ev).value in list
    && !Raises(ev).value.CantSign? && !Raises(ev).value.TxStuck?
  }

  /** Exactly when a reported change changes nothing. */
  lemma ReportWithoutChangeIff(list: seq<Property>, ev: Event)
    requires NoDuplicates(list)
    ensures Reports(list, ev) && Handle(list, ev) == list <==> Repeats(list, ev)
  {
    match Raises(ev)
    case Some(p) => PutUnchangedIff(list, p);
    case None =>
      if ev.TransferFinished? { WithoutMembers(list, ev.chainId); }
  }

  /** Whatever has happened before, the next event is announced although the list stays the same exactly when it
      repeats what already stands: the same missing amount or the same error text, reported again on a chain where no
      transfer has finished since. In every other case true means that the list has changed. */
  lemma ReportWithoutChange(history: seq<Event>, ev: Event)
    ensures Reports(StatusAfter(history), ev) && StatusAfter(history + [ev]) == StatusAfter(history) <==>
            Repeats(StatusAfter(history), ev)
    ensures Raises(ev).Some? ==>
              (Raises(ev).value in StatusAfter(history) <==> Standing(history, Raises(ev).value))
  {
    ListRefinesHistory(history);
    assert (history + [ev])[..|history|] == history;
    ReportWithoutChangeIff(StatusAfter(history), ev);
  }

  /** Concretely: the second report of the same error text is announced, with the same list. */
  lemma RepeatIsAnnounced()
    ensures var ev := Web3RpcMessage(1, RpcError("timeout"));
            Reports(StatusAfter([ev]), ev) && StatusAfter([ev, ev]) == StatusAfter([ev]) == [Web3RpcError(1, "timeout")]
  {
    var ev := Web3RpcMessage(1, RpcError("timeout"));
    assert [ev, ev] == [ev] + [ev] && [ev][..0] == [] && [ev, ev][..1] == [ev];
    assert StatusAfter([]) == [];
    assert StatusAfter([ev]) == [Web3RpcError(1, "timeout")];
    ReportWithoutChange([ev], ev);
  }

  // ---- what each event does, in its own terms ----

  /** Casting keeps the number modulo 2^64 and lands in the signed range. */
  lemma SignedIs(n: Uint64)
    ensures -(TWO_64 / 2) <= Signed(n) < TWO_64 / 2 && (Signed(n) == n || Signed(n) == n - TWO_64)
  {
  }

  lemma RaisedIsListed(history: seq<Event>, ev: Event)
    requires Raises(ev).Some?
    ensures Raises(ev).value in StatusAfter(history + [ev])
  {
    assert (history + [ev])[..|history|] == history;
    ListRefinesHistory(history);
    PutFacts(StatusAfter(history), Raises(ev).value);
  }

  /** What is listed right after each reporting event: a missing gas amount is needed less balance, a missing token
      amount balance less needed, and an error of the node stands under the chain's signed number. */
  lemma ReportsList(history: seq<Event>, chain: int, rpcChain: Uint64, who: string, balance: real, needed: real,
                    text: string)
    ensures CantSign(chain, who) in StatusAfter(history + [SignFailed(chain, who)])
    ensures NoGas(chain, who, needed - balance) in StatusAfter(history + [StuckNoGas(chain, who, balance, needed)])
    ensures NoToken(chain, who, balance - needed) in StatusAfter(history + [StuckNoToken(chain, who, balance, needed)])
    ensures TxStuck(chain) in StatusAfter(history + [StuckGasPriceLow(chain)])
    ensures 2 * rpcChain < TWO_64 ==>
              Web3RpcError(rpcChain, text) in StatusAfter(history + [Web3RpcMessage(rpcChain, RpcError(text))])
    ensures 2 * rpcChain < TWO_64 ==>
              Web3RpcError(rpcChain, "All endpoints failed") in
              StatusAfter(history + [Web3RpcMessage(rpcChain, AllEndpointsFailed)])
  {
    hide StatusAfter;
    RaisedIsListed(history, SignFailed(chain, who));
    RaisedIsListed(history, StuckNoGas(chain, who, balance, needed));
    RaisedIsListed(history, StuckNoToken(chain, who, balance, needed));
    RaisedIsListed(history, StuckGasPriceLow(chain));
    RaisedIsListed(history, Web3RpcMessage(rpcChain, RpcError(text)));
    RaisedIsListed(history, Web3RpcMessage(rpcChain, AllEndpointsFailed));
  }

  /** Two properties are about the same issue exactly when they are of one kind and chain and, where they name an
      address, name the same. */
  lemma SameIssueIff(p: Property, q: Property)
    ensures IssueOf(p) == IssueOf(q) <==>
            || (p.CantSign? && q.CantSign? && p.chainId == q.chainId && p.address == q.address)
            || (p.NoGas? && q.NoGas? && p.chainId == q.chainId && p.address == q.address)
            || (p.NoToken? && q.NoToken? && p.chainId == q.chainId && p.address == q.address)
            || (p.Web3RpcError? && q.Web3RpcError? && p.chainId == q.chainId)
            || (p.TxStuck? && q.TxStuck? && p.chainId == q.chainId)
  {
  }

  /** A finished transfer clears its chain and nothing else; a success of the node and other events change nothing. */
  lemma OtherEventsList(history: seq<Event>, chain: int, rpcChain: Uint64, text: string)
    ensures forall p :: p in StatusAfter(history + [TransferFinished(chain)]) <==>
              p in StatusAfter(history) && p.chainId != chain
    ensures StatusAfter(history + [Web3RpcMessage(rpcChain, RpcSuccess)]) == StatusAfter(history)
    ensures StatusAfter(history + [OtherEvent(text)]) == StatusAfter(history)
  {
    forall ev ensures (history + [ev])[..|history|] == history {}
    WithoutMembers(StatusAfter(history), chain);
  }

  /** The events a listener is sent, without the announced lists. */
  function RawEvents(sent: seq<Message>): seq<Event> {
    if sent == [] then []
    else
      var last := sent[|sent| - 1];
      RawEvents(sent[..|sent| - 1]) + if last.Raw? then [last.event] else []
  }

  /** All events but the successes of the node, in order. */
  function Forwarded(history: seq<Event>): seq<Event> {
    if history == [] then []
    else
      var last := history[|history| - 1];
      Forwarded(history[..|history| - 1]) +
      if last.Web3RpcMessage? && last.content == RpcSuccess then [] else [last]
  }

  lemma RawAppend(sent: seq<Message>, m: Message)
    ensures RawEvents(sent + [m]) == RawEvents(sent) + if m.Raw? then [m.event] else []
  {
    assert (sent + [m])[..|sent|] == sent;
  }

  lemma MessagesForward(sent: seq<Message>, list: seq<Property>, ev: Event)
    ensures RawEvents(sent + Messages(list, ev)) ==
            RawEvents(sent) + if ev.Web3RpcMessage? && ev.content == RpcSuccess then [] else [ev]
  {
    hide Handle, Reports, RawEvents;
    if Passes(ev) {
      RawAppend(sent, Raw(ev));
      if Reports(list, ev) {
        var news := StatusChanged(Handle(list, ev));
        RawAppend(sent + [Raw(ev)], news);
        assert sent + ([Raw(ev)] + [news]) == sent + [Raw(ev)] + [news];
      } else {
        assert [Raw(ev)] + [] == [Raw(ev)];
      }
    } else {
      assert sent + [] == sent;
    }
  }

  /** A listener is sent every event once and in order, except the successes of the node. */
  lemma {:induction false} EventsAreForwarded(history: seq<Event>)
    ensures RawEvents(SentAfter(history)) == Forwarded(history)
  {
    if history != [] {
      hide Messages;
      var before, ev := history[..|history| - 1], history[|history| - 1];
      EventsAreForwarded(before);
      MessagesForward(SentAfter(before), StatusAfter(before), ev);
    }
  }
}
