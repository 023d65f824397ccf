/** The bounded call history of the test proxy (web3_test_proxy/src/main.rs). */
module CallHistory {
  import opened Prelude

  datatype CallInfo = CallInfo(id: nat, request: string)

  datatype KeyData = KeyData(calls: seq<CallInfo>, totalCalls: nat)

  /** What the proxy is asked to do. A call makes sure its key exists when it starts, and is recorded when it is
      answered; in between, the key may be removed. */
  datatype Event = Touch(key: string) | Complete(key: string, request: string) | Remove(key: string) | RemoveAll

  type Keys = map<string, KeyData>

  const NEW_KEY := KeyData([], 0)

  /** Appends a call with the next id and drops the oldest one of a full queue. */
  function Push(data: KeyData, request: string, queueSize: nat): KeyData {
    var id := if data.calls == [] then 0 else data.calls[|data.calls| - 1].id + 1;
    var calls := data.calls + [CallInfo(id, request)];
    KeyData(if |calls| > queueSize then calls[1..] else calls, data.totalCalls + 1)
  }

  function Step(keys: Keys, ev: Event, queueSize: nat): Keys {
    match ev
    case Touch(key) => if key in keys then keys else keys[key := NEW_KEY]
    case Complete(key, request) => if key in keys then keys[key := Push(keys[key], request, queueSize)] else keys
    case Remove(key) => keys - {key}
    case RemoveAll => map[]
  }

  datatype Answer = KeyNotFound | NoCalls | Deleted | NotYet | Found(call: CallInfo)

  class Proxy {
    const queueSize: nat
    var keys: Keys

    constructor (queueSize: nat)
      ensures keys == map[] && this.queueSize == queueSize
    {
      this.queueSize := queueSize;
      keys := map[];
    }

    /** The start of web3: the key is created when it is missing. */
    method TouchKey(key: string)
      modifies this
      ensures keys == Step(old(keys), Touch(key), queueSize)
    {
      if key !in keys {
        keys := keys[key := NEW_KEY];
      }
    }

    /** The end of web3; false when the key has been removed meanwhile. */
    method CompleteCall(key: string, request: string) returns (ok: bool)
      modifies this
      ensures keys == Step(old(keys), Complete(key, request), queueSize)
      ensures ok <==> key in old(keys)
    {
      if key !in keys {
        return false;
      }
      var calls, totalCalls := keys[key].calls, keys[key].totalCalls;
      totalCalls := totalCalls + 1;
      var callInfo := CallInfo(0, request);
      if calls != [] {
        callInfo := callInfo.(id := calls[|calls| - 1].id + 1);
      }
      calls := calls + [callInfo];
      if |calls| > queueSize {
        calls := calls[1..];
      }
      keys := keys[key := KeyData(calls, totalCalls)];
      return true;
    }

    method RemoveEndpointHistory(key: string)
      modifies this
      ensures keys == Step(old(keys), Remove(key), queueSize)
    {
      keys := keys - {key};
    }

    method RemoveAllHistory()
      modifies this
      ensures keys == Step(old(keys), RemoveAll, queueSize)
    {
      keys := map[];
    }

    /** get_call, in constant time: the position follows from the first id. */
    method GetCall(key: string, callNo: nat, ghost history: seq<Event>) returns (a: Answer)
      requires keys == Run(history, queueSize)
      ensures a == Expected(Log(history, key), callNo, queueSize)
    {
      RunIsWindow(history, key, queueSize);
      if key !in keys {
        return KeyNotFound;
      }
      var calls := keys[key].calls;
      if calls == [] {
        return NoCalls;
      }
      var firstKeyNo := calls[0].id;
      var lastKeyNo := firstKeyNo + |calls| - 1;
      if callNo < firstKeyNo {
        return Deleted;
      }
      if callNo > lastKeyNo {
        return NotYet;
      }
      return Found(calls[callNo - firstKeyNo]);
    }

    /** get_calls: the newest calls first, at most `limit` of them. */
    method GetCalls(key: string, limit: Option<nat>, ghost history: seq<Event>) returns (r: Option<seq<CallInfo>>)
      requires keys == Run(history, queueSize)
      ensures r.None? <==> Log(history, key).None?
      ensures r.Some? ==>
                var log := Log(history, key).value;
                && |r.value| == Min(limit.GetOr(|log|), Min(|log|, queueSize))
                && forall i :: 0 <= i < |r.value| ==> r.value[i] == CallInfo(|log| - 1 - i, log[|log| - 1 - i])
    {
      RunIsWindow(history, key, queueSize);
      if key !in keys {
        return None;
      }
      var calls := keys[key].calls;
      var taken := Min(limit.GetOr(|calls|), |calls|);
      var newest := [];
      for i := 0 to taken
        invariant |newest| == i
        invariant forall j :: 0 <= j < i ==> newest[j] == calls[|calls| - 1 - j]
      {
        newest := newest + [calls[|calls| - 1 - i]];
      }
      return Some(newest);
    }
  }

  // ---- whole histories ----

  function Run(history: seq<Event>, queueSize: nat): Keys {
    if history == [] then map[]
    else Step(Run(history[..|history| - 1], queueSize), history[|history| - 1], queueSize)
  }

  /** Every call ever completed on a key since it was last created; None when there is no such key. This is the
      unbounded history. */
  function Log(history: seq<Event>, key: string): Option<seq<string>> {
    if history == [] then None
    else
      var log := Log(history[..|history| - 1], key);
      match history[|history| - 1]
      case Touch(k) => if k == key && log.None? then Some([]) else log
      case Complete(k, request) => if k == key && log.Some? then Some(log.value + [request]) else log
      case Remove(k) => if k == key then None else log
      case RemoveAll => None
  }

  /** The last min(n, q) calls of a log, numbered by their position in it. */
  function Window(log: seq<string>, queueSize: nat): (calls: seq<CallInfo>)
    ensures |calls| == Min(|log|, queueSize)
    ensures forall i :: 0 <= i < |calls| ==>
              calls[i] == CallInfo(|log| - |calls| + i, log[|log| - |calls| + i])
  {
    var m := Min(|log|, queueSize);
    seq(m, i requires 0 <= i < m => CallInfo(|log| - m + i, log[|log| - m + i]))
  }

  /** Recording a call in the bounded queue records it in the log. */
  lemma PushIsWindow(log: seq<string>, request: string, queueSize: nat)
    requires queueSize >= 1
    ensures Push(KeyData(Window(log, queueSize), |log|), request, queueSize) ==
            KeyData(Window(log + [request], queueSize), |log| + 1)
  {
    var before := Window(log, queueSize);
    var after := Push(KeyData(before, |log|), request, queueSize).calls;
    var id := if before == [] then 0 else before[|before| - 1].id + 1;
    assert id == |log|;
    assert after == Window(log + [request], queueSize);
  }

  /** An empty queue stays empty. */
  lemma PushIntoNothing(log: seq<string>, request: string)
    ensures Push(KeyData(Window(log, 0), |log|), request, 0) == KeyData(Window(log + [request], 0), |log| + 1)
  {
  }

  /** The bounded history refines the full one: whatever calls, removals and late answers happen, in any order, a
      key exists exactly when its log does, and holds the last calls of it with consecutive ids. */
  lemma {:induction false} RunIsWindow(history: seq<Event>, key: string, queueSize: nat)
    ensures var keys, log := Run(history, queueSize), Log(history, key);
            && (key in keys <==> log.Some?)
            && (log.Some? ==> keys[key] == KeyData(Window(log.value, queueSize), |log.value|))
  {
    if history != [] {
      var before, ev := history[..|history| - 1], history[|history| - 1];
      RunIsWindow(before, key, queueSize);
      var log := Log(before, key);
      if ev.Complete? && ev.key == key && log.Some? {
        if queueSize >= 1 { PushIsWindow(log.value, ev.request, queueSize); }
        else { PushIntoNothing(log.value, ev.request); }
      }
    }
  }

  /** What a question about call number n deserves, said in terms of the full history. */
  function Expected(log: Option<seq<string>>, n: nat, queueSize: nat): Answer {
    match log
    case None => KeyNotFound
    case Some(l) =>
      if l == [] || queueSize == 0 then NoCalls
      else if n >= |l| then NotYet
      else if |l| - n > queueSize then Deleted
      else Found(CallInfo(n, l[n]))
  }
}
