/** The block scanner of scan_chain.rs: an interval of scanned blocks that grows under arbitrary readings. */
module Scanner {
  import opened Prelude

  datatype Options = Options(fromBlock: Option<nat>, blocksBehind: Option<nat>, forwardScanBuffer: nat,
                             blocksAtOnce: nat)
  {
    function From(): nat { fromBlock.GetOr(1) }
    function Behind(): nat { blocksBehind.GetOr(100) }
  }

  /** The stored scan entry; -1 means not set. */
  datatype Info = Info(startBlock: int, lastBlock: int)

  const NEW_SCAN := Info(-1, -1)

  datatype Range = Range(start: int, end: int, forward: bool)

  predicate BehindNeeded(o: Options, info: Info) {
    info.startBlock < o.From()
  }

  /** Which range scan_auto_step scans next; None when it only waits. */
  function Choose(o: Options, info: Info, current: int): Option<Range> {
    if BehindNeeded(o, info) then
      if current - info.lastBlock >= o.Behind() + o.forwardScanBuffer then
        var start := info.lastBlock + 1;
        if start > current then None else Some(Range(start, Min(start + o.blocksAtOnce, current), true))
      else
        var end := info.startBlock;
        var start := Max(end - o.blocksAtOnce, 1);
        if end - start > 0 then Some(Range(start, end, false)) else None
    else
      var start := info.lastBlock - 100;
      if start > current then None else Some(Range(start, Min(start + o.blocksAtOnce, current + 1), true))
  }

  datatype ImportError = StartAfterEnd | TooManyBlocks | StartAfterCurrent | NegativeBlock | NodeError

  /** The range checks of import_erc20_txs and get_erc20_logs, then the node's answer. */
  function Import(start: int, end: int, blocksAtOnce: nat, current: int, nodeOk: bool): Option<ImportError> {
    if start > end then Some(StartAfterEnd)
    else if end - start > blocksAtOnce then Some(TooManyBlocks)
    else if start > current then Some(StartAfterCurrent)
    else if start < 0 || end < 0 then Some(NegativeBlock)
    else if !nodeOk then Some(NodeError)
    else None
  }

  /** What the outside world answers during one step: two readings of the current block (None: the call
      failed), and whether fetching the logs worked. */
  datatype Answers = Answers(current: Option<int>, currentAgain: int, nodeOk: bool)

  function Record(o: Options, info: Info, r: Range, current: int): Info {
    var start := if info.startBlock == -1 then r.start else info.startBlock;
    if r.forward then Info(start, Min(r.end, current - o.Behind())) else Info(r.start, info.lastBlock)
  }

  /** The range a step scans successfully, if any. */
  function Scans(o: Options, info: Info, a: Answers): Option<Range> {
    if a.current.None? then None
    else match Choose(o, info, a.current.value)
      case None => None
      case Some(r) =>
        if Import(r.start, r.end, o.blocksAtOnce, a.currentAgain, a.nodeOk).None? then Some(r) else None
  }

  /** The stored entry after one step: unchanged unless a range was scanned. */
  function Step(o: Options, info: Info, a: Answers): Info {
    match Scans(o, info, a)
    case None => info
    case Some(r) => Record(o, info, r, a.current.value)
  }

  /** scan_auto_step on the scan entry it updates in place. */
  class ScanInfo {
    var startBlock: int
    var lastBlock: int

    function Value(): Info
      reads this
    {
      Info(startBlock, lastBlock)
    }

    constructor ()
      ensures Value() == NEW_SCAN
    {
      startBlock, lastBlock := -1, -1;
    }

    /** Some(wait) as the original's Ok(wait), None as its error. */
    method AutoStep(o: Options, a: Answers) returns (wait: Option<bool>)
      modifies this
      ensures Value() == Step(o, old(Value()), a)
      ensures wait.None? ==> Value() == old(Value())
      ensures wait.None? <==> a.current.None? ||
                              (Choose(o, old(Value()), a.current.value).Some? && Scans(o, old(Value()), a).None?)
      ensures wait == Some(false) <==> Scans(o, old(Value()), a).Some? && !Scans(o, old(Value()), a).value.forward
    {
      if a.current.None? {
        return None;
      }
      var current := a.current.value;
      var chosen := Choose(o, Info(startBlock, lastBlock), current);
      if chosen.None? {
        return Some(true);
      }
      var Range(start, end, forward) := chosen.value;
      var failed := Import(start, end, o.blocksAtOnce, a.currentAgain, a.nodeOk);
      if failed.Some? {
        return None;
      }
      if startBlock == -1 {
        startBlock := start;
      }
      if forward {
        lastBlock := Min(end, current - o.Behind());
      } else {
        startBlock := start;
      }
      return Some(forward);
    }

    /** The loop of scan_blockchain_local over any finite sequence of answers. */
    method AutoLoop(o: Options, answers: seq<Answers>)
      modifies this
      ensures Value() == Run(o, old(Value()), answers)
    {
      for i := 0 to |answers|
        invariant Value() == Run(o, old(Value()), answers[..i])
      {
        var wait := AutoStep(o, answers[i]);
        assert answers[..i + 1][..i] == answers[..i];
      }
      assert answers[..|answers|] == answers;
    }
  }

  // ---- runs ----

  function Run(o: Options, info: Info, answers: seq<Answers>): Info {
    if answers == [] then info
    else Step(o, Run(o, info, answers[..|answers| - 1]), answers[|answers| - 1])
  }

  /** All ranges scanned successfully during a run. */
  function Scanned(o: Options, info: Info, answers: seq<Answers>): seq<Range> {
    if answers == [] then []
    else
      var before := answers[..|answers| - 1];
      Scanned(o, info, before) +
      match Scans(o, Run(o, info, before), answers[|answers| - 1]) { case Some(r) => [r] case None => [] }
  }

  predicate Covered(ranges: seq<Range>, block: int) {
    exists r | r in ranges :: r.start <= block <= r.end
  }

  /** Without a reading of the current block, or when the logs cannot be fetched, nothing is recorded. */
  lemma FailureChangesNothing(o: Options, info: Info, a: Answers)
    requires a.current.None? || !a.nodeOk
    ensures Step(o, info, a) == info && Scans(o, info, a).None?
  {
  }

  /** A range was scanned because one of the answers gave the current block, and the node fetched its logs, none of them
      from before block 0 or from a start beyond the second reading. */
  ghost predicate Fetched(answers: seq<Answers>, r: Range) {
    exists a | a in answers :: a.current.Some? && a.nodeOk && 0 <= r.start <= a.currentAgain
  }

  lemma {:induction false} ScannedIsFetched(o: Options, info: Info, answers: seq<Answers>)
    ensures forall r | r in Scanned(o, info, answers) :: Fetched(answers, r)
  {
    if answers != [] {
      var before, a := answers[..|answers| - 1], answers[|answers| - 1];
      ScannedIsFetched(o, info, before);
      assert answers == before + [a];
      forall r | r in Scanned(o, info, answers) ensures Fetched(answers, r) {
        if r in Scanned(o, info, before) {
          var b :| b in before && b.current.Some? && b.nodeOk && 0 <= r.start <= b.currentAgain;
          assert b in answers;
        } else {
          assert a in answers;
        }
      }
    }
  }

  /** What every reachable entry satisfies; in normal mode the last block may drop below -1, when the current
      block is read smaller than before. */
  predicate Sound(o: Options, info: Info) {
    && (info == NEW_SCAN || info.startBlock >= 0)
    && (BehindNeeded(o, info) ==> info.lastBlock >= -1)
  }

  /** What a successful range adds to the interval: nothing beyond the range itself. */
  lemma StepExtends(o: Options, info: Info, a: Answers, block: int)
    requires Sound(o, info) && Scans(o, info, a).Some?
    ensures var info', r := Step(o, info, a), Scans(o, info, a).value;
            && Sound(o, info') && 0 <= info'.startBlock
            && (info'.startBlock <= block <= info'.lastBlock ==>
                  r.start <= block <= r.end || (0 <= info.startBlock <= block <= info.lastBlock))
  {
  }

  /** Coverage: starting a new scan, after any sequence of readings and failures, the interval is unset or every
      block from its start to its last lies in a range whose logs the node has fetched. */
  lemma {:induction false} Coverage(o: Options, answers: seq<Answers>)
    ensures var info := Run(o, NEW_SCAN, answers);
            && Sound(o, info)
            && (forall block | 0 <= info.startBlock <= block <= info.lastBlock ::
                  Covered(Scanned(o, NEW_SCAN, answers), block))
            && forall r | r in Scanned(o, NEW_SCAN, answers) :: Fetched(answers, r)
  {
    ScannedIsFetched(o, NEW_SCAN, answers);
    if answers != [] {
      var before, a := answers[..|answers| - 1], answers[|answers| - 1];
      Coverage(o, before);
      var info, info' := Run(o, NEW_SCAN, before), Run(o, NEW_SCAN, answers);
      var ranges, ranges' := Scanned(o, NEW_SCAN, before), Scanned(o, NEW_SCAN, answers);
      match Scans(o, info, a)
      case None => assert ranges' == ranges;
      case Some(r) =>
        assert ranges' == ranges + [r];
        StepExtends(o, info, a, 0);
        forall block | info'.startBlock <= block <= info'.lastBlock ensures Covered(ranges', block) {
          StepExtends(o, info, a, block);
          if r.start <= block <= r.end {
            assert r in ranges';
          } else {
            assert Covered(ranges, block);
          }
        }
    }
  }

  /** Every range chosen after any run is ordered and small enough, so the import never refuses it for that; it
      is refused for a negative block exactly in normal mode before block 100. */
  lemma ChosenRange(o: Options, answers: seq<Answers>, current: int, again: int, ok: bool)
    requires Choose(o, Run(o, NEW_SCAN, answers), current).Some?
    ensures var info := Run(o, NEW_SCAN, answers);
            var r := Choose(o, info, current).value;
            var refusal := Import(r.start, r.end, o.blocksAtOnce, again, ok);
            && r.start <= r.end && r.end - r.start <= o.blocksAtOnce
            && refusal != Some(StartAfterEnd) && refusal != Some(TooManyBlocks)
            && (refusal == Some(NegativeBlock) <==> again >= r.start && !BehindNeeded(o, info) && info.lastBlock < 100)
  {
    Coverage(o, answers);
  }

  // ---- successful steps, in numbers ----

  /** What a step does when all its calls succeed, with the default from_block 1 and 100 blocks behind: before block 1
      it goes forward from the last block, or waits if that is too close; after that it scans the last 100 blocks again
      and goes on, or waits if the current block is behind even those. */
  lemma StepInNumbers(buffer: nat, atOnce: nat, info: Info, current: int, again: int)
    ensures var o, a := Options(None, None, buffer, atOnce), Answers(Some(current), again, true);
            var first := if info.startBlock == -1 then info.lastBlock + 1 else info.startBlock;
            && (info.startBlock < 1 && current - info.lastBlock >= 100 + buffer && 0 <= info.lastBlock + 1 <= again ==>
                  Step(o, info, a) == Info(first, Min(Min(info.lastBlock + 1 + atOnce, current), current - 100)))
            && (info.startBlock < 1 && current - info.lastBlock < 100 + buffer ==> Step(o, info, a) == info)
            && (info.startBlock >= 1 && 100 <= info.lastBlock <= Min(current, again) + 100 ==>
                  Step(o, info, a) ==
                  Info(info.startBlock, Min(Min(info.lastBlock - 100 + atOnce, current + 1), current - 100)))
            && (info.startBlock >= 1 && info.lastBlock - 100 > current ==> Step(o, info, a) == info)
  {
  }

  /** Looking backward: with a later from_block a step goes back from the first block scanned, down to block 1. */
  lemma BackwardStep(from: nat, buffer: nat, atOnce: nat, info: Info, current: int, again: int)
    requires 1 < info.startBlock < from && current - info.lastBlock < 100 + buffer && atOnce > 0
    requires Max(info.startBlock - atOnce, 1) <= again
    ensures Step(Options(Some(from), None, buffer, atOnce), info, Answers(Some(current), again, true)) ==
            Info(Max(info.startBlock - atOnce, 1), info.lastBlock)
  {
  }

  // ---- what a new scan can reach ----

  /** A new scan starts at block 0 and never looks backward, and it reaches normal mode only if from_block is 0; with
      any later from_block, the default included, it stays in catch-up mode for ever. */
  lemma {:induction false} NewScanReaches(o: Options, answers: seq<Answers>)
    ensures var info := Run(o, NEW_SCAN, answers);
            && (info == NEW_SCAN || info.startBlock == 0)
            && (!BehindNeeded(o, info) ==> o.From() == 0 && info != NEW_SCAN)
            && forall current | Choose(o, info, current).Some? :: Choose(o, info, current).value.forward
  {
    if answers != [] {
      var before := answers[..|answers| - 1];
      NewScanReaches(o, before);
      Coverage(o, before);
      StepStartsAtZero(o, Run(o, NEW_SCAN, before), answers[|answers| - 1]);
    }
  }

  lemma StepStartsAtZero(o: Options, info: Info, a: Answers)
    requires info == NEW_SCAN || info.startBlock == 0
    ensures Step(o, info, a) == NEW_SCAN || Step(o, info, a).startBlock == 0
  {
  }

  // ---- progress in catch-up mode ----

  /** Catch-up mode with the scanned interval not yet unset below block 0. */
  predicate CatchingUp(o: Options, info: Info) {
    BehindNeeded(o, info) && info.lastBlock >= -1 && (info == NEW_SCAN || info.startBlock == 0)
  }

  /** A steady catch-up step either waits, when the target is closer than the buffer, or moves the last block by
      blocks_at_once + 1 towards the target. */
  lemma CatchUpStep(o: Options, info: Info, current: int)
    requires CatchingUp(o, info) && info.lastBlock < current
    ensures Step(o, info, Answers(Some(current), current, true)) ==
            if current - info.lastBlock < o.Behind() + o.forwardScanBuffer then info
            else Info(0, Min(info.lastBlock + (o.blocksAtOnce + 1), current - o.Behind()))
  {
  }

  /** Exactly how far n steady steps get in catch-up mode, as long as the step before still had the buffer ahead of it:
      each step climbs by blocks_at_once + 1, whatever its size, up to the target. */
  lemma {:induction false} CatchUpClimb(o: Options, info: Info, current: int, n: nat, target: int, d: nat)
    requires CatchingUp(o, info) && o.From() > 0 && info.lastBlock < current && n > 0
    requires target == current - o.Behind() && d == o.blocksAtOnce + 1
    requires info.lastBlock + Times(n - 1, d) <= target - o.forwardScanBuffer
    ensures Run(o, info, Steady(current, n)) == Info(0, Min(info.lastBlock + Times(n, d), target))
  {
    hide Run, Step, Steady, Times, CatchingUp, Min;
    SteadyMore(o, info, current, n);
    TimesMore(n, d);
    if n == 1 {
      RunNothing(o, info, current);
      ClimbOnce(o, info, current, target, d);
    } else {
      TimesMore(n - 1, d);
      CatchUpClimb(o, info, current, n - 1, target, d);
      MinBelow(info.lastBlock + Times(n - 1, d), target);
      StillCatchingUp(o, info, info.lastBlock + Times(n - 1, d));
      ClimbOnce(o, Info(0, info.lastBlock + Times(n - 1, d)), current, target, d);
    }
  }

  lemma SteadyMore(o: Options, info: Info, current: int, n: nat)
    requires n > 0
    ensures Run(o, info, Steady(current, n)) ==
            Step(o, Run(o, info, Steady(current, n - 1)), Answers(Some(current), current, true))
  {
    hide Run, Step;
    RunLast(o, info, Steady(current, n - 1), Answers(Some(current), current, true));
  }

  lemma RunNothing(o: Options, info: Info, current: int)
    ensures Run(o, info, Steady(current, 0)) == info
  {
  }

  lemma TimesMore(n: nat, d: nat)
    requires n > 0
    ensures Times(n, d) == Times(n - 1, d) + d && Times(0, d) == 0
  {
  }

  lemma StillCatchingUp(o: Options, info: Info, last: int)
    requires CatchingUp(o, info) && o.From() > 0 && last >= info.lastBlock
    ensures CatchingUp(o, Info(0, last)) && info.lastBlock >= -1
  {
  }

  lemma MinBelow(x: int, y: int)
    requires x <= y
    ensures Min(x, y) == x
  {
  }

  /** One step of the climb, at the top too. */
  lemma ClimbOnce(o: Options, info: Info, current: int, target: int, d: nat)
    requires CatchingUp(o, info) && target == current - o.Behind() && d == o.blocksAtOnce + 1
    requires info.lastBlock <= target - o.forwardScanBuffer
    requires info.lastBlock < current || info.startBlock == 0
    ensures Step(o, info, Answers(Some(current), current, true)) == Info(0, Min(info.lastBlock + d, target))
  {
    hide Step;
    if info.lastBlock < current {
      CatchUpStep(o, info, current);
    } else {
      AtTheTop(o, info, current);
    }
  }

  /** With no blocks kept behind and no buffer the target is the current block itself, and the step waits there. */
  lemma AtTheTop(o: Options, info: Info, current: int)
    requires BehindNeeded(o, info) && info.lastBlock == current && info.startBlock == 0
    requires current - info.lastBlock >= o.Behind() + o.forwardScanBuffer
    ensures Step(o, info, Answers(Some(current), current, true)) == info
  {
  }

  /** Where catch-up rests: once the target is reached or closer than the buffer, steady steps change nothing. */
  lemma {:induction false} CatchUpRests(o: Options, info: Info, current: int, n: nat)
    requires BehindNeeded(o, info) && info.startBlock == 0 && -1 <= info.lastBlock <= current - o.Behind()
    requires info.lastBlock == current - o.Behind() ||
             current - info.lastBlock < o.Behind() + o.forwardScanBuffer
    ensures Run(o, info, Steady(current, n)) == info
  {
    if n > 0 {
      CatchUpRests(o, info, current, n - 1);
      RunLast(o, info, Steady(current, n - 1), Answers(Some(current), current, true));
    }
  }

  /** The first scan with from_block 0 decides everything: normal mode follows, and it is stuck for ever if and only if
      the first scan ends before block 100. */
  lemma FirstScanDecides(o: Options, current: nat, answers: seq<Answers>)
    requires o.From() == 0 && current + 1 >= o.Behind() + o.forwardScanBuffer
    ensures var first := Run(o, NEW_SCAN, Steady(current, 1));
            && first == Info(0, Min(o.blocksAtOnce, current - o.Behind())) && !BehindNeeded(o, first)
            && (first.lastBlock < 100 ==> Run(o, first, answers) == first)
            && (first.lastBlock >= 100 && first.lastBlock < current - o.Behind() && o.blocksAtOnce > 100 ==>
                  Run(o, first, Steady(current, 1)).lastBlock > first.lastBlock)
  {
    var a := Answers(Some(current), current, true);
    RunLast(o, NEW_SCAN, [], a);
    assert Steady(current, 0) + [a] == [a] && [] + [a] == [a];
    CatchUpStep(o, NEW_SCAN, current);
    var first := Run(o, NEW_SCAN, Steady(current, 1));
    if first.lastBlock < 100 { StuckBelow100(o, first, answers); }
    else if first.lastBlock < current - o.Behind() && o.blocksAtOnce > 100 {
      RunLast(o, first, [], a);
      ProgressIff(o, first, current);
    }
  }

  /** A scanner that is stuck: 50 blocks at once from block 0, one reading of block 1000, and nothing ever again. */
  lemma StuckIsReachable(answers: seq<Answers>)
    ensures var o := Options(Some(0), None, 0, 50);
            var first := Run(o, NEW_SCAN, Steady(1000, 1));
            first == Info(0, 50) && Run(o, first, answers) == first
  {
    FirstScanDecides(Options(Some(0), None, 0, 50), 1000, answers);
  }

  // ---- progress in normal mode ----

  /** Answers of a node that always works and always reports the same block. */
  function Steady(current: int, n: nat): seq<Answers> {
    if n == 0 then [] else Steady(current, n - 1) + [Answers(Some(current), current, true)]
  }

  /** One steady step in normal mode moves the last block by blocks_at_once - 100 towards the target. */
  lemma NormalStep(o: Options, info: Info, current: int)
    requires !BehindNeeded(o, info) && 100 <= info.lastBlock <= current - o.Behind()
    ensures Step(o, info, Answers(Some(current), current, true)) ==
            Info(info.startBlock, Min(info.lastBlock + (o.blocksAtOnce - 100), current - o.Behind()))
  {
  }

  lemma RunLast(o: Options, info: Info, before: seq<Answers>, a: Answers)
    ensures Run(o, info, before + [a]) == Step(o, Run(o, info, before), a)
  {
    assert (before + [a])[..|before|] == before;
  }

  lemma {:induction false} NormalClimb(o: Options, info: Info, current: int, n: nat, target: int, d: nat)
    requires !BehindNeeded(o, info) && 100 <= info.lastBlock <= target
    requires target == current - o.Behind() && d == o.blocksAtOnce - 100
    ensures Run(o, info, Steady(current, n)) == Info(info.startBlock, Min(info.lastBlock + Times(n, d), target))
  {
    if n > 0 {
      var before, mid := Steady(current, n - 1), Run(o, info, Steady(current, n - 1));
      NormalClimb(o, info, current, n - 1, target, d);
      assert !BehindNeeded(o, mid);
      NormalStep(o, mid, current);
      RunLast(o, info, before, Answers(Some(current), current, true));
      assert Steady(current, n) == before + [Answers(Some(current), current, true)];
      hide *;
      OneMoreStep(info.lastBlock, n, d, target);
    }
  }

  /** Exactly how far n steady steps get: the last block climbs by blocks_at_once - 100 a step, reaches
      current - blocks_behind and stays there. */
  lemma NormalProgress(o: Options, info: Info, current: int, n: nat)
    requires !BehindNeeded(o, info) && 100 <= info.lastBlock <= current - o.Behind() && o.blocksAtOnce > 100
    ensures Run(o, info, Steady(current, n)) ==
            Info(info.startBlock, Min(info.lastBlock + n * (o.blocksAtOnce - 100), current - o.Behind()))
  {
    hide Run;
    NormalClimb(o, info, current, n, current - o.Behind(), o.blocksAtOnce - 100);
    TimesIsProduct(n, o.blocksAtOnce - 100);
  }

  lemma OneMoreStep(last: int, n: nat, d: nat, target: int)
    requires n > 0
    ensures Min(Min(last + Times(n - 1, d), target) + d, target) == Min(last + Times(n, d), target)
  {
  }

  /** n times d, by repeated addition. */
  function Times(n: nat, d: nat): nat {
    if n == 0 then 0 else Times(n - 1, d) + d
  }

  lemma {:induction false} TimesIsProduct(n: nat, d: nat)
    ensures Times(n, d) == n * d
  {
    if n > 0 {
      TimesIsProduct(n - 1, d);
      assert n * d == (n - 1) * d + d;
    }
  }

  /** A steady normal step makes progress exactly when blocks_at_once exceeds the 100 blocks scanned again and
      the target is not reached; with fewer than 100 blocks at once the scanner moves backwards. */
  lemma ProgressIff(o: Options, info: Info, current: int)
    requires !BehindNeeded(o, info) && 100 <= info.lastBlock <= current - o.Behind()
    ensures var last := Step(o, info, Answers(Some(current), current, true)).lastBlock;
            && (last > info.lastBlock <==> o.blocksAtOnce > 100 && info.lastBlock < current - o.Behind())
            && (last < info.lastBlock <==> o.blocksAtOnce < 100)
  {
    NormalStep(o, info, current);
  }

  /** Concretely: an entry that ends at block 200 is set back to block 150 by a successful step of 50 blocks. */
  lemma StepBackwards()
    ensures var o := Options(Some(0), None, 0, 50);
            Step(o, Info(0, 200), Answers(Some(1000), 1000, true)) == Info(0, 150)
  {
    NormalStep(Options(Some(0), None, 0, 50), Info(0, 200), 1000);
  }

  /** Before block 100 normal mode is stuck: every scan is refused and the entry never changes. */
  lemma {:induction false} StuckBelow100(o: Options, info: Info, answers: seq<Answers>)
    requires !BehindNeeded(o, info) && info.lastBlock < 100
    ensures Run(o, info, answers) == info
  {
    if answers != [] { StuckBelow100(o, info, answers[..|answers| - 1]); }
  }
}
