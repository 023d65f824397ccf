/** The problem schedule of the test proxy (plan.rs, problems.rs and the frame loop of main.rs). */
module ProblemPlan {
  import opened Prelude
  import opened Bytes

  // ---- settings of one key ----

  datatype Problems = Problems(
    timeoutChance: real,
    minTimeoutMs: real,
    maxTimeoutMs: real,
    errorChance: real,
    malformedResponseChance: real,
    skipSendingRawTransactionChance: real,
    sendTransactionButReportFailureChance: real,
    allowOnlyParsedCalls: bool,
    allowOnlySingleCalls: bool)

  const DEFAULT_PROBLEMS := Problems(0.0, 0.0, 0.0, 0.0, 0.0, 0.0, 0.0, true, true)

  datatype Change = Change(
    timeoutChance: Option<real>,
    minTimeoutMs: Option<real>,
    maxTimeoutMs: Option<real>,
    errorChance: Option<real>,
    malformedResponseChance: Option<real>,
    skipSendingRawTransactionChance: Option<real>,
    sendTransactionButReportFailureChance: Option<real>,
    allowOnlyParsedCalls: Option<bool>,
    allowOnlySingleCalls: Option<bool>)

  function Apply(p: Problems, c: Change): Problems {
    Problems(
      c.timeoutChance.GetOr(p.timeoutChance),
      c.minTimeoutMs.GetOr(p.minTimeoutMs),
      c.maxTimeoutMs.GetOr(p.maxTimeoutMs),
      c.errorChance.GetOr(p.errorChance),
      c.malformedResponseChance.GetOr(p.malformedResponseChance),
      c.skipSendingRawTransactionChance.GetOr(p.skipSendingRawTransactionChance),
      c.sendTransactionButReportFailureChance.GetOr(p.sendTransactionButReportFailureChance),
      c.allowOnlyParsedCalls.GetOr(p.allowOnlyParsedCalls),
      c.allowOnlySingleCalls.GetOr(p.allowOnlySingleCalls))
  }

  /** apply_change on the settings it assigns field by field. */
  class EndpointSimulateProblems {
    var timeoutChance: real
    var minTimeoutMs: real
    var maxTimeoutMs: real
    var errorChance: real
    var malformedResponseChance: real
    var skipSendingRawTransactionChance: real
    var sendTransactionButReportFailureChance: real
    var allowOnlyParsedCalls: bool
    var allowOnlySingleCalls: bool

    function Value(): Problems
      reads this
    {
      Problems(timeoutChance, minTimeoutMs, maxTimeoutMs, errorChance, malformedResponseChance,
               skipSendingRawTransactionChance, sendTransactionButReportFailureChance, allowOnlyParsedCalls,
               allowOnlySingleCalls)
    }

    constructor (p: Problems)
      ensures Value() == p
    {
      timeoutChance, minTimeoutMs, maxTimeoutMs := p.timeoutChance, p.minTimeoutMs, p.maxTimeoutMs;
      errorChance, malformedResponseChance := p.errorChance, p.malformedResponseChance;
      skipSendingRawTransactionChance := p.skipSendingRawTransactionChance;
      sendTransactionButReportFailureChance := p.sendTransactionButReportFailureChance;
      allowOnlyParsedCalls, allowOnlySingleCalls := p.allowOnlyParsedCalls, p.allowOnlySingleCalls;
    }

    method ApplyChange(change: Change)
      modifies this
      ensures Value() == Apply(old(Value()), change)
    {
      ApplyTimes(change);
      ApplyFailures(change);
      ApplyLimits(change);
    }

    method ApplyTimes(change: Change)
      modifies this`timeoutChance, this`minTimeoutMs, this`maxTimeoutMs
      ensures timeoutChance == change.timeoutChance.GetOr(old(timeoutChance))
      ensures minTimeoutMs == change.minTimeoutMs.GetOr(old(minTimeoutMs))
      ensures maxTimeoutMs == change.maxTimeoutMs.GetOr(old(maxTimeoutMs))
    {
      if change.timeoutChance.Some? { timeoutChance := change.timeoutChance.value; }
      if change.minTimeoutMs.Some? { minTimeoutMs := change.minTimeoutMs.value; }
      if change.maxTimeoutMs.Some? { maxTimeoutMs := change.maxTimeoutMs.value; }
    }

    method ApplyFailures(change: Change)
      modifies this`errorChance, this`malformedResponseChance, this`skipSendingRawTransactionChance,
               this`sendTransactionButReportFailureChance
      ensures errorChance == change.errorChance.GetOr(old(errorChance))
      ensures malformedResponseChance == change.malformedResponseChance.GetOr(old(malformedResponseChance))
      ensures skipSendingRawTransactionChance ==
              change.skipSendingRawTransactionChance.GetOr(old(skipSendingRawTransactionChance))
      ensures sendTransactionButReportFailureChance ==
              change.sendTransactionButReportFailureChance.GetOr(old(sendTransactionButReportFailureChance))
    {
      if change.errorChance.Some? { errorChance := change.errorChance.value; }
      if change.malformedResponseChance.Some? { malformedResponseChance := change.malformedResponseChance.value; }
      if change.skipSendingRawTransactionChance.Some? {
        skipSendingRawTransactionChance := change.skipSendingRawTransactionChance.value;
      }
      if change.sendTransactionButReportFailureChance.Some? {
        sendTransactionButReportFailureChance := change.sendTransactionButReportFailureChance.value;
      }
    }

    method ApplyLimits(change: Change)
      modifies this`allowOnlyParsedCalls, this`allowOnlySingleCalls
      ensures allowOnlyParsedCalls == change.allowOnlyParsedCalls.GetOr(old(allowOnlyParsedCalls))
      ensures allowOnlySingleCalls == change.allowOnlySingleCalls.GetOr(old(allowOnlySingleCalls))
    {
      if change.allowOnlyParsedCalls.Some? { allowOnlyParsedCalls := change.allowOnlyParsedCalls.value; }
      if change.allowOnlySingleCalls.Some? { allowOnlySingleCalls := change.allowOnlySingleCalls.value; }
    }
  }

  // ---- the plan ----

  datatype ProblemEntry = ProblemEntry(frames: seq<nat>, keys: seq<string>, values: Change)

  datatype SortedEntry = SortedEntry(frame: nat, keys: seq<string>, values: Change)

  /** One entry for each frame of a problem entry. */
  function Spread(entry: ProblemEntry): (out: seq<SortedEntry>)
    ensures |out| == |entry.frames|
  {
    seq(|entry.frames|, i requires 0 <= i < |entry.frames| => SortedEntry(entry.frames[i], entry.keys, entry.values))
  }

  /** flat_map */
  function Flat(entries: seq<ProblemEntry>): seq<SortedEntry> {
    if entries == [] then [] else Spread(entries[0]) + Flat(entries[1..])
  }

  predicate SortedByFrame(s: seq<SortedEntry>) {
    forall i, j :: 0 <= i < j < |s| ==> s[i].frame <= s[j].frame
  }

  function Insert(e: SortedEntry, s: seq<SortedEntry>): seq<SortedEntry> {
    if s == [] || e.frame <= s[0].frame then [e] + s else [s[0]] + Insert(e, s[1..])
  }

  /** sort_by_key, which keeps the order of entries with equal frames. */
  function SortByFrame(s: seq<SortedEntry>): seq<SortedEntry> {
    if s == [] then [] else Insert(s[0], SortByFrame(s[1..]))
  }

  /** The entries of one frame, in order. */
  function AtFrame(s: seq<SortedEntry>, frame: nat): seq<SortedEntry> {
    if s == [] then [] else Only(s[0], frame) + AtFrame(s[1..], frame)
  }

  function CountBelow(s: seq<SortedEntry>, frame: nat): nat {
    if s == [] then 0 else (if s[0].frame < frame then 1 else 0) + CountBelow(s[1..], frame)
  }

  lemma {:induction false} InsertIsPermutation(e: SortedEntry, s: seq<SortedEntry>)
    ensures multiset(Insert(e, s)) == multiset(s) + multiset{e}
  {
    if !(s == [] || e.frame <= s[0].frame) {
      InsertIsPermutation(e, s[1..]);
      assert s == [s[0]] + s[1..];
    }
  }

  lemma {:induction false} InsertKeepsSorted(e: SortedEntry, s: seq<SortedEntry>)
    requires SortedByFrame(s)
    ensures SortedByFrame(Insert(e, s))
  {
    if !(s == [] || e.frame <= s[0].frame) {
      var rest := Insert(e, s[1..]);
      InsertKeepsSorted(e, s[1..]);
      InsertIsPermutation(e, s[1..]);
      forall i | 0 <= i < |rest| ensures s[0].frame <= rest[i].frame {
        assert rest[i] in multiset(s[1..]) + multiset{e};
        assert rest[i] == e || rest[i] in s[1..];
      }
    }
  }

  function Only(e: SortedEntry, frame: nat): seq<SortedEntry> {
    if e.frame == frame then [e] else []
  }

  lemma {:induction false} InsertAtFrame(e: SortedEntry, s: seq<SortedEntry>, frame: nat)
    ensures AtFrame(Insert(e, s), frame) == Only(e, frame) + AtFrame(s, frame)
  {
    if !(s == [] || e.frame <= s[0].frame) {
      InsertAtFrame(e, s[1..], frame);
      var rest, t := Insert(e, s[1..]), AtFrame(s[1..], frame);
      assert Insert(e, s)[1..] == rest;
      Swap(Only(s[0], frame), Only(e, frame), t);
    }
  }

  lemma Swap(x: seq<SortedEntry>, y: seq<SortedEntry>, t: seq<SortedEntry>)
    requires x == [] || y == []
    ensures x + (y + t) == y + (x + t)
  {
  }

  /** The sort is a stable rearrangement: sorted, the same entries, and each frame's entries in plan order. */
  lemma {:induction false} SortIsStable(s: seq<SortedEntry>, frame: nat)
    ensures var out := SortByFrame(s);
            SortedByFrame(out) && multiset(out) == multiset(s) && AtFrame(out, frame) == AtFrame(s, frame)
  {
    if s != [] {
      SortIsStable(s[1..], frame);
      InsertKeepsSorted(s[0], SortByFrame(s[1..]));
      InsertIsPermutation(s[0], SortByFrame(s[1..]));
      InsertAtFrame(s[0], SortByFrame(s[1..]), frame);
      assert s == [s[0]] + s[1..];
    }
  }

  // ---- conflicts ----

  function Count(keys: seq<string>, key: string): nat {
    if keys == [] then 0 else (if keys[0] == key then 1 else 0) + Count(keys[1..], key)
  }

  /** How often a list of entries changes a key in a frame. */
  function Occurrences(s: seq<SortedEntry>, key: string, frame: nat): nat {
    if s == [] then 0
    else (if s[0].frame == frame then Count(s[0].keys, key) else 0) + Occurrences(s[1..], key, frame)
  }

  /** No key is changed twice in one frame. */
  ghost predicate ConflictFree(s: seq<SortedEntry>) {
    forall key, frame: nat :: Occurrences(s, key, frame) <= 1
  }

  lemma {:induction false} OccurrencesConcat(a: seq<SortedEntry>, b: seq<SortedEntry>, key: string, frame: nat)
    ensures Occurrences(a + b, key, frame) == Occurrences(a, key, frame) + Occurrences(b, key, frame)
  {
    if a == [] {
      assert a + b == b;
    } else {
      assert (a + b)[1..] == a[1..] + b;
      OccurrencesConcat(a[1..], b, key, frame);
    }
  }

  lemma {:induction false} CountConcat(a: seq<string>, b: seq<string>, key: string)
    ensures Count(a + b, key) == Count(a, key) + Count(b, key)
  {
    if a == [] {
      assert a + b == b;
    } else {
      assert (a + b)[1..] == a[1..] + b;
      CountConcat(a[1..], b, key);
    }
  }

  lemma {:induction false} OccurrencesAtFrame(s: seq<SortedEntry>, key: string, frame: nat)
    ensures Occurrences(AtFrame(s, frame), key, frame) == Occurrences(s, key, frame)
  {
    if s != [] {
      OccurrencesAtFrame(s[1..], key, frame);
      OccurrencesConcat(Only(s[0], frame), AtFrame(s[1..], frame), key, frame);
    }
  }

  /** Everything a prefix of the entries and of one more entry's keys contributes. */
  function Seen(s: seq<SortedEntry>, i: nat, k: nat, key: string, frame: nat): nat
    requires i <= |s| && (i < |s| ==> k <= |s[i].keys|)
  {
    Occurrences(s[..i], key, frame) +
    if i < |s| && s[i].frame == frame then Count(s[i].keys[..k], key) else 0
  }

  ghost predicate Tracks(seen: set<(string, nat)>, s: seq<SortedEntry>, i: nat, k: nat)
    requires i <= |s| && (i < |s| ==> k <= |s[i].keys|)
  {
    forall key, frame: nat {:trigger (key, frame) in seen} ::
      Seen(s, i, k, key, frame) == if (key, frame) in seen then 1 else 0
  }

  lemma SeenNextKey(s: seq<SortedEntry>, i: nat, k: nat, key: string, frame: nat)
    requires i < |s| && k < |s[i].keys|
    ensures Seen(s, i, k + 1, key, frame) ==
            Seen(s, i, k, key, frame) + if frame == s[i].frame && key == s[i].keys[k] then 1 else 0
  {
    var keys := s[i].keys;
    assert keys[..k + 1] == keys[..k] + [keys[k]];
    CountConcat(keys[..k], [keys[k]], key);
  }

  lemma SeenNextEntry(s: seq<SortedEntry>, i: nat, key: string, frame: nat)
    requires i < |s|
    ensures Seen(s, i + 1, 0, key, frame) == Seen(s, i, |s[i].keys|, key, frame)
  {
    var keys := s[i].keys;
    assert s[..i + 1] == s[..i] + [s[i]] && keys[..|keys|] == keys;
    OccurrencesConcat(s[..i], [s[i]], key, frame);
    if i + 1 < |s| { assert s[i + 1].keys[..0] == []; }
  }

  lemma SeenIsPart(s: seq<SortedEntry>, i: nat, k: nat, key: string, frame: nat)
    requires i < |s| && k <= |s[i].keys|
    ensures Seen(s, i, k, key, frame) <= Occurrences(s, key, frame)
  {
    var keys := s[i].keys;
    assert s == s[..i] + ([s[i]] + s[i + 1..]) && keys == keys[..k] + keys[k..];
    OccurrencesConcat(s[..i], [s[i]] + s[i + 1..], key, frame);
    OccurrencesConcat([s[i]], s[i + 1..], key, frame);
    CountConcat(keys[..k], keys[k..], key);
  }

  /** The check for conflicts over the sorted entries. */
  method CheckForConflict(s: seq<SortedEntry>) returns (ok: bool)
    ensures ok <==> ConflictFree(s)
  {
    hide Seen, Occurrences, Count;
    var seen: set<(string, nat)> := {};
    assert Tracks(seen, s, 0, 0) by { NothingSeen(s); }
    for i := 0 to |s|
      invariant Tracks(seen, s, i, 0)
    {
      var entry := s[i];
      for k := 0 to |entry.keys|
        invariant Tracks(seen, s, i, k)
      {
        var keyFrame := (entry.keys[k], entry.frame);
        SeenNextKey(s, i, k, keyFrame.0, keyFrame.1);
        if keyFrame in seen {
          SeenIsPart(s, i, k + 1, keyFrame.0, keyFrame.1);
          return false;
        }
        forall key, frame: nat ensures Seen(s, i, k + 1, key, frame) ==
            Seen(s, i, k, key, frame) + if (key, frame) == keyFrame then 1 else 0
        {
          SeenNextKey(s, i, k, key, frame);
        }
        seen := seen + {keyFrame};
      }
      forall key, frame: nat ensures Seen(s, i + 1, 0, key, frame) == Seen(s, i, |entry.keys|, key, frame) {
        SeenNextEntry(s, i, key, frame);
      }
    }
    forall key, frame: nat ensures Occurrences(s, key, frame) <= 1 {
      AllSeen(s, key, frame);
      assert (key, frame) in seen || (key, frame) !in seen;
    }
    return true;
  }

  lemma NothingSeen(s: seq<SortedEntry>)
    ensures forall key, frame: nat :: Seen(s, 0, 0, key, frame) == 0
  {
    assert s[..0] == [];
    if s != [] { assert s[0].keys[..0] == []; }
  }

  lemma AllSeen(s: seq<SortedEntry>, key: string, frame: nat)
    ensures Seen(s, |s|, 0, key, frame) == Occurrences(s, key, frame)
  {
    assert s[..|s|] == s;
  }

  /** The check on the sorted entries decides conflicts of the plan as written. */
  lemma SortKeepsConflicts(s: seq<SortedEntry>)
    ensures ConflictFree(SortByFrame(s)) <==> ConflictFree(s)
  {
    forall key, frame: nat ensures Occurrences(SortByFrame(s), key, frame) == Occurrences(s, key, frame) {
      SortIsStable(s, frame);
      OccurrencesAtFrame(s, key, frame);
      OccurrencesAtFrame(SortByFrame(s), key, frame);
    }
  }

  /** from_problem_project: None where the original panics, which it does exactly when a key is changed twice in
      one frame. */
  method FromProblemProject(entries: seq<ProblemEntry>) returns (sorted: Option<seq<SortedEntry>>)
    ensures sorted == if ConflictFree(Flat(entries)) then Some(SortByFrame(Flat(entries))) else None
  {
    var sortedEntries := SortByFrame(Flat(entries));
    SortKeepsConflicts(Flat(entries));
    var ok := CheckForConflict(sortedEntries);
    return if ok then Some(sortedEntries) else None;
  }

  // ---- draining the plan ----

  type Settings = map<string, Problems>

  function Look(settings: Settings, key: string): Option<Problems> {
    if key in settings then Some(settings[key]) else None
  }

  function ApplyKeys(settings: Settings, keys: seq<string>, values: Change): Settings {
    if keys == [] then settings
    else
      var key := keys[|keys| - 1];
      var before := ApplyKeys(settings, keys[..|keys| - 1], values);
      before[key := Apply(Look(before, key).GetOr(DEFAULT_PROBLEMS), values)]
  }

  function ApplyEntries(settings: Settings, entries: seq<SortedEntry>): Settings {
    if entries == [] then settings
    else
      var last := entries[|entries| - 1];
      ApplyKeys(ApplyEntries(settings, entries[..|entries| - 1]), last.keys, last.values)
  }

  lemma {:induction false} NoneBelow(s: seq<SortedEntry>, frame: nat)
    requires forall i :: 0 <= i < |s| ==> s[i].frame >= frame
    ensures CountBelow(s, frame) == 0
  {
    if s != [] { NoneBelow(s[1..], frame); }
  }

  lemma {:induction false} BelowIsPrefix(s: seq<SortedEntry>, frame: nat)
    requires SortedByFrame(s)
    ensures CountBelow(s, frame) <= |s|
    ensures forall i :: 0 <= i < |s| ==> (i < CountBelow(s, frame) <==> s[i].frame < frame)
  {
    if s != [] {
      BelowIsPrefix(s[1..], frame);
      if s[0].frame >= frame { NoneBelow(s[1..], frame); }
      assert forall i :: 0 < i < |s| ==> s[i] == s[1..][i - 1];
    }
  }

  lemma {:induction false} BelowGrows(s: seq<SortedEntry>, frame: nat)
    ensures CountBelow(s, frame) <= CountBelow(s, frame + 1) <= |s|
  {
    if s != [] { BelowGrows(s[1..], frame); }
  }

  lemma SliceOfRest(s: seq<SortedEntry>, lo: nat, hi: nat)
    requires s != [] && lo <= hi < |s|
    ensures s[lo + 1..hi + 1] == s[1..][lo..hi]
    ensures s[0..hi + 1] == [s[0]] + s[1..][0..hi]
  {
  }

  lemma {:induction false} SliceIsFrame(s: seq<SortedEntry>, frame: nat, lo: nat, hi: nat)
    requires SortedByFrame(s)
    requires lo == CountBelow(s, frame) && hi == CountBelow(s, frame + 1)
    ensures lo <= hi <= |s| && s[lo..hi] == AtFrame(s, frame)
  {
    BelowGrows(s, frame);
    if s != [] {
      var rest := s[1..];
      var lo', hi' := CountBelow(rest, frame), CountBelow(rest, frame + 1);
      SliceIsFrame(rest, frame, lo', hi');
      SliceOfRest(s, lo', hi');
      assert AtFrame(s, frame) == Only(s[0], frame) + AtFrame(rest, frame);
      assert lo == lo' + (if s[0].frame < frame then 1 else 0) && hi == hi' + (if s[0].frame <= frame then 1 else 0);
      hide AtFrame, CountBelow;
      if s[0].frame > frame {
        NoneBelow(rest, frame + 1);
      } else if s[0].frame == frame {
        NoneBelow(rest, frame);
      }
    }
  }

  lemma SplitAtFrame(s: seq<SortedEntry>, frame: nat)
    requires SortedByFrame(s)
    ensures CountBelow(s, frame) <= CountBelow(s, frame + 1) <= |s|
    ensures forall i :: 0 <= i < |s| ==> (i < CountBelow(s, frame) <==> s[i].frame < frame)
    ensures forall i :: 0 <= i < |s| ==> (i < CountBelow(s, frame + 1) <==> s[i].frame < frame + 1)
    ensures s[CountBelow(s, frame)..CountBelow(s, frame + 1)] == AtFrame(s, frame)
  {
    BelowIsPrefix(s, frame);
    BelowIsPrefix(s, frame + 1);
    SliceIsFrame(s, frame, CountBelow(s, frame), CountBelow(s, frame + 1));
  }

  /** Which frame a tick handles when the counter stands at n. */
  function FrameNow(n: nat, cycle: Option<nat>): nat {
    if cycle.Some? && n >= cycle.value then 0 else n
  }

  /** The frame loop of main.rs, with the iterator it drains. */
  class PlanRunner {
    const sortedEntries: seq<SortedEntry>
    const frameCycle: Option<nat>
    var currentIndex: nat
    var frameNo: nat
    var settings: Settings

    ghost predicate Valid()
      reads this
    {
      SortedByFrame(sortedEntries) && currentIndex == CountBelow(sortedEntries, frameNo)
    }

    constructor (sortedEntries: seq<SortedEntry>, frameCycle: Option<nat>, settings: Settings)
      requires SortedByFrame(sortedEntries)
      ensures Valid() && this.sortedEntries == sortedEntries && this.frameCycle == frameCycle
      ensures frameNo == 0 && this.settings == settings
    {
      this.sortedEntries, this.frameCycle, this.settings := sortedEntries, frameCycle, settings;
      currentIndex, frameNo := 0, 0;
      new;
      SplitAtFrame(sortedEntries, 0);
      NoneBelow(sortedEntries, 0);
    }

    method GetNextEntry(currentFrame: nat) returns (e: Option<SortedEntry>)
      modifies this`currentIndex
      ensures if old(currentIndex) < |sortedEntries| && sortedEntries[old(currentIndex)].frame <= currentFrame
              then e == Some(sortedEntries[old(currentIndex)]) && currentIndex == old(currentIndex) + 1
              else e == None && currentIndex == old(currentIndex)
    {
      if currentIndex < |sortedEntries| {
        var problemEntry := sortedEntries[currentIndex];
        if problemEntry.frame <= currentFrame {
          currentIndex := currentIndex + 1;
          return Some(problemEntry);
        }
      }
      return None;
    }

    method ApplyToKeys(entry: SortedEntry)
      modifies this`settings
      ensures settings == ApplyKeys(old(settings), entry.keys, entry.values)
    {
      for k := 0 to |entry.keys|
        invariant settings == ApplyKeys(old(settings), entry.keys[..k], entry.values)
      {
        var key := entry.keys[k];
        if key !in settings {
          settings := settings[key := DEFAULT_PROBLEMS];
        }
        settings := settings[key := Apply(settings[key], entry.values)];
        assert entry.keys[..k + 1][..k] == entry.keys[..k];
      }
      assert entry.keys[..|entry.keys|] == entry.keys;
    }

    /** while let Some(entry) = get_next_entry(frame_no) */
    method Drain(ghost hi: nat)
      requires currentIndex <= hi <= |sortedEntries|
      requires forall i :: currentIndex <= i < |sortedEntries| ==> (i < hi <==> sortedEntries[i].frame <= frameNo)
      modifies this`currentIndex, this`settings
      ensures currentIndex == hi
      ensures settings == ApplyEntries(old(settings), sortedEntries[old(currentIndex)..hi])
    {
      ghost var lo := currentIndex;
      while true
        invariant lo <= currentIndex <= hi
        invariant settings == ApplyEntries(old(settings), sortedEntries[lo..currentIndex])
        decreases |sortedEntries| - currentIndex
      {
        ghost var before := sortedEntries[lo..currentIndex];
        var next := GetNextEntry(frameNo);
        if next.None? {
          break;
        }
        assert sortedEntries[lo..currentIndex] == before + [next.value];
        ApplyToKeys(next.value);
      }
    }

    /** One round of the loop: restart after the last frame of a cycle, then drain the frame. It applies exactly
        the entries of its frame, each once, in plan order. */
    method Tick()
      requires Valid()
      modifies this
      ensures Valid() && frameNo == FrameNow(old(frameNo), frameCycle) + 1
      ensures settings == ApplyEntries(old(settings), AtFrame(sortedEntries, FrameNow(old(frameNo), frameCycle)))
    {
      if frameCycle.Some? && frameNo >= frameCycle.value {
        frameNo := 0;
        currentIndex := 0;
        NoneBelow(sortedEntries, 0);
      }
      SplitAtFrame(sortedEntries, frameNo);
      Drain(CountBelow(sortedEntries, frameNo + 1));
      frameNo := frameNo + 1;
    }

    /** set_problems */
    method SetProblems(key: string, problems: Problems)
      modifies this`settings
      ensures settings == old(settings)[key := problems]
    {
      if key !in settings {
        settings := settings[key := DEFAULT_PROBLEMS];
      }
      settings := settings[key := problems];
    }

    /** The start of a call, which creates its key. */
    method TouchKey(key: string)
      modifies this`settings
      ensures settings == if key in old(settings) then old(settings) else old(settings)[key := DEFAULT_PROBLEMS]
    {
      if key !in settings {
        settings := settings[key := DEFAULT_PROBLEMS];
      }
    }

    /** The frame loop while requests change settings and remove keys between its rounds. */
    method Rounds(happenings: seq<Happening>)
      requires Valid() && frameNo == 0
      modifies this
      ensures Valid() && settings == Amid(sortedEntries, frameCycle, old(settings), happenings).settings
    {
      for i := 0 to |happenings|
        invariant Valid()
        invariant var m := Amid(sortedEntries, frameCycle, old(settings), happenings[..i]);
                  settings == m.settings && FrameNow(frameNo, frameCycle) == FrameAt(m.ticks, frameCycle)
      {
        assert happenings[..i + 1][..i] == happenings[..i];
        ghost var ticks := Amid(sortedEntries, frameCycle, old(settings), happenings[..i]).ticks;
        match happenings[i] {
          case Round =>
            Tick();
            NextFrame(ticks, frameCycle);
          case Set(key, problems) => SetProblems(key, problems);
          case Touch(key) => TouchKey(key);
          case Remove(key) => settings := settings - {key};
          case RemoveAll => settings := map[];
        }
      }
      assert happenings[..|happenings|] == happenings;
    }

    method Ticks(n: nat)
      requires Valid() && frameNo == 0
      modifies this
      ensures Valid() && settings == SettingsAfter(sortedEntries, frameCycle, old(settings), n)
    {
      for i := 0 to n
        invariant Valid() && FrameNow(frameNo, frameCycle) == FrameAt(i, frameCycle)
        invariant settings == SettingsAfter(sortedEntries, frameCycle, old(settings), i)
      {
        Tick();
        NextFrame(i, frameCycle);
      }
    }
  }

  // ---- any number of ticks ----

  /** Tick t handles frame t, counted anew in each cycle. */
  function FrameAt(t: nat, cycle: Option<nat>): nat {
    match cycle
    case None => t
    case Some(c) => if c == 0 then 0 else t % c
  }

  /** A cycle of c frames starts with frames 0 to c - 1 and then repeats them. */
  lemma CycleRepeats(t: nat, c: nat)
    requires c > 0
    ensures t < c ==> FrameAt(t, Some(c)) == t
    ensures FrameAt(t + c, Some(c)) == FrameAt(t, Some(c)) < c
    ensures FrameAt(t, Some(0)) == 0 && FrameAt(t, None) == t
  {
    if t < c { RemainderUnique(t, c, 0, t); }
    var q, r := t / c, t % c;
    assert t + c == (q + 1) * c + r;
    RemainderUnique(t + c, c, q + 1, r);
  }

  lemma NextFrame(t: nat, cycle: Option<nat>)
    ensures FrameNow(FrameAt(t, cycle) + 1, cycle) == FrameAt(t + 1, cycle)
  {
    if cycle.Some? && cycle.value > 0 { NextRemainder(t, cycle.value); }
  }

  lemma NextRemainder(t: nat, c: nat)
    requires c > 0
    ensures (t + 1) % c == if t % c + 1 == c then 0 else t % c + 1
  {
    var q, r := t / c, t % c;
    assert t + 1 == q * c + (r + 1);
    if r + 1 == c {
      assert t + 1 == (q + 1) * c;
      RemainderUnique(t + 1, c, q + 1, 0);
    } else {
      RemainderUnique(t + 1, c, q, r + 1);
    }
  }

  function SettingsAfter(s: seq<SortedEntry>, cycle: Option<nat>, initial: Settings, n: nat): Settings {
    if n == 0 then initial
    else ApplyEntries(SettingsAfter(s, cycle, initial, n - 1), AtFrame(s, FrameAt(n - 1, cycle)))
  }

  /** Everything delivered by the first n ticks. */
  function Delivered(s: seq<SortedEntry>, cycle: Option<nat>, n: nat): seq<SortedEntry> {
    if n == 0 then [] else Delivered(s, cycle, n - 1) + AtFrame(s, FrameAt(n - 1, cycle))
  }

  /** Without a cycle, the ticks of frames 0 to n - 1 deliver each entry with a frame below n exactly once, in
      frame order: the sorted plan's prefix of such entries. */
  lemma {:induction false} DeliveredOnce(s: seq<SortedEntry>, n: nat)
    requires SortedByFrame(s)
    ensures CountBelow(s, n) <= |s| && Delivered(s, None, n) == s[..CountBelow(s, n)]
    ensures forall i :: 0 <= i < |s| ==> (i < CountBelow(s, n) <==> s[i].frame < n)
  {
    if n == 0 {
      NoneBelow(s, 0);
    } else {
      DeliveredOnce(s, n - 1);
      SplitAtFrame(s, n - 1);
      var lo, hi := CountBelow(s, n - 1), CountBelow(s, n);
      assert s[..lo] + s[lo..hi] == s[..hi];
    }
  }

  // ---- the order of the entries in the plan does not matter ----

  lemma {:induction false} FlatConcat(a: seq<ProblemEntry>, b: seq<ProblemEntry>)
    ensures Flat(a + b) == Flat(a) + Flat(b)
  {
    if a == [] {
      assert a + b == b;
    } else {
      assert (a + b)[1..] == a[1..] + b;
      FlatConcat(a[1..], b);
    }
  }

  lemma RemoveAt<T>(s: seq<T>, i: nat)
    requires i < |s|
    ensures s == s[..i] + ([s[i]] + s[i + 1..])
    ensures multiset(s) == multiset(s[..i] + s[i + 1..]) + multiset{s[i]}
  {
    assert s == s[..i] + ([s[i]] + s[i + 1..]);
  }

  lemma FindSame<T>(a: seq<T>, b: seq<T>) returns (i: nat)
    requires a != [] && multiset(a) == multiset(b)
    ensures i < |b| && b[i] == a[0] && multiset(a[1..]) == multiset(b[..i] + b[i + 1..])
  {
    RemoveAt(a, 0);
    assert a[0] in multiset(a);
    assert a[0] in b;
    i :| 0 <= i < |b| && b[i] == a[0];
    RemoveAt(b, i);
    assert a[..0] + a[1..] == a[1..];
    CancelOne(multiset(a[1..]), multiset(b[..i] + b[i + 1..]), a[0]);
  }

  lemma CancelOne<T>(m: multiset<T>, n: multiset<T>, x: T)
    requires m + multiset{x} == n + multiset{x}
    ensures m == n
  {
    assert m == (m + multiset{x}) - multiset{x};
    assert n == (n + multiset{x}) - multiset{x};
  }

  lemma FlatRemove(b: seq<ProblemEntry>, i: nat)
    requires i < |b|
    ensures multiset(Flat(b)) == multiset(Flat(b[..i] + b[i + 1..])) + multiset(Spread(b[i]))
  {
    RemoveAt(b, i);
    FlatConcat(b[..i], [b[i]] + b[i + 1..]);
    FlatConcat(b[..i], b[i + 1..]);
    assert Flat([b[i]] + b[i + 1..]) == Spread(b[i]) + Flat(b[i + 1..]);
  }

  /** Spreading rearranged plans gives rearranged entries. */
  lemma {:induction false} FlatPermutes(a: seq<ProblemEntry>, b: seq<ProblemEntry>)
    requires multiset(a) == multiset(b)
    ensures multiset(Flat(a)) == multiset(Flat(b))
    decreases |a|
  {
    if a == [] {
      assert |multiset(b)| == 0;
    } else {
      var i := FindSame(a, b);
      FlatPermutes(a[1..], b[..i] + b[i + 1..]);
      FlatRemove(b, i);
    }
  }

  lemma OccurrencesRemove(b: seq<SortedEntry>, i: nat, key: string, frame: nat)
    requires i < |b|
    ensures Occurrences(b, key, frame) == Occurrences(b[..i] + b[i + 1..], key, frame) +
                                          if b[i].frame == frame then Count(b[i].keys, key) else 0
  {
    RemoveAt(b, i);
    OccurrencesConcat(b[..i], [b[i]] + b[i + 1..], key, frame);
    OccurrencesConcat(b[..i], b[i + 1..], key, frame);
  }

  lemma {:induction false} OccurrencesPermute(a: seq<SortedEntry>, b: seq<SortedEntry>, key: string, frame: nat)
    requires multiset(a) == multiset(b)
    ensures Occurrences(a, key, frame) == Occurrences(b, key, frame)
    decreases |a|
  {
    if a == [] {
      assert |multiset(b)| == 0;
    } else {
      var i := FindSame(a, b);
      OccurrencesPermute(a[1..], b[..i] + b[i + 1..], key, frame);
      OccurrencesRemove(b, i, key, frame);
    }
  }

  /** The changes a list of entries makes to one key, in order. */
  function ChangesOf(s: seq<SortedEntry>, key: string): seq<Change> {
    if s == [] then []
    else ChangesOf(s[..|s| - 1], key) + Repeat(s[|s| - 1].values, Count(s[|s| - 1].keys, key))
  }

  function Repeat(c: Change, n: nat): (out: seq<Change>)
    ensures |out| == n && forall i :: 0 <= i < n ==> out[i] == c
  {
    seq(n, i => c)
  }

  function ApplyAll(p: Option<Problems>, changes: seq<Change>): Option<Problems> {
    if changes == [] then p
    else Some(Apply(ApplyAll(p, changes[..|changes| - 1]).GetOr(DEFAULT_PROBLEMS), changes[|changes| - 1]))
  }

  lemma {:induction false} ApplyAllConcat(p: Option<Problems>, a: seq<Change>, b: seq<Change>)
    ensures ApplyAll(p, a + b) == ApplyAll(ApplyAll(p, a), b)
  {
    if b == [] {
      assert a + b == a;
    } else {
      assert (a + b)[..|a + b| - 1] == a + b[..|b| - 1];
      ApplyAllConcat(p, a, b[..|b| - 1]);
    }
  }

  lemma {:induction false} KeysApply(settings: Settings, keys: seq<string>, values: Change, key: string)
    ensures Look(ApplyKeys(settings, keys, values), key) ==
            ApplyAll(Look(settings, key), Repeat(values, Count(keys, key)))
  {
    if keys != [] {
      var front, last := keys[..|keys| - 1], keys[|keys| - 1];
      KeysApply(settings, front, values, key);
      assert keys == front + [last];
      CountConcat(front, [last], key);
      var before, after := Repeat(values, Count(front, key)), Repeat(values, Count(keys, key));
      if last == key {
        assert after == before + [values] && after[..|after| - 1] == before;
      } else {
        assert after == before;
      }
    }
  }

  /** Applying entries changes a key by exactly the changes made to it. */
  lemma {:induction false} EntriesApply(settings: Settings, s: seq<SortedEntry>, key: string)
    ensures Look(ApplyEntries(settings, s), key) == ApplyAll(Look(settings, key), ChangesOf(s, key))
  {
    if s != [] {
      var front, last := s[..|s| - 1], s[|s| - 1];
      EntriesApply(settings, front, key);
      KeysApply(ApplyEntries(settings, front), last.keys, last.values, key);
      ApplyAllConcat(Look(settings, key), ChangesOf(front, key), Repeat(last.values, Count(last.keys, key)));
    }
  }

  ghost predicate Makes(s: seq<SortedEntry>, key: string, c: Change) {
    exists e :: e in s && e.values == c && Count(e.keys, key) > 0
  }

  lemma {:induction false} ChangesFacts(s: seq<SortedEntry>, key: string, frame: nat)
    requires forall e :: e in s ==> e.frame == frame
    ensures |ChangesOf(s, key)| == Occurrences(s, key, frame)
    ensures forall c :: c in ChangesOf(s, key) ==> Makes(s, key, c)
  {
    if s != [] {
      var front, last := s[..|s| - 1], s[|s| - 1];
      assert s == front + [last];
      ChangesFacts(front, key, frame);
      OccurrencesConcat(front, [last], key, frame);
      forall c | c in ChangesOf(s, key) ensures Makes(s, key, c) {
        if c in ChangesOf(front, key) {
          assert Makes(front, key, c);
        } else {
          assert last in s;
        }
      }
    }
  }

  lemma {:induction false} MakersOccur(s: seq<SortedEntry>, key: string, frame: nat, e: SortedEntry)
    requires e in s && e.frame == frame && Count(e.keys, key) > 0
    requires Occurrences(s, key, frame) <= 1
    ensures forall d :: d in s && d.frame == frame && Count(d.keys, key) > 0 ==> d == e
  {
    if s[0] == e {
      assert Occurrences(s[1..], key, frame) == 0;
      NobodyOccurs(s[1..], key, frame);
      assert s == [s[0]] + s[1..];
    } else {
      assert s == [s[0]] + s[1..];
      SomebodyOccurs(s[1..], key, frame, e);
      MakersOccur(s[1..], key, frame, e);
    }
  }

  lemma {:induction false} NobodyOccurs(s: seq<SortedEntry>, key: string, frame: nat)
    requires Occurrences(s, key, frame) == 0
    ensures forall d :: d in s && d.frame == frame ==> Count(d.keys, key) == 0
  {
    if s != [] {
      NobodyOccurs(s[1..], key, frame);
      assert s == [s[0]] + s[1..];
    }
  }

  lemma {:induction false} SomebodyOccurs(s: seq<SortedEntry>, key: string, frame: nat, e: SortedEntry)
    requires e in s && e.frame == frame && Count(e.keys, key) > 0
    ensures Occurrences(s, key, frame) > 0
  {
    if s[0] != e {
      assert s == [s[0]] + s[1..];
      SomebodyOccurs(s[1..], key, frame, e);
    }
  }

  lemma {:induction false} AtFrameMembers(s: seq<SortedEntry>, frame: nat)
    ensures forall e :: e in AtFrame(s, frame) <==> e in s && e.frame == frame
  {
    if s != [] {
      AtFrameMembers(s[1..], frame);
      assert s == [s[0]] + s[1..];
    }
  }

  /** In a frame without conflicts, rearranged plans change a key in the same way. */
  lemma SameChanges(a: seq<SortedEntry>, b: seq<SortedEntry>, key: string, frame: nat)
    requires multiset(a) == multiset(b) && Occurrences(a, key, frame) <= 1
    ensures ChangesOf(AtFrame(a, frame), key) == ChangesOf(AtFrame(b, frame), key)
  {
    hide Occurrences, ChangesOf, AtFrame, Count;
    var x, y := ChangesOf(AtFrame(a, frame), key), ChangesOf(AtFrame(b, frame), key);
    AtFrameMembers(a, frame);
    AtFrameMembers(b, frame);
    ChangesFacts(AtFrame(a, frame), key, frame);
    ChangesFacts(AtFrame(b, frame), key, frame);
    OccurrencesAtFrame(a, key, frame);
    OccurrencesAtFrame(b, key, frame);
    OccurrencesPermute(a, b, key, frame);
    if |x| == 1 {
      assert x[0] in x && y[0] in y;
      var d, e :| d in AtFrame(a, frame) && d.values == x[0] && Count(d.keys, key) > 0 &&
                  e in AtFrame(b, frame) && e.values == y[0] && Count(e.keys, key) > 0;
      assert e in multiset(a);
      MakersOccur(a, key, frame, d);
    }
  }

  /** In a frame without conflicts, rearranged plans change every key in the same way. */
  lemma SameFrame(a: seq<SortedEntry>, b: seq<SortedEntry>, frame: nat, before: Settings)
    requires multiset(a) == multiset(b) && forall key :: Occurrences(a, key, frame) <= 1
    ensures ApplyEntries(before, AtFrame(SortByFrame(a), frame)) == ApplyEntries(before, AtFrame(SortByFrame(b), frame))
  {
    hide ApplyEntries, SortByFrame, AtFrame;
    SortIsStable(a, frame);
    SortIsStable(b, frame);
    var x, y := ApplyEntries(before, AtFrame(a, frame)), ApplyEntries(before, AtFrame(b, frame));
    forall key ensures Look(x, key) == Look(y, key) {
      SameChanges(a, b, key, frame);
      EntriesApply(before, AtFrame(a, frame), key);
      EntriesApply(before, AtFrame(b, frame), key);
    }
    SameLook(x, y);
  }

  lemma SameConflicts(a: seq<ProblemEntry>, b: seq<ProblemEntry>)
    requires multiset(a) == multiset(b)
    ensures multiset(Flat(a)) == multiset(Flat(b)) && (ConflictFree(Flat(a)) <==> ConflictFree(Flat(b)))
  {
    FlatPermutes(a, b);
    forall key, frame: nat ensures Occurrences(Flat(a), key, frame) == Occurrences(Flat(b), key, frame) {
      OccurrencesPermute(Flat(a), Flat(b), key, frame);
    }
  }

  /** The order of entries in a plan does not matter: rearranged plans are accepted alike, and an accepted plan
      leaves every key with the same settings after any number of ticks, with or without a cycle. */
  lemma {:induction false} OrderDoesNotMatter(a: seq<ProblemEntry>, b: seq<ProblemEntry>, cycle: Option<nat>,
                                              initial: Settings, n: nat)
    requires multiset(a) == multiset(b)
    ensures ConflictFree(Flat(a)) <==> ConflictFree(Flat(b))
    ensures ConflictFree(Flat(a)) ==>
              SettingsAfter(SortByFrame(Flat(a)), cycle, initial, n) ==
              SettingsAfter(SortByFrame(Flat(b)), cycle, initial, n)
  {
    hide ApplyEntries, Flat, SortByFrame;
    SameConflicts(a, b);
    if n > 0 && ConflictFree(Flat(a)) {
      OrderDoesNotMatter(a, b, cycle, initial, n - 1);
      SameFrame(Flat(a), Flat(b), FrameAt(n - 1, cycle), SettingsAfter(SortByFrame(Flat(a)), cycle, initial, n - 1));
    }
  }

  lemma SameLook(x: Settings, y: Settings)
    requires forall key :: Look(x, key) == Look(y, key)
    ensures x == y
  {
    forall key ensures key in x <==> key in y { assert Look(x, key) == Look(y, key); }
    forall key | key in x ensures x[key] == y[key] { assert Look(x, key) == Look(y, key); }
  }

  // ---- rounds among requests ----

  /** A round of the frame loop, or a request that changes settings or keys. */
  datatype Happening = Round | Set(key: string, problems: Problems) | Touch(key: string) |
                       Remove(key: string) | RemoveAll

  datatype Moment = Moment(settings: Settings, ticks: nat)

  function Amid(s: seq<SortedEntry>, cycle: Option<nat>, initial: Settings, happenings: seq<Happening>): Moment {
    if happenings == [] then Moment(initial, 0)
    else
      var m := Amid(s, cycle, initial, happenings[..|happenings| - 1]);
      match happenings[|happenings| - 1]
      case Round => Moment(ApplyEntries(m.settings, AtFrame(s, FrameAt(m.ticks, cycle))), m.ticks + 1)
      case Set(key, problems) => m.(settings := m.settings[key := problems])
      case Touch(key) =>
        if key in m.settings then m else m.(settings := m.settings[key := DEFAULT_PROBLEMS])
      case Remove(key) => m.(settings := m.settings - {key})
      case RemoveAll => m.(settings := map[])
  }

  /** The order of entries does not matter either when requests set problems, create keys and remove them between the
      rounds, in any way. */
  lemma {:induction false} OrderDoesNotMatterAmid(a: seq<ProblemEntry>, b: seq<ProblemEntry>, cycle: Option<nat>,
                                                  initial: Settings, happenings: seq<Happening>)
    requires multiset(a) == multiset(b) && ConflictFree(Flat(a))
    ensures Amid(SortByFrame(Flat(a)), cycle, initial, happenings) ==
            Amid(SortByFrame(Flat(b)), cycle, initial, happenings)
  {
    hide ApplyEntries, Flat, SortByFrame;
    if happenings != [] {
      var before := happenings[..|happenings| - 1];
      OrderDoesNotMatterAmid(a, b, cycle, initial, before);
      SameConflicts(a, b);
      var m := Amid(SortByFrame(Flat(a)), cycle, initial, before);
      SameFrame(Flat(a), Flat(b), FrameAt(m.ticks, cycle), m.settings);
    }
  }

  // ---- one round, in terms of the plan as written ----

  lemma {:induction false} CountIn(keys: seq<string>, key: string)
    ensures Count(keys, key) > 0 <==> key in keys
  {
    if keys != [] { CountIn(keys[1..], key); }
  }

  lemma {:induction false} FlatMembers(entries: seq<ProblemEntry>)
    ensures forall e :: e in Flat(entries) <==>
              exists p | p in entries :: e.frame in p.frames && e.keys == p.keys && e.values == p.values
  {
    if entries != [] {
      FlatMembers(entries[1..]);
      assert entries == [entries[0]] + entries[1..];
      forall e ensures e in Spread(entries[0]) <==>
          e.frame in entries[0].frames && e.keys == entries[0].keys && e.values == entries[0].values
      {
        if e.frame in entries[0].frames {
          var i :| 0 <= i < |entries[0].frames| && entries[0].frames[i] == e.frame;
          assert Spread(entries[0])[i] == SortedEntry(e.frame, entries[0].keys, entries[0].values);
        }
      }
    }
  }

  /** The settings after the round of one frame. */
  function AfterRound(before: Settings, entries: seq<ProblemEntry>, frame: nat): Settings {
    ApplyEntries(before, AtFrame(SortByFrame(Flat(entries)), frame))
  }

  /** In the round of a frame an accepted plan gives a key the values of the entry that lists frame and key, starting
      from the defaults if the key is new, and leaves the keys that no entry lists for that frame. */
  lemma RoundMeans(before: Settings, entries: seq<ProblemEntry>, frame: nat, key: string)
    requires ConflictFree(Flat(entries))
    ensures forall p | p in entries && frame in p.frames && key in p.keys ::
              key in AfterRound(before, entries, frame) &&
              AfterRound(before, entries, frame)[key] == Apply(Look(before, key).GetOr(DEFAULT_PROBLEMS), p.values)
    ensures (forall p | p in entries :: frame !in p.frames || key !in p.keys) ==>
              Look(AfterRound(before, entries, frame), key) == Look(before, key)
  {
    hide Occurrences, AtFrame, Count, Flat, ApplyEntries, SortByFrame, Apply;
    var s := Flat(entries);
    var now := AtFrame(s, frame);
    SortIsStable(s, frame);
    FlatMembers(entries);
    AtFrameMembers(s, frame);
    ChangesFacts(now, key, frame);
    OccurrencesAtFrame(s, key, frame);
    EntriesApply(before, now, key);
    assert |ChangesOf(now, key)| <= 1;
    forall p | p in entries && frame in p.frames && key in p.keys
      ensures ChangesOf(now, key) == [p.values]
    {
      var e := SortedEntry(frame, p.keys, p.values);
      CountIn(p.keys, key);
      assert e in s && e in now;
      SomebodyOccurs(s, key, frame, e);
      MakersOccur(s, key, frame, e);
      assert ChangesOf(now, key)[0] in ChangesOf(now, key);
    }
    if forall p | p in entries :: frame !in p.frames || key !in p.keys {
      NothingListed(entries, now, key, frame);
    }
    OneChange(Look(before, key), ChangesOf(now, key));
  }

  lemma NothingListed(entries: seq<ProblemEntry>, now: seq<SortedEntry>, key: string, frame: nat)
    requires forall e :: e in now ==> e.frame == frame && exists p | p in entries ::
               e.frame in p.frames && e.keys == p.keys
    requires forall p | p in entries :: frame !in p.frames || key !in p.keys
    ensures ChangesOf(now, key) == []
  {
    hide ChangesOf;
    ChangesFacts(now, key, frame);
    if ChangesOf(now, key) != [] {
      assert ChangesOf(now, key)[0] in ChangesOf(now, key);
      var e :| e in now && Count(e.keys, key) > 0;
      CountIn(e.keys, key);
    }
  }

  lemma OneChange(before: Option<Problems>, changes: seq<Change>)
    ensures changes == [] ==> ApplyAll(before, changes) == before
    ensures |changes| == 1 ==> ApplyAll(before, changes) == Some(Apply(before.GetOr(DEFAULT_PROBLEMS), changes[0]))
  {
    hide Apply;
  }

  /** Without any change a key simulates no problem, and only takes single calls it can parse. */
  lemma DefaultsAreHarmless(settings: Settings, key: string)
    requires key !in settings
    ensures var p := Amid([], None, settings, [Touch(key)]).settings;
            && key in p && p[key].timeoutChance == p[key].errorChance == p[key].malformedResponseChance == 0.0
            && p[key].skipSendingRawTransactionChance == p[key].sendTransactionButReportFailureChance == 0.0
            && p[key].minTimeoutMs == p[key].maxTimeoutMs == 0.0
            && p[key].allowOnlyParsedCalls && p[key].allowOnlySingleCalls
  {
    assert [Touch(key)][..0] == [];
  }
}
