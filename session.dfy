/** The session statistics aggregator behind `/stats`: a command log, two
    path-to-count maps, a per-turn token log with its turn counter, and two
    open/close timing intervals.  The clock is a parameter: every operation
    that reads `Instant::now` takes the current instant `now`. */
module Session {

  import opened Common
  import opened Decimal

  /** A `Duration` in nanoseconds. */
  type Duration = nat
  /** A point on the injected monotonic clock, in nanoseconds. */
  type Instant = nat
  type Path = string
  /** A `HashMap<PathBuf, u32>` of touch counts. */
  type FileCounts = map<Path, nat>

  const NanosPerMilli: nat := 1_000_000
  const NanosPerSecond: nat := 1_000_000_000

  /** One finished command; the command text is not kept (the source never reads it). */
  datatype CommandStat = CommandStat(exitCode: int, duration: Duration)
  {
    predicate IsSuccess()
    {
      exitCode == 0
    }
  }

  /** The token usage record the host reports at the end of a turn. */
  datatype TokenUsage = TokenUsage(
    inputTokens: int,
    outputTokens: int,
    reasoningOutputTokens: int,
    cachedInputTokens: int)

  /** One entry of the per-turn token log. */
  datatype TurnTokenUsage = TurnTokenUsage(
    turnNumber: nat,
    inputTokens: int,
    outputTokens: int,
    reasoningTokens: int,
    cachedTokens: int)
  {
    function Total(): int
    {
      inputTokens + outputTokens
    }
  }

  // ---------------------------------------------------------------------------
  // Reductions over the command log
  // ---------------------------------------------------------------------------

  /** Number of commands that exited with status 0. */
  function CountSuccessful(cs: seq<CommandStat>): (n: nat)
    ensures n <= |cs|
    ensures n == |cs| <==> forall i :: 0 <= i < |cs| ==> cs[i].IsSuccess()
  {
    if |cs| == 0 then 0
    else CountSuccessful(cs[..|cs| - 1]) + (if cs[|cs| - 1].IsSuccess() then 1 else 0)
  }

  /** Number of commands with a non-zero exit status: every command is either
      successful or failed, never both. */
  function CountFailed(cs: seq<CommandStat>): (n: nat)
    ensures n + CountSuccessful(cs) == |cs|
  {
    if |cs| == 0 then 0
    else CountFailed(cs[..|cs| - 1]) + (if cs[|cs| - 1].IsSuccess() then 0 else 1)
  }

  /** Sum of the recorded durations. */
  function SumDurations(cs: seq<CommandStat>): Duration
  {
    if |cs| == 0 then 0
    else SumDurations(cs[..|cs| - 1]) + cs[|cs| - 1].duration
  }

  /** Every recorded command took no time. */
  predicate TookNoTime(cs: seq<CommandStat>)
  {
    forall i :: 0 <= i < |cs| ==> cs[i].duration == 0
  }

  /** No recorded duration exceeds the sum, and the sum is zero exactly when
      every duration is zero. */
  lemma {:induction false} DurationsBoundedBySum(cs: seq<CommandStat>)
    ensures forall i :: 0 <= i < |cs| ==> cs[i].duration <= SumDurations(cs)
    ensures SumDurations(cs) == 0 <==> TookNoTime(cs)
  {
    if |cs| > 0 {
      var init := cs[..|cs| - 1];
      DurationsBoundedBySum(init);
      assert forall i :: 0 <= i < |init| ==> cs[i] == init[i];
    }
  }

  // ---------------------------------------------------------------------------
  // Reductions over the turn log
  // ---------------------------------------------------------------------------

  /** Sum of the input counts; never negative when no record is. */
  function SumInput(ts: seq<TurnTokenUsage>): (r: int)
    ensures (forall i :: 0 <= i < |ts| ==> ts[i].inputTokens >= 0) ==> r >= 0
  {
    if |ts| == 0 then 0 else SumInput(ts[..|ts| - 1]) + ts[|ts| - 1].inputTokens
  }

  /** Sum of the output counts; never negative when no record is. */
  function SumOutput(ts: seq<TurnTokenUsage>): (r: int)
    ensures (forall i :: 0 <= i < |ts| ==> ts[i].outputTokens >= 0) ==> r >= 0
  {
    if |ts| == 0 then 0 else SumOutput(ts[..|ts| - 1]) + ts[|ts| - 1].outputTokens
  }

  function SumTotals(ts: seq<TurnTokenUsage>): int
  {
    if |ts| == 0 then 0 else SumTotals(ts[..|ts| - 1]) + ts[|ts| - 1].Total()
  }

  /** Summing per-turn totals equals summing inputs and outputs separately. */
  lemma {:induction false} TokenSumsSplit(ts: seq<TurnTokenUsage>)
    ensures SumTotals(ts) == SumInput(ts) + SumOutput(ts)
  {
    if |ts| > 0 {
      TokenSumsSplit(ts[..|ts| - 1]);
    }
  }

  /** Turn tags never run ahead of the counter and never go backwards along the log. */
  ghost predicate TurnsTagged(ts: seq<TurnTokenUsage>, current: nat)
  {
    && (forall i :: 0 <= i < |ts| ==> ts[i].turnNumber <= current)
    && (forall i, j :: 0 <= i < j < |ts| ==> ts[i].turnNumber <= ts[j].turnNumber)
  }

  // ---------------------------------------------------------------------------
  // File counters
  // ---------------------------------------------------------------------------

  function CountOf(m: FileCounts, p: Path): nat
  {
    if p in m then m[p] else 0
  }

  ghost predicate CountsPositive(m: FileCounts)
  {
    forall p :: p in m ==> m[p] >= 1
  }

  /** `*map.entry(p).or_insert(0) += 1`: p's count goes up by exactly one
      (from 0 when absent) and no other path's count moves. */
  function Increment(m: FileCounts, p: Path): (r: FileCounts)
    ensures r.Keys == m.Keys + {p}
    ensures CountOf(r, p) == CountOf(m, p) + 1
    ensures forall q :: q != p ==> CountOf(r, q) == CountOf(m, q)
    ensures CountsPositive(m) ==> CountsPositive(r)
  {
    m[p := CountOf(m, p) + 1]
  }

  /** The same path recorded `n` times in a row. */
  function IncrementTimes(m: FileCounts, p: Path, n: nat): FileCounts
  {
    if n == 0 then m else Increment(IncrementTimes(m, p, n - 1), p)
  }

  /** Recording one path n > 0 times adds it once to the key set and raises its
      count by n; from an empty map the result holds one path with count n. */
  lemma {:induction false} RecordSamePathRepeatedly(m: FileCounts, p: Path, n: nat)
    requires n > 0
    ensures IncrementTimes(m, p, n).Keys == m.Keys + {p}
    ensures CountOf(IncrementTimes(m, p, n), p) == CountOf(m, p) + n
    ensures forall q :: q != p ==> CountOf(IncrementTimes(m, p, n), q) == CountOf(m, q)
    ensures m == map[] ==> |IncrementTimes(m, p, n)| == 1 && IncrementTimes(m, p, n)[p] == n
  {
    var prev := IncrementTimes(m, p, n - 1);
    if n > 1 {
      RecordSamePathRepeatedly(m, p, n - 1);
    } else {
      assert prev == m;
    }
    var r := IncrementTimes(m, p, n);
    assert r == Increment(prev, p);
    if m == map[] {
      assert m.Keys == {};
      assert r.Keys == {p};
      assert |r.Keys| == 1;
    }
  }

  // ---------------------------------------------------------------------------
  // Ranking files by count
  // ---------------------------------------------------------------------------

  type Ranked = seq<(Path, nat)>

  ghost predicate Descending(s: Ranked)
  {
    forall i, j :: 0 <= i < j < |s| ==> s[j].1 <= s[i].1
  }

  ghost predicate EntriesOf(m: FileCounts, s: Ranked)
  {
    forall i :: 0 <= i < |s| ==> s[i].0 in m && m[s[i].0] == s[i].1
  }

  ghost predicate DistinctPaths(s: Ranked)
  {
    forall i, j :: 0 <= i < j < |s| ==> s[i].0 != s[j].0
  }

  ghost function PathsOf(s: Ranked): set<Path>
  {
    set i | 0 <= i < |s| :: s[i].0
  }

  /** `s` is what `top_*_files(limit)` may return for the map `m`: min(limit, |m|)
      distinct (path, count) entries of `m`, in non-increasing count order, and
      no path left out has a larger count than one kept.  The order among equal
      counts is left open, as the source's hash order leaves it. */
  ghost predicate IsTopList(m: FileCounts, limit: nat, s: Ranked)
  {
    && |s| == Min(limit, |m|)
    && EntriesOf(m, s)
    && DistinctPaths(s)
    && Descending(s)
    && forall p :: p in m && p !in PathsOf(s) ==> forall i :: 0 <= i < |s| ==> m[p] <= s[i].1
  }

  /** Inserts `x` after every entry whose count is at least `x`'s. */
  function InsertByCount(s: Ranked, x: (Path, nat)): (r: Ranked)
    requires Descending(s)
    ensures Descending(r)
    ensures multiset(r) == multiset(s) + multiset{x}
  {
    if |s| == 0 then [x]
    else if x.1 <= s[0].1 then
      var tail := InsertByCount(s[1..], x);
      assert s == [s[0]] + s[1..];
      HeadBoundsRest(s, x, tail);
      [s[0]] + tail
    else
      [x] + s
  }

  /** The head of a descending list bounds every entry of its tail and every
      entry no larger than the head. */
  lemma HeadBoundsRest(s: Ranked, x: (Path, nat), tail: Ranked)
    requires Descending(s) && |s| > 0 && x.1 <= s[0].1
    requires multiset(tail) == multiset(s[1..]) + multiset{x}
    ensures forall k :: 0 <= k < |tail| ==> tail[k].1 <= s[0].1
  {
    forall k | 0 <= k < |tail| ensures tail[k].1 <= s[0].1 {
      assert tail[k] in multiset(tail);
      if tail[k] != x {
        assert tail[k] in multiset(s[1..]);
        var j :| 0 <= j < |s[1..]| && s[1..][j] == tail[k];
        assert s[j + 1] == tail[k];
      }
    }
  }

  /** `files.sort_by(|a, b| b.1.cmp(&a.1))`: a stable sort by descending count. */
  method SortByCountDescending(s: Ranked) returns (r: Ranked)
    ensures Descending(r)
    ensures multiset(r) == multiset(s)
  {
    r := [];
    for i := 0 to |s|
      invariant Descending(r)
      invariant multiset(r) == multiset(s[..i])
    {
      r := InsertByCount(r, s[i]);
      assert s[..i + 1] == s[..i] + [s[i]];
    }
    assert s[..|s|] == s;
  }

  lemma {:induction false} AtMostOnce(s: Ranked, x: (Path, nat))
    requires DistinctPaths(s)
    ensures multiset(s)[x] <= 1
  {
    if |s| > 0 {
      var init := s[..|s| - 1];
      assert s == init + [s[|s| - 1]];
      AtMostOnce(init, x);
      if s[|s| - 1] == x {
        assert x !in init;
      }
    }
  }

  lemma TwiceCountsTwice(s: Ranked, i: nat, j: nat)
    requires i < j < |s| && s[i] == s[j]
    ensures multiset(s)[s[i]] >= 2
  {
    assert s == s[..j] + [s[j]] + s[j + 1..];
    assert s[..j][i] == s[i];
  }

  /** Reordering the entries of a map keeps them entries, distinct, and the same paths. */
  lemma PermutedEntries(m: FileCounts, a: Ranked, b: Ranked)
    requires multiset(a) == multiset(b)
    requires EntriesOf(m, a) && DistinctPaths(a)
    ensures EntriesOf(m, b) && DistinctPaths(b) && PathsOf(a) == PathsOf(b) && |a| == |b|
  {
    assert |a| == |multiset(a)| == |multiset(b)| == |b|;
    forall i | 0 <= i < |b| ensures b[i] in a {
      assert b[i] in multiset(b);
    }
    forall i | 0 <= i < |a| ensures a[i] in b {
      assert a[i] in multiset(a);
    }
    forall i, j | 0 <= i < j < |b| ensures b[i].0 != b[j].0 {
      if b[i].0 == b[j].0 {
        assert b[i] == b[j];
        TwiceCountsTwice(b, i, j);
        AtMostOnce(a, b[i]);
        assert false;
      }
    }
  }

  /** Appending an entry of `m` for a path not yet listed keeps the listing
      distinct and adds exactly that path. */
  lemma AppendEntry(m: FileCounts, files: Ranked, p: Path)
    requires EntriesOf(m, files) && DistinctPaths(files)
    requires p in m && p !in PathsOf(files)
    ensures EntriesOf(m, files + [(p, m[p])]) && DistinctPaths(files + [(p, m[p])])
    ensures PathsOf(files + [(p, m[p])]) == PathsOf(files) + {p}
  {
    var next := files + [(p, m[p])];
    forall q ensures q in PathsOf(next) <==> q in PathsOf(files) || q == p {
      if q in PathsOf(files) {
        var i :| 0 <= i < |files| && files[i].0 == q;
        assert next[i].0 == q;
      }
      if q == p {
        assert next[|files|].0 == p;
      }
    }
    forall i | 0 <= i < |files| ensures files[i].0 != p {
      assert files[i].0 in PathsOf(files);
    }
  }

  /** Collects the entries of `m` into a sequence, in an unspecified order
      (the order of `HashMap::iter`). */
  method CollectEntries(m: FileCounts) returns (files: Ranked)
    ensures EntriesOf(m, files) && DistinctPaths(files)
    ensures PathsOf(files) == m.Keys
    ensures |files| == |m|
  {
    files := [];
    var rest := m.Keys;
    while rest != {}
      invariant EntriesOf(m, files) && DistinctPaths(files)
      invariant PathsOf(files) !! rest
      invariant m.Keys == rest + PathsOf(files)
      invariant |files| + |rest| == |m.Keys|
      decreases rest
    {
      var p :| p in rest;
      AppendEntry(m, files, p);
      files := files + [(p, m[p])];
      rest := rest - {p};
    }
  }

  /** A path missing from the first `k` entries of a descending listing of
      all of `m` has a count no larger than any of those entries. */
  lemma LeftOutBelowKept(m: FileCounts, sorted: Ranked, k: nat, p: Path)
    requires EntriesOf(m, sorted) && Descending(sorted)
    requires PathsOf(sorted) == m.Keys && k <= |sorted|
    requires p in m && p !in PathsOf(sorted[..k])
    ensures forall i :: 0 <= i < k ==> m[p] <= sorted[i].1
  {
    var j :| 0 <= j < |sorted| && sorted[j].0 == p;
    assert j >= k;
  }

  /** Truncating a descending listing of all of `m` keeps the largest counts. */
  lemma TruncatedListingIsTop(m: FileCounts, sorted: Ranked, limit: nat)
    requires EntriesOf(m, sorted) && DistinctPaths(sorted) && Descending(sorted)
    requires PathsOf(sorted) == m.Keys && |sorted| == |m|
    ensures IsTopList(m, limit, sorted[..Min(limit, |sorted|)])
  {
    var k := Min(limit, |sorted|);
    var top := sorted[..k];
    forall p | p in m && p !in PathsOf(top)
      ensures forall i :: 0 <= i < |top| ==> m[p] <= top[i].1
    {
      LeftOutBelowKept(m, sorted, k, p);
    }
  }

  /** A non-empty top list starts with a largest count of the whole map. */
  lemma TopListLeadsWithLargest(m: FileCounts, limit: nat, s: Ranked)
    requires IsTopList(m, limit, s) && |s| > 0
    ensures forall p :: p in m ==> m[p] <= s[0].1
  {
    forall p | p in m ensures m[p] <= s[0].1 {
      if p in PathsOf(s) {
        var i :| 0 <= i < |s| && s[i].0 == p;
        assert m[p] == s[i].1;
      }
    }
  }

  /** `top_accessed_files` / `top_modified_files`: collect the map's entries,
      sort them by descending count, and keep the first `limit`. */
  method TopFiles(m: FileCounts, limit: nat) returns (top: Ranked)
    ensures IsTopList(m, limit, top)
  {
    var files := CollectEntries(m);
    var sorted := SortByCountDescending(files);
    PermutedEntries(m, files, sorted);
    TruncatedListingIsTop(m, sorted, limit);
    top := sorted[..Min(limit, |sorted|)];
  }

  // ---------------------------------------------------------------------------
  // Timing
  // ---------------------------------------------------------------------------

  /** `start.elapsed()` read at `now`: saturates at zero, as `Instant::elapsed` does. */
  function Elapsed(start: Instant, now: Instant): (r: Duration)
    ensures r <= now
    ensures now >= start ==> r + start == now
    ensures now <= start ==> r == 0
  {
    if now >= start then now - start else 0
  }

  /** Closing a timing interval (`if let Some(start) = marker.take() { total += start.elapsed() }`):
      the marker is cleared; with no open interval the total is unchanged,
      otherwise it grows by the time since the interval opened. */
  function CloseInterval(total: Duration, start: Option<Instant>, now: Instant): (r: (Duration, Option<Instant>))
    ensures r.1 == None
    ensures r.0 >= total
    ensures start == None ==> r.0 == total
    ensures start.Some? && start.value <= now ==> r.0 == total + (now - start.value)
  {
    match start
    case None => (total, None)
    case Some(s) => (total + Elapsed(s, now), None)
  }

  /** Closing an interval twice in a row: the second close changes nothing. */
  lemma SecondCloseIsNoOp(total: Duration, start: Option<Instant>, now: Instant, later: Instant)
    ensures var (t, m) := CloseInterval(total, start, now);
            CloseInterval(t, m, later) == (t, m)
  {
  }

  /** `part` as a percentage of `whole`, and 0 when `whole` is zero. */
  function Percentage(part: Duration, whole: Duration): (r: real)
    ensures whole == 0 ==> r == 0.0
    ensures r >= 0.0
    ensures whole > 0 ==> r * (whole as real) == 100.0 * (part as real)
  {
    if whole == 0 then 0.0 else ((part as real) / (whole as real)) * 100.0
  }

  // ---------------------------------------------------------------------------
  // The aggregator
  // ---------------------------------------------------------------------------

  /** A part of a positive whole is at most the whole, and all of it exactly
      when it equals the whole. */
  lemma FractionOfWhole(part: real, whole: real)
    requires 0.0 <= part <= whole && whole > 0.0
    ensures 0.0 <= part / whole <= 1.0
    ensures part / whole == 1.0 <==> part == whole
    ensures (part / whole) * whole == part
  {
    var q := part / whole;
    assert q * whole == part;
    assert (q - 1.0) * whole == part - whole;
  }

  class SessionStats {
    var commands: seq<CommandStat>
    var filesModified: FileCounts
    var filesAccessed: FileCounts
    var turnTokenUsage: seq<TurnTokenUsage>
    /** Current turn number, 1-indexed once the first turn has started. */
    var currentTurn: nat
    var modelWaitTime: Duration
    var toolExecutionTime: Duration
    var modelRequestStart: Option<Instant>
    var toolExecutionStart: Option<Instant>
    const sessionStart: Instant

    ghost predicate Valid()
      reads this
    {
      && CountsPositive(filesModified)
      && CountsPositive(filesAccessed)
      && TurnsTagged(turnTokenUsage, currentTurn)
    }

    constructor (now: Instant)
      ensures Valid()
      ensures commands == [] && turnTokenUsage == [] && currentTurn == 0
      ensures filesModified == map[] && filesAccessed == map[]
      ensures modelWaitTime == 0 && toolExecutionTime == 0
      ensures modelRequestStart == None && toolExecutionStart == None
      ensures sessionStart == now
    {
      commands := [];
      filesModified := map[];
      filesAccessed := map[];
      turnTokenUsage := [];
      currentTurn := 0;
      modelWaitTime := 0;
      toolExecutionTime := 0;
      modelRequestStart := None;
      toolExecutionStart := None;
      sessionStart := now;
    }

    // Command tracking

    method RecordCommand(exitCode: int, duration: Duration)
      requires Valid()
      modifies this`commands
      ensures Valid()
      ensures commands == old(commands) + [CommandStat(exitCode, duration)]
      ensures TotalCommands() == old(TotalCommands()) + 1
      ensures SuccessfulCommands() == old(SuccessfulCommands()) + (if exitCode == 0 then 1 else 0)
      ensures FailedCommands() == old(FailedCommands()) + (if exitCode == 0 then 0 else 1)
      ensures TotalCommandTime() == old(TotalCommandTime()) + duration
    {
      commands := commands + [CommandStat(exitCode, duration)];
      assert commands[..|commands| - 1] == old(commands);
    }

    /** Every command counts once, as a success or as a failure. */
    function TotalCommands(): (r: nat)
      reads this
      ensures r == SuccessfulCommands() + FailedCommands()
    {
      |commands|
    }

    /** Commands that exited with 0: at most all of them. */
    function SuccessfulCommands(): (r: nat)
      reads this
      ensures r <= |commands|
    {
      CountSuccessful(commands)
    }

    /** Commands with a non-zero exit: the ones that are not successful. */
    function FailedCommands(): (r: nat)
      reads this
      ensures r + SuccessfulCommands() == |commands|
    {
      CountFailed(commands)
    }

    /** Percentage of successful commands; 100 for an empty log, and 100
        exactly when no command failed. */
    function SuccessRate(): (r: real)
      reads this
      ensures |commands| == 0 ==> r == 100.0
      ensures 0.0 <= r <= 100.0
      ensures r == 100.0 <==> FailedCommands() == 0
      ensures |commands| > 0 ==> r * (|commands| as real) == 100.0 * (SuccessfulCommands() as real)
    {
      if |commands| == 0 then 100.0
      else
        var s := SuccessfulCommands() as real;
        var t := |commands| as real;
        FractionOfWhole(s, t);
        (s / t) * 100.0
    }

    /** Sum of the command durations: no single duration exceeds it, and it
        is 0 exactly when every command took no time (so 0 for an empty log). */
    function TotalCommandTime(): (r: Duration)
      reads this
      ensures forall i :: 0 <= i < |commands| ==> commands[i].duration <= r
      ensures r == 0 <==> TookNoTime(commands)
    {
      DurationsBoundedBySum(commands);
      SumDurations(commands)
    }

    // File tracking

    method RecordFileModified(path: Path)
      requires Valid()
      modifies this`filesModified
      ensures Valid()
      ensures filesModified == Increment(old(filesModified), path)
      ensures FilesModifiedCount() == old(FilesModifiedCount()) + (if path in old(filesModified) then 0 else 1)
    {
      filesModified := filesModified[path := CountOf(filesModified, path) + 1];
    }

    method RecordFileAccessed(path: Path)
      requires Valid()
      modifies this`filesAccessed
      ensures Valid()
      ensures filesAccessed == Increment(old(filesAccessed), path)
      ensures FilesAccessedCount() == old(FilesAccessedCount()) + (if path in old(filesAccessed) then 0 else 1)
    {
      filesAccessed := filesAccessed[path := CountOf(filesAccessed, path) + 1];
    }

    /** The number of distinct modified paths: 0 exactly when none was recorded. */
    function FilesModifiedCount(): (r: nat)
      reads this
      ensures r == |filesModified.Keys|
      ensures r == 0 <==> filesModified == map[]
    {
      |filesModified|
    }

    /** The number of distinct accessed paths: 0 exactly when none was recorded. */
    function FilesAccessedCount(): (r: nat)
      reads this
      ensures r == |filesAccessed.Keys|
      ensures r == 0 <==> filesAccessed == map[]
    {
      |filesAccessed|
    }

    method TopAccessedFiles(limit: nat) returns (top: Ranked)
      ensures IsTopList(filesAccessed, limit, top)
    {
      top := TopFiles(filesAccessed, limit);
    }

    method TopModifiedFiles(limit: nat) returns (top: Ranked)
      ensures IsTopList(filesModified, limit, top)
    {
      top := TopFiles(filesModified, limit);
    }

    // Turn and token tracking

    method StartTurn()
      requires Valid()
      modifies this`currentTurn
      ensures Valid()
      ensures currentTurn == old(currentTurn) + 1
    {
      currentTurn := currentTurn + 1;
    }

    method RecordTurnTokens(usage: TokenUsage)
      requires Valid()
      modifies this`turnTokenUsage
      ensures Valid()
      ensures turnTokenUsage == old(turnTokenUsage) + [TurnTokenUsage(
        currentTurn, usage.inputTokens, usage.outputTokens,
        usage.reasoningOutputTokens, usage.cachedInputTokens)]
      ensures TotalInputTokens() == old(TotalInputTokens()) + usage.inputTokens
      ensures TotalOutputTokens() == old(TotalOutputTokens()) + usage.outputTokens
    {
      turnTokenUsage := turnTokenUsage + [TurnTokenUsage(
        currentTurn, usage.inputTokens, usage.outputTokens,
        usage.reasoningOutputTokens, usage.cachedInputTokens)];
      assert turnTokenUsage[..|turnTokenUsage| - 1] == old(turnTokenUsage);
    }

    /** Sum of the per-turn input counts; 0 for an empty log. */
    function TotalInputTokens(): (r: int)
      reads this
      ensures |turnTokenUsage| == 0 ==> r == 0
      ensures (forall i :: 0 <= i < |turnTokenUsage| ==> turnTokenUsage[i].inputTokens >= 0) ==> r >= 0
    {
      SumInput(turnTokenUsage)
    }

    /** Sum of the per-turn output counts; 0 for an empty log. */
    function TotalOutputTokens(): (r: int)
      reads this
      ensures |turnTokenUsage| == 0 ==> r == 0
      ensures (forall i :: 0 <= i < |turnTokenUsage| ==> turnTokenUsage[i].outputTokens >= 0) ==> r >= 0
    {
      SumOutput(turnTokenUsage)
    }

    /** Sum of the per-turn totals: the input and output sums together, 0 for an empty log. */
    function TotalTokens(): (r: int)
      reads this
      ensures r == TotalInputTokens() + TotalOutputTokens()
      ensures |turnTokenUsage| == 0 ==> r == 0
    {
      TokenSumsSplit(turnTokenUsage);
      SumTotals(turnTokenUsage)
    }

    // Timing tracking

    method StartModelRequest(now: Instant)
      requires Valid()
      modifies this`modelRequestStart
      ensures Valid()
      ensures modelRequestStart == Some(now)
    {
      modelRequestStart := Some(now);
    }

    method EndModelRequest(now: Instant)
      requires Valid()
      modifies this`modelRequestStart, this`modelWaitTime
      ensures Valid()
      ensures (modelWaitTime, modelRequestStart) == CloseInterval(old(modelWaitTime), old(modelRequestStart), now)
    {
      match modelRequestStart {
        case Some(start) =>
          modelRequestStart := None;
          modelWaitTime := modelWaitTime + Elapsed(start, now);
        case None =>
      }
    }

    method StartToolExecution(now: Instant)
      requires Valid()
      modifies this`toolExecutionStart
      ensures Valid()
      ensures toolExecutionStart == Some(now)
    {
      toolExecutionStart := Some(now);
    }

    method EndToolExecution(now: Instant)
      requires Valid()
      modifies this`toolExecutionStart, this`toolExecutionTime
      ensures Valid()
      ensures (toolExecutionTime, toolExecutionStart) == CloseInterval(old(toolExecutionTime), old(toolExecutionStart), now)
    {
      match toolExecutionStart {
        case Some(start) =>
          toolExecutionStart := None;
          toolExecutionTime := toolExecutionTime + Elapsed(start, now);
        case None =>
      }
    }

    /** Time since the session began; it never decreases as the clock advances. */
    function SessionDuration(now: Instant): (r: Duration)
      ensures now >= sessionStart ==> r + sessionStart == now
      ensures forall later: Instant ::
                later >= now ==> r <= Elapsed(sessionStart, later)
    {
      Elapsed(sessionStart, now)
    }

    /** Share of the session spent waiting for the model; 0 at the session's first instant. */
    function ModelWaitPercentage(now: Instant): (r: real)
      reads this
      ensures SessionDuration(now) == 0 ==> r == 0.0
      ensures SessionDuration(now) > 0 ==>
                r * (SessionDuration(now) as real) == 100.0 * (modelWaitTime as real)
    {
      Percentage(modelWaitTime, SessionDuration(now))
    }

    /** Share of the session spent running tools; 0 at the session's first instant. */
    function ToolExecutionPercentage(now: Instant): (r: real)
      reads this
      ensures SessionDuration(now) == 0 ==> r == 0.0
      ensures SessionDuration(now) > 0 ==>
                r * (SessionDuration(now) as real) == 100.0 * (toolExecutionTime as real)
    {
      Percentage(toolExecutionTime, SessionDuration(now))
    }
  }

  // ---------------------------------------------------------------------------
  // Duration text
  // ---------------------------------------------------------------------------

  /** `format_duration`: hours and minutes from one hour up, minutes and seconds
      from one minute up, whole seconds from one second up, else milliseconds. */
  function FormatDuration(d: Duration): string
  {
    var secs := d / NanosPerSecond;
    if secs >= 3600 then
      NatToString(secs / 3600) + "h " + NatToString((secs % 3600) / 60) + "m"
    else if secs >= 60 then
      NatToString(secs / 60) + "m " + NatToString(secs % 60) + "s"
    else if secs > 0 then
      NatToString(secs) + "s"
    else
      NatToString(d / NanosPerMilli) + "ms"
  }

  /** The four shapes of duration text, read back as numbers. */
  datatype DurationText =
    | HoursMinutes(hours: nat, minutes: nat)
    | MinutesSeconds(minutes: nat, seconds: nat)
    | Seconds(seconds: nat)
    | Millis(millis: nat)

  /** What a duration text says about the duration `d`: the coarsest unit pair
      that fits, each field truncated, with sub-second precision only below one second. */
  ghost predicate DisplayMeans(v: DurationText, d: Duration)
  {
    var secs := d / NanosPerSecond;
    match v
    case HoursMinutes(h, m) => h >= 1 && m < 60 && h * 3600 + m * 60 <= secs < h * 3600 + m * 60 + 60
    case MinutesSeconds(m, s) => 1 <= m < 60 && s < 60 && m * 60 + s == secs
    case Seconds(s) => 1 <= s < 60 && s == secs
    case Millis(ms) => secs == 0 && ms == d / NanosPerMilli
  }

  /** Reads back a text of one of the four shapes that `FormatDuration` writes. */
  function ParseDuration(s: string): Option<DurationText>
  {
    match ParseNatThen(s, "ms")
    case Some(ms) => Some(Millis(ms))
    case None =>
      match ParseNatThen(s, "s")
      case Some(sec) => Some(Seconds(sec))
      case None =>
        var k := LeadingDigits(s);
        if k == 0 || |s| < k + 2 then None
        else
          var n := DigitsValue(s[..k]);
          if s[k..k + 2] == "h " then
            match ParseNatThen(s[k + 2..], "m")
            case Some(m) => Some(HoursMinutes(n, m))
            case None => None
          else if s[k..k + 2] == "m " then
            match ParseNatThen(s[k + 2..], "s")
            case Some(sec) => Some(MinutesSeconds(n, sec))
            case None => None
          else None
  }

  /** Splits `NatToString(a) + sep + rest` where `sep` starts with a non-digit. */
  lemma SplitAfterNumber(a: nat, sep: string, rest: string)
    requires |sep| >= 1 && !IsDigit(sep[0])
    ensures var s := NatToString(a) + sep + rest;
      var k := |NatToString(a)|;
      && LeadingDigits(s) == k
      && s[..k] == NatToString(a)
      && s[k..] == sep + rest
  {
    var d := NatToString(a);
    assert d + sep + rest == d + (sep + rest);
    LeadingDigitsOfConcat(d, sep + rest);
  }

  /** `"{h}h {m}m"` reads back as hours and minutes. */
  lemma HoursMinutesReadBack(h: nat, m: nat)
    ensures ParseDuration(NatToString(h) + "h " + NatToString(m) + "m") == Some(HoursMinutes(h, m))
  {
    var s := NatToString(h) + "h " + NatToString(m) + "m";
    var k := |NatToString(h)|;
    SplitAfterNumber(h, "h ", NatToString(m) + "m");
    assert s == NatToString(h) + "h " + (NatToString(m) + "m");
    assert s[k..] == "h " + NatToString(m) + "m";
    assert ParseNatThen(s, "ms") == None;
    assert ParseNatThen(s, "s") == None;
    assert s[k..k + 2] == "h ";
    assert s[k + 2..] == NatToString(m) + "m";
    ParseNatThenOfNatToString(m, "m");
  }

  /** `"{m}m {s}s"` reads back as minutes and seconds. */
  lemma MinutesSecondsReadBack(m: nat, sec: nat)
    ensures ParseDuration(NatToString(m) + "m " + NatToString(sec) + "s") == Some(MinutesSeconds(m, sec))
  {
    var s := NatToString(m) + "m " + NatToString(sec) + "s";
    var k := |NatToString(m)|;
    SplitAfterNumber(m, "m ", NatToString(sec) + "s");
    assert s == NatToString(m) + "m " + (NatToString(sec) + "s");
    assert s[k..] == "m " + NatToString(sec) + "s";
    assert ParseNatThen(s, "ms") == None;
    assert ParseNatThen(s, "s") == None;
    assert s[k..k + 2] == "m ";
    assert s[k + 2..] == NatToString(sec) + "s";
    ParseNatThenOfNatToString(sec, "s");
  }

  /** `"{s}s"` reads back as seconds. */
  lemma SecondsReadBack(sec: nat)
    ensures ParseDuration(NatToString(sec) + "s") == Some(Seconds(sec))
  {
    var s := NatToString(sec) + "s";
    SplitAfterNumber(sec, "s", "");
    assert s == NatToString(sec) + "s" + "";
    assert ParseNatThen(s, "ms") == None;
    ParseNatThenOfNatToString(sec, "s");
  }

  /** Round trip: the text `FormatDuration` writes reads back as a value that
      describes the duration truthfully. */
  lemma FormatDurationReadsBack(d: Duration)
    ensures ParseDuration(FormatDuration(d)).Some?
    ensures DisplayMeans(ParseDuration(FormatDuration(d)).value, d)
  {
    var secs := d / NanosPerSecond;
    if secs >= 3600 {
      HoursMinutesReadBack(secs / 3600, (secs % 3600) / 60);
    } else if secs >= 60 {
      MinutesSecondsReadBack(secs / 60, secs % 60);
    } else if secs > 0 {
      SecondsReadBack(secs);
    } else {
      ParseNatThenOfNatToString(d / NanosPerMilli, "ms");
    }
  }

  /** The reference cases: 500ms, 30s, 90s and 3661s. */
  lemma FormatDurationExamples()
    ensures FormatDuration(500 * NanosPerMilli) == "500ms"
    ensures FormatDuration(30 * NanosPerSecond) == "30s"
    ensures FormatDuration(90 * NanosPerSecond) == "1m 30s"
    ensures FormatDuration(3661 * NanosPerSecond) == "1h 1m"
  {
    assert NatToString(5) == "5" && NatToString(3) == "3" && NatToString(1) == "1";
    assert NatToString(50) == "50";
    assert NatToString(500) == "500";
    assert NatToString(30) == "30";
    assert (500 * NanosPerMilli) / NanosPerSecond == 0 && (500 * NanosPerMilli) / NanosPerMilli == 500;
    assert (30 * NanosPerSecond) / NanosPerSecond == 30;
    assert (90 * NanosPerSecond) / NanosPerSecond == 90;
    assert (3661 * NanosPerSecond) / NanosPerSecond == 3661;
  }

  // ---------------------------------------------------------------------------
  // The source's unit tests, replayed on the model
  // ---------------------------------------------------------------------------

  /** The log left by recording three commands that exit 0, 0 and 1 after
      1s, 2s and 1s: two successes, one failure, 4s in all. */
  lemma ThreeCommands()
    ensures var cs := [] + [CommandStat(0, NanosPerSecond)] + [CommandStat(0, 2 * NanosPerSecond)] + [CommandStat(1, NanosPerSecond)];
            CountSuccessful(cs) == 2 && CountFailed(cs) == 1 && SumDurations(cs) == 4 * NanosPerSecond
  {
    var c1: seq<CommandStat> := [] + [CommandStat(0, NanosPerSecond)];
    var c2 := c1 + [CommandStat(0, 2 * NanosPerSecond)];
    var cs := c2 + [CommandStat(1, NanosPerSecond)];
    assert c1[..|c1| - 1] == [];
    assert CountSuccessful(c1) == 1 && CountFailed(c1) == 0 && SumDurations(c1) == NanosPerSecond;
    assert c2[..|c2| - 1] == c1;
    assert CountSuccessful(c2) == 2 && CountFailed(c2) == 0 && SumDurations(c2) == 3 * NanosPerSecond;
    assert cs[..|cs| - 1] == c2;
  }

  /** Two successes in three commands make a rate between 66% and 67%. */
  lemma TwoInThree(rate: real, total: nat, successful: nat)
    requires total == 3 && successful == 2
    requires rate * (total as real) == 100.0 * (successful as real)
    ensures 66.0 < rate < 67.0
  {
  }

  /** Three commands (exit 0, 0, 1; 1s, 2s, 1s): 3 total, 2 successful,
      1 failed, a success rate near 66.7% and 4s of command time. */
  method CommandTrackingExample() returns (total: nat, successful: nat, failed: nat, rate: real, time: Duration)
    ensures total == 3 && successful == 2 && failed == 1
    ensures 66.0 < rate < 67.0
    ensures time == 4 * NanosPerSecond
  {
    var stats := new SessionStats(0);
    stats.RecordCommand(0, 1 * NanosPerSecond);
    stats.RecordCommand(0, 2 * NanosPerSecond);
    stats.RecordCommand(1, 1 * NanosPerSecond);
    ThreeCommands();
    total := stats.TotalCommands();
    successful := stats.SuccessfulCommands();
    failed := stats.FailedCommands();
    ghost var n := |stats.commands|;
    assert n == 3 && successful == 2;
    rate := stats.SuccessRate();
    assert rate * (n as real) == 100.0 * (successful as real);
    TwoInThree(rate, n, successful);
    time := stats.TotalCommandTime();
  }

  /** Accessing a path `a` twice and another path `b` once from nothing leaves
      two paths, counted 2 and 1. */
  lemma AccessTwiceThenOnce(a: Path, b: Path)
    requires a != b
    ensures Increment(Increment(Increment(map[], a), a), b) == map[a := 2, b := 1]
    ensures |map[a := 2, b := 1]| == 2
  {
    assert Increment(map[], a) == map[a := 1];
    assert Increment(map[a := 1], a) == map[a := 2];
    assert map[a := 2, b := 1].Keys == {a, b};
  }

  /** The top-5 list of those two paths holds both, `a` first. */
  lemma TopOfTwoPaths(a: Path, b: Path, top: Ranked)
    requires a != b
    requires IsTopList(map[a := 2, b := 1], 5, top)
    ensures |top| == 2 && top[0] == (a, 2)
  {
    var m := map[a := 2, b := 1];
    AccessTwiceThenOnce(a, b);
    assert top[0].0 in m && m[top[0].0] == top[0].1;
    TopListLeadsWithLargest(m, 5, top);
    assert m[a] <= top[0].1;
  }

  /** "src/main.rs" accessed twice, "src/lib.rs" once, "src/main.rs" modified
      once: two distinct accessed paths, one modified, and the top list of
      limit 5 holds both, led by "src/main.rs" with the count 2. */
  method FileTrackingExample() returns (accessed: nat, modified: nat, top: Ranked)
    ensures accessed == 2 && modified == 1
    ensures |top| == 2 && top[0] == ("src/main.rs", 2)
  {
    var stats := new SessionStats(0);
    stats.RecordFileAccessed("src/main.rs");
    stats.RecordFileAccessed("src/main.rs");
    stats.RecordFileAccessed("src/lib.rs");
    AccessTwiceThenOnce("src/main.rs", "src/lib.rs");
    stats.RecordFileModified("src/main.rs");
    assert stats.filesModified == map["src/main.rs" := 1];
    accessed := stats.FilesAccessedCount();
    modified := stats.FilesModifiedCount();
    top := stats.TopAccessedFiles(5);
    TopOfTwoPaths("src/main.rs", "src/lib.rs", top);
  }
}
