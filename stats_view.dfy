/** The `/stats` popup: a fixed list of lines built once from a snapshot of the
    session statistics, a scroll cursor moved by keys, and a row budget that
    each render pass recomputes from the area it is given and caches for the
    key handling that follows.  Drawing into the terminal buffer is not
    modelled; `Render` returns the lines it would draw. */
module StatsPopup {

  import opened Common
  import opened Session
  import opened Scroll

  // ---------------------------------------------------------------------------
  // Display lines
  // ---------------------------------------------------------------------------

  /** The value part of a label/value line; token counts and percentages keep
      their numbers, their text formatting being outside this model. */
  datatype StatValue =
    | Count(n: nat)
    | CountWithPercent(n: nat, percent: real)
    | Time(text: string)
    | TimeWithPercent(text: string, percent: real)
    | Tokens(amount: int)

  /** One line of the popup, by kind rather than by styled spans. */
  datatype Line =
    | SectionHeader(title: string)
    | Stat(name: string, value: StatValue)
    | SubHeader(title: string)
    | FileItem(path: Path, count: nat)
    | TurnItem(turn: nat, input: int, output: int)
    | Blank

  /** The section titles, in order. */
  function SectionTitles(lines: seq<Line>): seq<string>
  {
    if |lines| == 0 then []
    else
      var last := lines[|lines| - 1];
      SectionTitles(lines[..|lines| - 1]) + (if last.SectionHeader? then [last.title] else [])
  }

  /** The label/value lines, in order. */
  function StatLines(lines: seq<Line>): seq<Line>
  {
    if |lines| == 0 then []
    else
      var last := lines[|lines| - 1];
      StatLines(lines[..|lines| - 1]) + (if last.Stat? then [last] else [])
  }

  /** The (path, count) pairs of the file items, in order. */
  function FileEntries(lines: seq<Line>): Ranked
  {
    if |lines| == 0 then []
    else
      var last := lines[|lines| - 1];
      FileEntries(lines[..|lines| - 1]) + (if last.FileItem? then [(last.path, last.count)] else [])
  }

  /** The per-turn lines, in order. */
  function TurnLines(lines: seq<Line>): seq<Line>
  {
    if |lines| == 0 then []
    else
      var last := lines[|lines| - 1];
      TurnLines(lines[..|lines| - 1]) + (if last.TurnItem? then [last] else [])
  }

  function TurnLine(t: TurnTokenUsage): Line
  {
    TurnItem(t.turnNumber, t.inputTokens, t.outputTokens)
  }

  /** One turn line per record of `ts`, in order. */
  function TurnLinesFor(ts: seq<TurnTokenUsage>): (r: seq<Line>)
    ensures |r| == |ts|
    ensures forall i :: 0 <= i < |ts| ==> r[i] == TurnLine(ts[i])
  {
    seq(|ts|, i requires 0 <= i < |ts| => TurnLine(ts[i]))
  }

  /** The lines for the last min(5, |ts|) turn records, oldest first. */
  function RecentTurnLines(ts: seq<TurnTokenUsage>): (r: seq<Line>)
    ensures |r| == Min(5, |ts|)
    ensures forall i :: 0 <= i < |r| ==> r[i] == TurnLine(ts[|ts| - |r| + i])
    ensures |ts| <= 5 ==> r == TurnLinesFor(ts)
  {
    TurnLinesFor(ts[|ts| - Min(5, |ts|)..])
  }

  /** The label/value lines of the Commands section. */
  function CommandStats(stats: SessionStats): seq<Line>
    reads stats
  {
    [ Stat("Total executed", Count(stats.TotalCommands())),
      Stat("Successful", CountWithPercent(stats.SuccessfulCommands(), stats.SuccessRate())),
      Stat("Failed", Count(stats.FailedCommands())),
      Stat("Total exec time", Time(FormatDuration(stats.TotalCommandTime()))) ]
  }

  /** The label/value lines of the Files section. */
  function FileStats(stats: SessionStats): seq<Line>
    reads stats
  {
    [ Stat("Files modified", Count(stats.FilesModifiedCount())),
      Stat("Files accessed", Count(stats.FilesAccessedCount())) ]
  }

  /** The label/value lines of the Turns & Tokens section. */
  function TurnStats(stats: SessionStats): seq<Line>
    reads stats
  {
    [ Stat("Total turns", Count(stats.currentTurn)),
      Stat("Total tokens", Tokens(stats.TotalTokens())),
      Stat("Input tokens", Tokens(stats.TotalInputTokens())),
      Stat("Output tokens", Tokens(stats.TotalOutputTokens())) ]
  }

  /** The label/value lines of the Timing section, at `now`. */
  function TimingStats(stats: SessionStats, now: Instant): seq<Line>
    reads stats
  {
    [ Stat("Session duration", Time(FormatDuration(stats.SessionDuration(now)))),
      Stat("Model wait time",
        TimeWithPercent(FormatDuration(stats.modelWaitTime), stats.ModelWaitPercentage(now))),
      Stat("Tool exec time",
        TimeWithPercent(FormatDuration(stats.toolExecutionTime), stats.ToolExecutionPercentage(now))) ]
  }

  /** The thirteen label/value lines of a snapshot taken at `now`, each
      showing the aggregator query it is named after. */
  function SnapshotStats(stats: SessionStats, now: Instant): seq<Line>
    reads stats
  {
    CommandStats(stats) + FileStats(stats) + TurnStats(stats) + TimingStats(stats, now)
  }

  /** The number of lines `build_stats_lines` writes for a snapshot with
      `accessed` distinct accessed paths and `turns` turn records. */
  function StatsLineCount(accessed: nat, turns: nat): nat
  {
    20 + (if accessed > 0 then 1 + Min(3, accessed) else 0)
       + (if turns > 0 then 1 + Min(5, turns) else 0)
  }

  /** One file item per entry of a top list, in order. */
  function FileLinesFor(files: Ranked): (r: seq<Line>)
    ensures |r| == |files|
    ensures forall i :: 0 <= i < |files| ==> r[i] == FileItem(files[i].0, files[i].1)
  {
    seq(|files|, i requires 0 <= i < |files| => FileItem(files[i].0, files[i].1))
  }

  /** `lines` with the Commands section pushed: header, the counters `xs`, blank separator. */
  function WithCommandsSection(lines: seq<Line>, xs: seq<Line>): seq<Line>
  {
    lines + [SectionHeader("Commands")] + xs + [Blank]
  }

  /** The top accessed files under their sub-header, or nothing when there are none. */
  function TopAccessedBlock(top: Ranked): seq<Line>
  {
    if |top| > 0 then [SubHeader("  Top accessed:")] + FileLinesFor(top) else []
  }

  /** `lines` with the Files section pushed: header, the counters `xs`, the
      entries of `top` under a sub-header when there are any, blank separator. */
  function WithFilesSection(lines: seq<Line>, xs: seq<Line>, top: Ranked): seq<Line>
  {
    lines + [SectionHeader("Files")] + xs + TopAccessedBlock(top) + [Blank]
  }

  /** The last five turns under their sub-header, or nothing when there are no turns. */
  function RecentTurnsBlock(ts: seq<TurnTokenUsage>): seq<Line>
  {
    if |ts| > 0 then [SubHeader("  Recent turns:")] + RecentTurnLines(ts) else []
  }

  /** `lines` with the Turns & Tokens section pushed: header, the counters
      `xs`, the last five of the turn records `ts` under a sub-header when
      there are any, blank separator. */
  function WithTurnsSection(lines: seq<Line>, xs: seq<Line>, ts: seq<TurnTokenUsage>): seq<Line>
  {
    lines + [SectionHeader("Turns & Tokens")] + xs + RecentTurnsBlock(ts) + [Blank]
  }

  /** `lines` with the Timing section pushed: header and the durations `xs`. */
  function WithTimingSection(lines: seq<Line>, xs: seq<Line>): seq<Line>
  {
    lines + [SectionHeader("Timing")] + xs
  }

  /** The four sections, from their counters, the top accessed files and the turn log. */
  function Layout(commands: seq<Line>, files: seq<Line>, top: Ranked,
                  turns: seq<Line>, ts: seq<TurnTokenUsage>, timing: seq<Line>): seq<Line>
  {
    WithTimingSection(WithTurnsSection(WithFilesSection(WithCommandsSection([], commands), files, top), turns, ts), timing)
  }

  /** The whole list for a snapshot at `now` whose top accessed files are `top`. */
  function StatsLayout(stats: SessionStats, now: Instant, top: Ranked): seq<Line>
    reads stats
  {
    Layout(CommandStats(stats), FileStats(stats), top, TurnStats(stats), stats.turnTokenUsage, TimingStats(stats, now))
  }

  /** The popup's lines are the four sections of a snapshot taken at `now`,
      with a top-3 list of the accessed files in the Files section. */
  ghost predicate DescribesSnapshot(stats: SessionStats, now: Instant, lines: seq<Line>)
    reads stats
  {
    exists top :: IsTopList(stats.filesAccessed, 3, top) && lines == StatsLayout(stats, now, top)
  }

  lemma {:induction false} TitlesOfConcat(a: seq<Line>, b: seq<Line>)
    ensures SectionTitles(a + b) == SectionTitles(a) + SectionTitles(b)
    decreases |b|
  {
    if |b| == 0 {
      assert a + b == a;
    } else {
      TitlesOfConcat(a, b[..|b| - 1]);
      assert (a + b)[..|a + b| - 1] == a + b[..|b| - 1];
    }
  }

  lemma {:induction false} StatLinesOfConcat(a: seq<Line>, b: seq<Line>)
    ensures StatLines(a + b) == StatLines(a) + StatLines(b)
    decreases |b|
  {
    if |b| == 0 {
      assert a + b == a;
    } else {
      StatLinesOfConcat(a, b[..|b| - 1]);
      assert (a + b)[..|a + b| - 1] == a + b[..|b| - 1];
    }
  }

  lemma {:induction false} FileEntriesOfConcat(a: seq<Line>, b: seq<Line>)
    ensures FileEntries(a + b) == FileEntries(a) + FileEntries(b)
    decreases |b|
  {
    if |b| == 0 {
      assert a + b == a;
    } else {
      FileEntriesOfConcat(a, b[..|b| - 1]);
      assert (a + b)[..|a + b| - 1] == a + b[..|b| - 1];
    }
  }

  lemma {:induction false} TurnLinesOfConcat(a: seq<Line>, b: seq<Line>)
    ensures TurnLines(a + b) == TurnLines(a) + TurnLines(b)
    decreases |b|
  {
    if |b| == 0 {
      assert a + b == a;
    } else {
      TurnLinesOfConcat(a, b[..|b| - 1]);
      assert (a + b)[..|a + b| - 1] == a + b[..|b| - 1];
    }
  }

  /** The projections of `a + b` are those of `a` followed by those of `b`. */
  lemma ProjectionsOfConcat(a: seq<Line>, b: seq<Line>)
    ensures SectionTitles(a + b) == SectionTitles(a) + SectionTitles(b)
    ensures StatLines(a + b) == StatLines(a) + StatLines(b)
    ensures FileEntries(a + b) == FileEntries(a) + FileEntries(b)
    ensures TurnLines(a + b) == TurnLines(a) + TurnLines(b)
  {
    TitlesOfConcat(a, b);
    StatLinesOfConcat(a, b);
    FileEntriesOfConcat(a, b);
    TurnLinesOfConcat(a, b);
  }

  /** The projections of a single line. */
  lemma OneLineProjections(x: Line)
    ensures SectionTitles([x]) == (if x.SectionHeader? then [x.title] else [])
    ensures StatLines([x]) == (if x.Stat? then [x] else [])
    ensures FileEntries([x]) == (if x.FileItem? then [(x.path, x.count)] else [])
    ensures TurnLines([x]) == (if x.TurnItem? then [x] else [])
  {
    assert [x][..0] == [];
  }

  /** Lines that are all label/value lines: their own stat projection, nothing else. */
  ghost predicate OnlyStats(xs: seq<Line>)
  {
    SectionTitles(xs) == [] && StatLines(xs) == xs && FileEntries(xs) == [] && TurnLines(xs) == []
  }

  /** A run of label/value lines is its own stat projection and adds nothing else. */
  lemma {:induction false} StatRunProjections(xs: seq<Line>)
    requires forall i :: 0 <= i < |xs| ==> xs[i].Stat?
    ensures OnlyStats(xs)
    decreases |xs|
  {
    if |xs| > 0 {
      StatRunProjections(xs[..|xs| - 1]);
      assert xs[..|xs| - 1] + [xs[|xs| - 1]] == xs;
    }
  }

  /** The file items of a top list give back its entries and nothing else. */
  lemma {:induction false} FileLinesProjections(files: Ranked)
    ensures SectionTitles(FileLinesFor(files)) == [] && StatLines(FileLinesFor(files)) == []
    ensures FileEntries(FileLinesFor(files)) == files && TurnLines(FileLinesFor(files)) == []
    decreases |files|
  {
    if |files| > 0 {
      var init := files[..|files| - 1];
      FileLinesProjections(init);
      assert FileLinesFor(files)[..|files| - 1] == FileLinesFor(init);
      assert init + [files[|files| - 1]] == files;
    }
  }

  /** The turn lines of some records give back those lines and nothing else. */
  lemma {:induction false} TurnLinesProjections(ts: seq<TurnTokenUsage>)
    ensures SectionTitles(TurnLinesFor(ts)) == [] && StatLines(TurnLinesFor(ts)) == []
    ensures FileEntries(TurnLinesFor(ts)) == [] && TurnLines(TurnLinesFor(ts)) == TurnLinesFor(ts)
    decreases |ts|
  {
    if |ts| > 0 {
      var init := ts[..|ts| - 1];
      TurnLinesProjections(init);
      assert TurnLinesFor(ts)[..|ts| - 1] == TurnLinesFor(init);
    }
  }

  /** Pushing a header and then lines that are all label/value lines adds
      one title and those lines. */
  lemma HeaderAndStatsProjections(lines: seq<Line>, title: string, xs: seq<Line>)
    requires OnlyStats(xs)
    ensures SectionTitles(lines + [SectionHeader(title)] + xs) == SectionTitles(lines) + [title]
    ensures StatLines(lines + [SectionHeader(title)] + xs) == StatLines(lines) + xs
    ensures FileEntries(lines + [SectionHeader(title)] + xs) == FileEntries(lines)
    ensures TurnLines(lines + [SectionHeader(title)] + xs) == TurnLines(lines)
  {
    var head := lines + [SectionHeader(title)];
    ProjectionsOfConcat(lines, [SectionHeader(title)]);
    OneLineProjections(SectionHeader(title));
    assert SectionTitles(head) == SectionTitles(lines) + [title];
    assert StatLines(head) == StatLines(lines);
    assert FileEntries(head) == FileEntries(lines);
    assert TurnLines(head) == TurnLines(lines);
    ProjectionsOfConcat(head, xs);
  }

  /** Pushing a header, label/value lines, a sub-list without titles or
      label/value lines, and a blank separator. */
  lemma SectionProjections(lines: seq<Line>, title: string, xs: seq<Line>, items: seq<Line>)
    requires OnlyStats(xs)
    requires SectionTitles(items) == [] && StatLines(items) == []
    ensures SectionTitles(lines + [SectionHeader(title)] + xs + items + [Blank]) == SectionTitles(lines) + [title]
    ensures StatLines(lines + [SectionHeader(title)] + xs + items + [Blank]) == StatLines(lines) + xs
    ensures FileEntries(lines + [SectionHeader(title)] + xs + items + [Blank]) == FileEntries(lines) + FileEntries(items)
    ensures TurnLines(lines + [SectionHeader(title)] + xs + items + [Blank]) == TurnLines(lines) + TurnLines(items)
  {
    var head := lines + [SectionHeader(title)] + xs;
    HeaderAndStatsProjections(lines, title, xs);
    ProjectionsOfConcat(head, items);
    assert SectionTitles(head + items) == SectionTitles(head);
    assert StatLines(head + items) == StatLines(head);
    ProjectionsOfConcat(head + items, [Blank]);
    OneLineProjections(Blank);
  }

  lemma TopAccessedBlockProjections(top: Ranked)
    ensures SectionTitles(TopAccessedBlock(top)) == [] && StatLines(TopAccessedBlock(top)) == []
    ensures FileEntries(TopAccessedBlock(top)) == top && TurnLines(TopAccessedBlock(top)) == []
  {
    if |top| > 0 {
      ProjectionsOfConcat([SubHeader("  Top accessed:")], FileLinesFor(top));
      OneLineProjections(SubHeader("  Top accessed:"));
      FileLinesProjections(top);
    }
  }

  lemma RecentTurnsBlockProjections(ts: seq<TurnTokenUsage>)
    ensures SectionTitles(RecentTurnsBlock(ts)) == [] && StatLines(RecentTurnsBlock(ts)) == []
    ensures FileEntries(RecentTurnsBlock(ts)) == [] && TurnLines(RecentTurnsBlock(ts)) == RecentTurnLines(ts)
  {
    if |ts| > 0 {
      ProjectionsOfConcat([SubHeader("  Recent turns:")], RecentTurnLines(ts));
      OneLineProjections(SubHeader("  Recent turns:"));
      TurnLinesProjections(ts[|ts| - Min(5, |ts|)..]);
    }
  }

  /** `after`'s section titles, label/value lines, file entries and turn
      lines are `before`'s followed by the given ones. */
  ghost predicate Contributes(before: seq<Line>, after: seq<Line>,
                              titles: seq<string>, stats: seq<Line>, files: Ranked, turns: seq<Line>)
  {
    && SectionTitles(after) == SectionTitles(before) + titles
    && StatLines(after) == StatLines(before) + stats
    && FileEntries(after) == FileEntries(before) + files
    && TurnLines(after) == TurnLines(before) + turns
  }

  /** Two pushes in a row contribute what the first and then the second contributes. */
  lemma ContributesChain(a: seq<Line>, b: seq<Line>, c: seq<Line>,
                         t1: seq<string>, s1: seq<Line>, f1: Ranked, u1: seq<Line>,
                         t2: seq<string>, s2: seq<Line>, f2: Ranked, u2: seq<Line>)
    requires Contributes(a, b, t1, s1, f1, u1) && Contributes(b, c, t2, s2, f2, u2)
    ensures Contributes(a, c, t1 + t2, s1 + s2, f1 + f2, u1 + u2)
  {
    assert SectionTitles(a) + t1 + t2 == SectionTitles(a) + (t1 + t2);
    assert StatLines(a) + s1 + s2 == StatLines(a) + (s1 + s2);
    assert FileEntries(a) + f1 + f2 == FileEntries(a) + (f1 + f2);
    assert TurnLines(a) + u1 + u2 == TurnLines(a) + (u1 + u2);
  }

  lemma CommandsSectionProjections(lines: seq<Line>, xs: seq<Line>)
    requires OnlyStats(xs)
    ensures Contributes(lines, WithCommandsSection(lines, xs), ["Commands"], xs, [], [])
  {
    SectionProjections(lines, "Commands", xs, []);
    assert lines + [SectionHeader("Commands")] + xs + [] == lines + [SectionHeader("Commands")] + xs;
  }

  lemma FilesSectionProjections(lines: seq<Line>, xs: seq<Line>, top: Ranked)
    requires OnlyStats(xs)
    ensures Contributes(lines, WithFilesSection(lines, xs, top), ["Files"], xs, top, [])
  {
    TopAccessedBlockProjections(top);
    SectionProjections(lines, "Files", xs, TopAccessedBlock(top));
  }

  lemma TurnsSectionProjections(lines: seq<Line>, xs: seq<Line>, ts: seq<TurnTokenUsage>)
    requires OnlyStats(xs)
    ensures Contributes(lines, WithTurnsSection(lines, xs, ts), ["Turns & Tokens"], xs, [], RecentTurnLines(ts))
  {
    RecentTurnsBlockProjections(ts);
    SectionProjections(lines, "Turns & Tokens", xs, RecentTurnsBlock(ts));
  }

  lemma TimingSectionProjections(lines: seq<Line>, xs: seq<Line>)
    requires OnlyStats(xs)
    ensures Contributes(lines, WithTimingSection(lines, xs), ["Timing"], xs, [], [])
  {
    HeaderAndStatsProjections(lines, "Timing", xs);
  }

  /** The layout has 20 lines, plus the top entries and the recent turns
      with their sub-headers when there are any. */
  lemma LayoutLength(commands: seq<Line>, files: seq<Line>, top: Ranked,
                     turns: seq<Line>, ts: seq<TurnTokenUsage>, timing: seq<Line>)
    requires |commands| == 4 && |files| == 2 && |turns| == 4 && |timing| == 3
    ensures |Layout(commands, files, top, turns, ts, timing)|
            == 20 + (if |top| > 0 then 1 + |top| else 0) + (if |ts| > 0 then 1 + Min(5, |ts|) else 0)
  {
  }

  /** Appending two pieces keeps the first `n` lines, for `n` up to `|a|`. */
  lemma KeepsPrefix2(a: seq<Line>, p: seq<Line>, q: seq<Line>, n: nat)
    requires n <= |a|
    ensures (a + p + q)[..n] == a[..n]
  {
  }

  /** Appending four pieces keeps the first `n` lines, for `n` up to `|a|`. */
  lemma KeepsPrefix4(a: seq<Line>, p: seq<Line>, q: seq<Line>, r: seq<Line>, s: seq<Line>, n: nat)
    requires n <= |a|
    ensures (a + p + q + r + s)[..n] == a[..n]
  {
    KeepsPrefix2(a, p, q, n);
    KeepsPrefix2(a + p + q, r, s, n);
  }

  /** The layout opens with the whole Commands section. */
  lemma LayoutOpensWithCommands(commands: seq<Line>, files: seq<Line>, top: Ranked,
                                turns: seq<Line>, ts: seq<TurnTokenUsage>, timing: seq<Line>)
    requires |commands| == 4
    ensures Layout(commands, files, top, turns, ts, timing)[..6] == [SectionHeader("Commands")] + commands + [Blank]
  {
    var c := WithCommandsSection([], commands);
    var f := WithFilesSection(c, files, top);
    var t := WithTurnsSection(f, turns, ts);
    assert c == [SectionHeader("Commands")] + commands + [Blank] && |c| == 6;
    KeepsPrefix4(c, [SectionHeader("Files")], files, TopAccessedBlock(top), [Blank], 6);
    KeepsPrefix4(f, [SectionHeader("Turns & Tokens")], turns, RecentTurnsBlock(ts), [Blank], 6);
    KeepsPrefix2(t, [SectionHeader("Timing")], timing, 6);
    assert c[..6] == c;
  }

  /** Section by section, the layout contributes each section's title,
      counters, top entries and recent turn lines, in order. */
  lemma LayoutContributes(commands: seq<Line>, files: seq<Line>, top: Ranked,
                          turns: seq<Line>, ts: seq<TurnTokenUsage>, timing: seq<Line>)
    requires OnlyStats(commands) && OnlyStats(files) && OnlyStats(turns) && OnlyStats(timing)
    ensures Contributes([], Layout(commands, files, top, turns, ts, timing),
                        ["Commands"] + ["Files"] + ["Turns & Tokens"] + ["Timing"],
                        commands + files + turns + timing,
                        [] + top + [] + [], [] + [] + RecentTurnLines(ts) + [])
  {
    var c := WithCommandsSection([], commands);
    var f := WithFilesSection(c, files, top);
    var t := WithTurnsSection(f, turns, ts);
    var lines := WithTimingSection(t, timing);
    CommandsSectionProjections([], commands);
    FilesSectionProjections(c, files, top);
    ContributesChain([], c, f, ["Commands"], commands, [], [], ["Files"], files, top, []);
    TurnsSectionProjections(f, turns, ts);
    ContributesChain([], f, t, ["Commands"] + ["Files"], commands + files, [] + top, [] + [],
                     ["Turns & Tokens"], turns, [], RecentTurnLines(ts));
    TimingSectionProjections(t, timing);
    ContributesChain([], t, lines, ["Commands"] + ["Files"] + ["Turns & Tokens"], commands + files + turns,
                     [] + top + [], [] + [] + RecentTurnLines(ts), ["Timing"], timing, [], []);
  }

  /** What four sections pushed onto nothing contribute is all there is. */
  lemma FourSectionsFromNothing(lines: seq<Line>, stats: seq<Line>, top: Ranked, recent: seq<Line>)
    requires Contributes([], lines, ["Commands"] + ["Files"] + ["Turns & Tokens"] + ["Timing"],
                         stats, [] + top + [] + [], [] + [] + recent + [])
    ensures SectionTitles(lines) == ["Commands", "Files", "Turns & Tokens", "Timing"]
    ensures StatLines(lines) == stats && FileEntries(lines) == top && TurnLines(lines) == recent
  {
    assert SectionTitles([]) == [] && StatLines([]) == [] && FileEntries([]) == [] && TurnLines([]) == [];
    assert [] + top + [] + [] == top;
    assert [] + [] + recent + [] == recent;
    assert ["Commands"] + ["Files"] + ["Turns & Tokens"] + ["Timing"] == ["Commands", "Files", "Turns & Tokens", "Timing"];
  }

  /** The four projections of the layout: the titles in order, the counters
      in order, the top entries and the recent turn lines. */
  lemma LayoutProjections(commands: seq<Line>, files: seq<Line>, top: Ranked,
                          turns: seq<Line>, ts: seq<TurnTokenUsage>, timing: seq<Line>)
    requires OnlyStats(commands) && OnlyStats(files) && OnlyStats(turns) && OnlyStats(timing)
    ensures SectionTitles(Layout(commands, files, top, turns, ts, timing)) == ["Commands", "Files", "Turns & Tokens", "Timing"]
    ensures StatLines(Layout(commands, files, top, turns, ts, timing)) == commands + files + turns + timing
    ensures FileEntries(Layout(commands, files, top, turns, ts, timing)) == top
    ensures TurnLines(Layout(commands, files, top, turns, ts, timing)) == RecentTurnLines(ts)
  {
    LayoutContributes(commands, files, top, turns, ts, timing);
    FourSectionsFromNothing(Layout(commands, files, top, turns, ts, timing), commands + files + turns + timing, top, RecentTurnLines(ts));
  }

  /** The Commands counters are label/value lines only. */
  lemma CommandsCountersOnlyStats(stats: SessionStats)
    ensures OnlyStats(CommandStats(stats))
  {
    StatRunProjections(CommandStats(stats));
  }

  /** The Files counters are label/value lines only. */
  lemma FilesCountersOnlyStats(stats: SessionStats)
    ensures OnlyStats(FileStats(stats))
  {
    StatRunProjections(FileStats(stats));
  }

  /** The Turns counters are label/value lines only. */
  lemma TurnsCountersOnlyStats(stats: SessionStats)
    ensures OnlyStats(TurnStats(stats))
  {
    StatRunProjections(TurnStats(stats));
  }

  /** The Timing counters are label/value lines only. */
  lemma TimingCountersOnlyStats(stats: SessionStats, now: Instant)
    ensures OnlyStats(TimingStats(stats, now))
  {
    StatRunProjections(TimingStats(stats, now));
  }

  /** How long a snapshot is, and how it opens: 20 lines plus the optional
      sub-lists, starting with the whole Commands section. */
  lemma SnapshotShape(stats: SessionStats, now: Instant, lines: seq<Line>)
    requires DescribesSnapshot(stats, now, lines)
    ensures |lines| == StatsLineCount(|stats.filesAccessed|, |stats.turnTokenUsage|)
    ensures lines[..6] == [SectionHeader("Commands")] + CommandStats(stats) + [Blank]
  {
    var top :| IsTopList(stats.filesAccessed, 3, top) && lines == StatsLayout(stats, now, top);
    var commands, files, turns, timing := CommandStats(stats), FileStats(stats), TurnStats(stats), TimingStats(stats, now);
    LayoutLength(commands, files, top, turns, stats.turnTokenUsage, timing);
    LayoutOpensWithCommands(commands, files, top, turns, stats.turnTokenUsage, timing);
  }

  /** A snapshot closes with the Timing section: its header and the three
      timing lines taken at `now`. */
  lemma SnapshotClosesWithTiming(stats: SessionStats, now: Instant, lines: seq<Line>)
    requires DescribesSnapshot(stats, now, lines)
    ensures |lines| >= 4 && lines[|lines| - 4..] == [SectionHeader("Timing")] + TimingStats(stats, now)
  {
    var top :| IsTopList(stats.filesAccessed, 3, top) && lines == StatsLayout(stats, now, top);
    var timing := TimingStats(stats, now);
    assert |timing| == 3;
    var t := WithTurnsSection(WithFilesSection(WithCommandsSection([], CommandStats(stats)), FileStats(stats), top), TurnStats(stats), stats.turnTokenUsage);
    assert lines == t + [SectionHeader("Timing")] + timing;
    ConcatAssociates(t, [SectionHeader("Timing")], timing);
  }

  /** What a snapshot's lines show: the four section titles in order, the
      thirteen label/value lines, a top-3 list of the accessed files, and the
      last five turn records oldest first. */
  lemma SnapshotProjections(stats: SessionStats, now: Instant, lines: seq<Line>)
    requires DescribesSnapshot(stats, now, lines)
    ensures SectionTitles(lines) == ["Commands", "Files", "Turns & Tokens", "Timing"]
    ensures StatLines(lines) == SnapshotStats(stats, now)
    ensures IsTopList(stats.filesAccessed, 3, FileEntries(lines))
    ensures TurnLines(lines) == RecentTurnLines(stats.turnTokenUsage)
  {
    var top :| IsTopList(stats.filesAccessed, 3, top) && lines == StatsLayout(stats, now, top);
    var commands, files, turns, timing := CommandStats(stats), FileStats(stats), TurnStats(stats), TimingStats(stats, now);
    CommandsCountersOnlyStats(stats);
    FilesCountersOnlyStats(stats);
    TurnsCountersOnlyStats(stats);
    TimingCountersOnlyStats(stats, now);
    LayoutProjections(commands, files, top, turns, stats.turnTokenUsage, timing);
  }

  /** Successive `lines.push(stat_line(..))` calls for the label/value lines `xs`. */
  method PushStats(lines: seq<Line>, xs: seq<Line>) returns (r: seq<Line>)
    ensures r == lines + xs
  {
    r := lines;
    for i := 0 to |xs|
      invariant r == lines + xs[..i]
    {
      r := r + [xs[i]];
      assert xs[..i] + [xs[i]] == xs[..i + 1];
    }
    assert xs[..|xs|] == xs;
  }

  /** The `for (path, count) in top_accessed` loop: one file line per entry. */
  method PushFiles(lines: seq<Line>, files: Ranked) returns (r: seq<Line>)
    ensures r == lines + FileLinesFor(files)
  {
    r := lines;
    for i := 0 to |files|
      invariant r == lines + FileLinesFor(files)[..i]
    {
      r := r + [FileItem(files[i].0, files[i].1)];
      assert FileLinesFor(files)[..i] + [FileItem(files[i].0, files[i].1)] == FileLinesFor(files)[..i + 1];
    }
    assert FileLinesFor(files)[..|files|] == FileLinesFor(files);
  }

  /** The `for turn in turn_breakdown.iter().rev().take(5).rev()` loop body,
      run over the records it visits: one turn line per record. */
  method PushTurns(lines: seq<Line>, ts: seq<TurnTokenUsage>) returns (r: seq<Line>)
    ensures r == lines + TurnLinesFor(ts)
  {
    r := lines;
    for i := 0 to |ts|
      invariant r == lines + TurnLinesFor(ts)[..i]
    {
      r := r + [TurnLine(ts[i])];
      assert TurnLinesFor(ts)[..i] + [TurnLine(ts[i])] == TurnLinesFor(ts)[..i + 1];
    }
    assert TurnLinesFor(ts)[..|ts|] == TurnLinesFor(ts);
  }

  /** `a + b + c` is `a + (b + c)`. */
  lemma ConcatAssociates(a: seq<Line>, b: seq<Line>, c: seq<Line>)
    ensures a + b + c == a + (b + c)
  {
  }

  /** Pushes the Commands section. */
  method PushCommandsSection(lines: seq<Line>, stats: SessionStats) returns (r: seq<Line>)
    ensures r == WithCommandsSection(lines, CommandStats(stats))
  {
    r := lines + [SectionHeader("Commands")];
    r := PushStats(r, CommandStats(stats));
    r := r + [Blank];
  }

  /** Pushes the Files section, with the top three accessed files it lists. */
  method PushFilesSection(lines: seq<Line>, stats: SessionStats) returns (r: seq<Line>, topAccessed: Ranked)
    ensures IsTopList(stats.filesAccessed, 3, topAccessed)
    ensures r == WithFilesSection(lines, FileStats(stats), topAccessed)
  {
    r := lines + [SectionHeader("Files")];
    r := PushStats(r, FileStats(stats));
    topAccessed := stats.TopAccessedFiles(3);
    if |topAccessed| > 0 {
      ghost var counters := r;
      r := r + [SubHeader("  Top accessed:")];
      r := PushFiles(r, topAccessed);
      ConcatAssociates(counters, [SubHeader("  Top accessed:")], FileLinesFor(topAccessed));
    }
    r := r + [Blank];
  }

  /** Pushes the Turns & Tokens section. */
  method PushTurnsSection(lines: seq<Line>, stats: SessionStats) returns (r: seq<Line>)
    ensures r == WithTurnsSection(lines, TurnStats(stats), stats.turnTokenUsage)
  {
    r := lines + [SectionHeader("Turns & Tokens")];
    r := PushStats(r, TurnStats(stats));
    var breakdown := stats.turnTokenUsage;
    if |breakdown| > 0 {
      ghost var counters := r;
      r := r + [SubHeader("  Recent turns:")];
      r := PushTurns(r, breakdown[|breakdown| - Min(5, |breakdown|)..]);
      ConcatAssociates(counters, [SubHeader("  Recent turns:")], RecentTurnLines(breakdown));
    }
    r := r + [Blank];
  }

  /** Pushes the Timing section. */
  method PushTimingSection(lines: seq<Line>, stats: SessionStats, now: Instant) returns (r: seq<Line>)
    ensures r == WithTimingSection(lines, TimingStats(stats, now))
  {
    r := lines + [SectionHeader("Timing")];
    r := PushStats(r, TimingStats(stats, now));
  }

  /** `build_stats_lines`: the Commands, Files, Turns & Tokens and Timing
      sections, with at most three top accessed files and the last five
      turns. */
  method BuildStatsLines(stats: SessionStats, now: Instant) returns (lines: seq<Line>)
    ensures DescribesSnapshot(stats, now, lines)
  {
    var c := PushCommandsSection([], stats);
    var f, top := PushFilesSection(c, stats);
    var t := PushTurnsSection(f, stats);
    lines := PushTimingSection(t, stats, now);
    assert IsTopList(stats.filesAccessed, 3, top) && lines == StatsLayout(stats, now, top);
  }

  // ---------------------------------------------------------------------------
  // Keys
  // ---------------------------------------------------------------------------

  /** What `on_ctrl_c` reports to the bottom pane. */
  datatype CancellationEvent = Handled | NotHandled

  datatype Modifier = Shift | Control | Alt | Super | Hyper | Meta

  /** The key codes the popup distinguishes; every other key is `Other`. */
  datatype KeyCode = Up | Down | Esc | Enter | Char(c: char) | Other

  /** A key press: its code and the set of modifiers held (empty for none). */
  datatype KeyEvent = KeyEvent(code: KeyCode, modifiers: set<Modifier>)

  /** Up with any modifiers, or a bare `k`. */
  predicate IsUpKey(k: KeyEvent)
  {
    k.code == Up || (k.code == Char('k') && k.modifiers == {})
  }

  /** Down with any modifiers, or a bare `j`. */
  predicate IsDownKey(k: KeyEvent)
  {
    k.code == Down || (k.code == Char('j') && k.modifiers == {})
  }

  /** Esc or Enter, with any modifiers. */
  predicate IsDismissKey(k: KeyEvent)
  {
    k.code == Esc || k.code == Enter
  }

  // ---------------------------------------------------------------------------
  // Geometry
  // ---------------------------------------------------------------------------

  /** The size of a screen area; its position plays no part in what is shown. */
  datatype Rect = Rect(width: nat, height: nat)

  /** The area inside the popup's padding: one footer row is taken off the
      bottom, then one row above and below and two columns either side. */
  function ContentInner(area: Rect): (r: Rect)
    ensures area.width >= 4 ==> r.width + 4 == area.width
    ensures area.height >= 3 ==> r.height + 3 == area.height
    ensures area.height <= 3 ==> r.height == 0
  {
    Rect(SatSub(area.width, 4), SatSub(SatSub(area.height, 1), 2))
  }

  /** The number of list rows a render pass shows: the popup row cap, the
      number of lines, and the height left under the header and its gap.
      It is the largest such count that fits, and 0 when nothing fits. */
  function ListHeight(maxRows: nat, len: nat, innerHeight: nat, headerHeight: nat): (r: nat)
    ensures r <= maxRows && r <= len
    ensures r == 0 || headerHeight + 1 + r <= innerHeight
    ensures r < Min(maxRows, len) ==> headerHeight + 1 + r >= innerHeight
  {
    Min(Min(maxRows, len), SatSub(innerHeight, headerHeight + 1))
  }

  /** `iter().skip(offset).take(rows)`: the lines from `offset` on, at most `rows` of them. */
  function Window(s: seq<Line>, offset: nat, rows: nat): (r: seq<Line>)
    ensures |r| == Min(rows, SatSub(|s|, offset))
    ensures forall i :: 0 <= i < |r| ==> r[i] == s[offset + i]
  {
    if offset >= |s| then [] else s[offset..offset + Min(rows, |s| - offset)]
  }

  /** The first line a render pass shows: the top of the window after
      `ensure_visible` on a copy of the cursor, or 0 when no row is shown. */
  function ScrollOffset(s: ScrollState, len: nat, rows: nat): (r: nat)
    ensures r <= SatSub(len, rows)
    ensures rows == 0 ==> r == 0
    ensures rows > 0 && s.selectedIdx.Some? && s.selectedIdx.value < len ==>
              r <= s.selectedIdx.value < r + rows
  {
    if rows == 0 then 0 else EnsureVisible(s, len, rows).scrollTop
  }

  // ---------------------------------------------------------------------------
  // Scrolling
  // ---------------------------------------------------------------------------

  /** `move_up`: nothing on an empty list, otherwise one row up with
      wrap-around and the window moved to keep the selection in `rows` rows. */
  function MovedUp(s: ScrollState, len: nat, rows: nat): (r: ScrollState)
    ensures len == 0 ==> r == s
    ensures len > 0 ==> r.selectedIdx.Some? && r.selectedIdx.value < len
    ensures len > 0 && s.selectedIdx.Some? && s.selectedIdx.value < len ==>
              r.selectedIdx.value == (s.selectedIdx.value + len - 1) % len
    ensures len > 0 ==> r.scrollTop <= SatSub(len, rows)
    ensures len > 0 && rows > 0 ==> SelectionVisible(r, rows)
  {
    if len == 0 then s else EnsureVisible(MoveUpWrap(s, len), len, rows)
  }

  /** `move_down`: nothing on an empty list, otherwise one row down with
      wrap-around and the window moved to keep the selection in `rows` rows. */
  function MovedDown(s: ScrollState, len: nat, rows: nat): (r: ScrollState)
    ensures len == 0 ==> r == s
    ensures len > 0 ==> r.selectedIdx.Some? && r.selectedIdx.value < len
    ensures len > 0 && s.selectedIdx.Some? && s.selectedIdx.value < len ==>
              r.selectedIdx.value == (s.selectedIdx.value + 1) % len
    ensures len > 0 ==> r.scrollTop <= SatSub(len, rows)
    ensures len > 0 && rows > 0 ==> SelectionVisible(r, rows)
  {
    if len == 0 then s else EnsureVisible(MoveDownWrap(s, len), len, rows)
  }

  /** Moving up then down (or down then up) returns to the same line. */
  lemma UpDownCancel(s: ScrollState, len: nat, rows: nat)
    requires s.selectedIdx.Some? && s.selectedIdx.value < len
    ensures MovedDown(MovedUp(s, len, rows), len, rows).selectedIdx == s.selectedIdx
    ensures MovedUp(MovedDown(s, len, rows), len, rows).selectedIdx == s.selectedIdx
  {
    var i := s.selectedIdx.value;
    var up := MovedUp(s, len, rows).selectedIdx.value;
    var down := MovedDown(s, len, rows).selectedIdx.value;
    if i == 0 {
      assert up == len - 1;
    } else {
      assert up == i - 1;
    }
    if i == len - 1 {
      assert down == 0;
    } else {
      assert down == i + 1;
    }
  }

  /** `len` moves down from any line come back to it: the list is a cycle. */
  lemma {:induction false} DownMovesCycle(s: ScrollState, len: nat, rows: nat, n: nat)
    requires s.selectedIdx.Some? && s.selectedIdx.value < len
    ensures DownTimes(s, len, rows, n).selectedIdx == Some((s.selectedIdx.value + n) % len)
    decreases n
  {
    if n > 0 {
      DownMovesCycle(s, len, rows, n - 1);
      var prev := DownTimes(s, len, rows, n - 1);
      var j := (s.selectedIdx.value + n - 1) % len;
      assert prev.selectedIdx == Some(j);
      assert MovedDown(prev, len, rows).selectedIdx.value == (j + 1) % len;
      ModSucc(s.selectedIdx.value + n - 1, len);
    }
  }

  /** `n` successive `move_down`s. */
  function DownTimes(s: ScrollState, len: nat, rows: nat, n: nat): ScrollState
    decreases n
  {
    if n == 0 then s else MovedDown(DownTimes(s, len, rows, n - 1), len, rows)
  }

  /** Division by `len` has one quotient and remainder. */
  lemma ModUnique(a: int, len: int, q: int, r: int)
    requires len > 0 && 0 <= r < len && a == q * len + r
    ensures a % len == r
  {
    var d := q - a / len;
    assert d * len == a % len - r;
  }

  lemma ModSucc(a: nat, len: nat)
    requires len > 0
    ensures (a % len + 1) % len == (a + 1) % len
  {
    var q, r := a / len, a % len;
    if r + 1 < len {
      ModUnique(a + 1, len, q, r + 1);
      ModUnique(r + 1, len, 0, r + 1);
    } else {
      ModUnique(a + 1, len, q + 1, 0);
      ModUnique(r + 1, len, 1, 0);
    }
  }

  // ---------------------------------------------------------------------------
  // The popup
  // ---------------------------------------------------------------------------

  /** `StatsView`: the lines of one snapshot, the scroll cursor, whether the
      popup is done, and the row budget the last render pass left for key
      handling.  The popup row cap and the header's height for a width are
      fixed when the view is made. */
  class StatsView {
    const lines: seq<Line>
    var state: ScrollState
    var complete: bool
    const maxPopupRows: nat
    const headerHeight: nat -> nat
    var lastVisibleRows: nat

    /** A non-empty list always has a line selected. */
    ghost predicate Valid()
      reads this
    {
      |lines| > 0 ==> state.selectedIdx.Some? && state.selectedIdx.value < |lines|
    }

    /** `StatsView::new`: the lines of a snapshot taken at `now`, first line
        selected, window at the top, the full row cap as budget. */
    constructor (stats: SessionStats, now: Instant, maxPopupRows: nat, headerHeight: nat -> nat)
      ensures Valid()
      ensures DescribesSnapshot(stats, now, lines)
      ensures state == ScrollState(Some(0), 0)
      ensures !complete
      ensures lastVisibleRows == maxPopupRows
      ensures this.maxPopupRows == maxPopupRows && this.headerHeight == headerHeight
    {
      var built := BuildStatsLines(stats, now);
      lines := built;
      state := NewScrollState().(selectedIdx := Some(0));
      complete := false;
      this.maxPopupRows := maxPopupRows;
      this.headerHeight := headerHeight;
      lastVisibleRows := maxPopupRows;
    }

    /** `visible_rows_for_scroll`: the cached budget, cut to the list length. */
    function VisibleRowsForScroll(): (r: nat)
      reads this
      ensures r <= |lines| && r <= lastVisibleRows
      ensures r == |lines| || r == lastVisibleRows
      ensures r == 0 <==> |lines| == 0 || lastVisibleRows == 0
    {
      if |lines| == 0 then 0 else Min(lastVisibleRows, |lines|)
    }

    method MoveUp()
      requires Valid()
      modifies this`state
      ensures Valid()
      ensures state == MovedUp(old(state), |lines|, VisibleRowsForScroll())
    {
      if |lines| == 0 {
        return;
      }
      state := EnsureVisible(MoveUpWrap(state, |lines|), |lines|, VisibleRowsForScroll());
    }

    method MoveDown()
      requires Valid()
      modifies this`state
      ensures Valid()
      ensures state == MovedDown(old(state), |lines|, VisibleRowsForScroll())
    {
      if |lines| == 0 {
        return;
      }
      state := EnsureVisible(MoveDownWrap(state, |lines|), |lines|, VisibleRowsForScroll());
    }

    /** `on_ctrl_c`: the popup is done. */
    method OnCtrlC() returns (e: CancellationEvent)
      requires Valid()
      modifies this`complete
      ensures Valid()
      ensures complete && e == Handled
    {
      complete := true;
      e := Handled;
    }

    /** `is_complete`: a plain read of the flag. */
    function IsComplete(): bool
      reads this
    {
      complete
    }

    /** `handle_key_event`: up and down keys move the cursor, Esc and Enter
        close the popup, anything else is ignored.  Nothing reopens it. */
    method HandleKeyEvent(k: KeyEvent)
      requires Valid()
      modifies this`state, this`complete
      ensures Valid()
      ensures old(complete) ==> complete
      ensures IsUpKey(k) ==> state == MovedUp(old(state), |lines|, VisibleRowsForScroll()) && complete == old(complete)
      ensures IsDownKey(k) ==> state == MovedDown(old(state), |lines|, VisibleRowsForScroll()) && complete == old(complete)
      ensures IsDismissKey(k) ==> complete && state == old(state)
      ensures !IsUpKey(k) && !IsDownKey(k) && !IsDismissKey(k) ==> state == old(state) && complete == old(complete)
    {
      if IsUpKey(k) {
        MoveUp();
      } else if IsDownKey(k) {
        MoveDown();
      } else if IsDismissKey(k) {
        var _ := OnCtrlC();
      }
    }

    /** The row count and the lines a render pass into `area` shows; with an
        empty area it shows nothing and keeps the old budget. */
    method Render(area: Rect) returns (visible: seq<Line>)
      requires Valid()
      modifies this`lastVisibleRows
      ensures Valid()
      ensures state == old(state) && complete == old(complete)
      ensures area.width == 0 || area.height == 0 ==> visible == [] && lastVisibleRows == old(lastVisibleRows)
      ensures area.width > 0 && area.height > 0 ==>
                var inner := ContentInner(area);
                lastVisibleRows == ListHeight(maxPopupRows, |lines|, inner.height, headerHeight(inner.width))
      ensures lastVisibleRows != old(lastVisibleRows) ==> lastVisibleRows <= |lines| && lastVisibleRows <= maxPopupRows
      ensures area.width > 0 && area.height > 0 ==>
                visible == Window(lines, ScrollOffset(state, |lines|, lastVisibleRows), lastVisibleRows)
      ensures area.width > 0 && area.height > 0 ==> |visible| == lastVisibleRows
      ensures area.width > 0 && area.height > 0 && lastVisibleRows > 0 ==>
                var sel := state.selectedIdx.value;
                sel >= ScrollOffset(state, |lines|, lastVisibleRows)
                && visible[sel - ScrollOffset(state, |lines|, lastVisibleRows)] == lines[sel]
    {
      if area.height == 0 || area.width == 0 {
        return [];
      }
      var inner := ContentInner(area);
      var header := headerHeight(inner.width);
      var rows := ListHeight(maxPopupRows, |lines|, inner.height, header);
      lastVisibleRows := rows;
      var offset := ScrollOffset(state, |lines|, rows);
      visible := Window(lines, offset, rows);
    }

    /** `desired_height`: the height at which the popup shows its whole list
        (up to the row cap), and the least such height. */
    function DesiredHeight(width: nat): (h: nat)
      reads this
      ensures ListHeight(maxPopupRows, |lines|, ContentInner(Rect(width, h)).height, headerHeight(SatSub(width, 4)))
              == Min(maxPopupRows, |lines|)
      ensures Min(maxPopupRows, |lines|) > 0 ==>
                ListHeight(maxPopupRows, |lines|, ContentInner(Rect(width, h - 1)).height, headerHeight(SatSub(width, 4)))
                < Min(maxPopupRows, |lines|)
      ensures h >= headerHeight(SatSub(width, 4)) + 4
      ensures Min(maxPopupRows, |lines|) == 0 ==> h == headerHeight(SatSub(width, 4)) + 4
    {
      headerHeight(SatSub(width, 4)) + 1 + Min(maxPopupRows, |lines|) + 1 + 2
    }
  }
}
