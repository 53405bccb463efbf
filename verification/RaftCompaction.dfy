/** A server that drops the front of its log behaves, as to its log, like one that keeps all
    of it, through crashes too as long as the record it restarts from was saved with the data
    of its snapshot. */
module RaftCompaction {
  import opened Collections
  import opened RaftProtocol
  import opened RaftPeer
  import opened RaftLogs
  import opened Sealing

  /** `c` holds the entries of `full` beyond its snapshot. */
  ghost predicate Compacts(c: Peer, full: Log) {
    && 0 <= c.snapshotIndex <= |full|
    && Numbered(full, 0)
    && c.logs == full[c.snapshotIndex..]
  }

  /** The same server, compacted and not. */
  ghost predicate Same(c: Peer, f: Peer) {
    && f.snapshotIndex == 0 && !f.hasSnapshot
    && Compacts(c, f.logs)
    && c.currentTerm == f.currentTerm
    && c.status == f.status
    && c.votedFor == f.votedFor
  }

  /** The term of the uncompacted log at `index`. */
  ghost function TermAt(f: Peer, index: int): int
    requires 0 <= index <= |f.logs|
  {
    if index == 0 then f.snapshotTerm else f.logs[index - 1].term
  }

  /** The compacted server remembers the term at which its snapshot ends. */
  ghost predicate TermRight(c: Peer, f: Peer)
    requires Same(c, f)
  {
    c.snapshotTerm == TermAt(f, c.snapshotIndex)
  }

  datatype LogEvent =
    | Command(command: RaftProtocol.Command)
    | Append(args: AppendEntriesArgs)
    | AskVote(request: RequestVoteArgs)
    | Snapshot(index: int, hasData: bool)
    | Crash
    | CrashIn(args: AppendEntriesArgs, k: nat)

  /** A server together with itself as it was when it last saved a record. */
  datatype Stored = Stored(peer: Peer, last: Option<Peer>)

  /** A record of this state restores its snapshot index: without data it is saved as 0. */
  predicate Recoverable(p: Peer) {
    p.hasSnapshot || p.snapshotIndex == 0
  }

  /** Appends start no earlier than the snapshot and agree with it where they meet it; a server
      asked for its vote knows the term of its last entry; snapshots are taken within the log
      and never go back; a server that crashes, between events or inside an append after its
      k-th record, left a record that restores its snapshot. */
  ghost predicate Admissible(s: Stored, f: Peer, e: LogEvent)
    requires Same(s.peer, f)
  {
    var c := s.peer;
    match e
    case Command(_) => true
    case Append(args) => AppendFits(c, f, args)
    case AskVote(_) => c.logs != [] || TermRight(c, f)
    case Snapshot(index, _) => c.snapshotIndex <= index <= c.snapshotIndex + |c.logs|
    case Crash => s.last.Some? ==> Recoverable(s.last.value)
    case CrashIn(args, k) => AppendFits(c, f, args) && k < |StatesSaved(c, args)| && Recoverable(c)
  }

  ghost predicate AppendFits(c: Peer, f: Peer, args: AppendEntriesArgs)
    requires Same(c, f)
  {
    && args.prevLogIndex >= c.snapshotIndex
    && Numbered(args.entries, args.prevLogIndex)
    && (args.prevLogIndex == c.snapshotIndex && c.snapshotIndex > 0 ==> args.prevLogTerm == f.logs[c.snapshotIndex - 1].term)
  }

  ghost function AfterHandling<R>(s: Stored, h: Handled<R>): Stored {
    Stored(h.peer, if h.saves == [] then s.last else Some(h.peer))
  }

  ghost function RestartFrom(p: Peer): Peer {
    Restart(Some(Saved(p)), p.hasSnapshot)
  }

  /** The states of which accepting saves records, in order. */
  ghost function StatesAccepting(p: Peer, args: AppendEntriesArgs): seq<Peer> {
    var cut := Truncate(p.logs, p.snapshotIndex, args.entries);
    var stages := AppendStages(cut, p.snapshotIndex, args.entries);
    (if |cut| < |p.logs| then [p.(logs := cut)] else [])
    + seq(|stages|, k requires 0 <= k < |stages| => p.(logs := stages[k]))
  }

  /** The states of which handling an append saves records, in order. */
  ghost function StatesSaved(p: Peer, args: AppendEntriesArgs): seq<Peer> {
    var p1 := StepDown(p, args.term);
    (if args.term > p.currentTerm then [p1] else [])
    + (if args.term < p1.currentTerm || Mismatch(p1, args) then [] else StatesAccepting(p1, args))
  }

  lemma RecordsAre(p: Peer, args: AppendEntriesArgs)
    ensures var saves, states := OnAppendEntries(p, args).saves, StatesSaved(p, args);
            |saves| == |states| && forall k | 0 <= k < |saves| :: saves[k] == Saved(states[k])
  {
  }

  ghost function Step(s: Stored, e: LogEvent): Stored
    requires e.Snapshot? ==> s.peer.snapshotIndex <= e.index <= s.peer.snapshotIndex + |s.peer.logs|
    requires e.CrashIn? ==> e.k < |StatesSaved(s.peer, e.args)|
  {
    match e
    case Command(command) => AfterHandling(s, HandleCommand(s.peer, command))
    case Append(args) => AfterHandling(s, OnAppendEntries(s.peer, args))
    case AskVote(request) => AfterHandling(s, HandleRequestVote(s.peer, request))
    case Snapshot(index, hasData) => s.(peer := HandleSnapshot(s.peer, index, hasData))
    case Crash => s.(peer := if s.last.None? then Restart(None, false) else RestartFrom(s.last.value))
    case CrashIn(args, k) =>
      var last := StatesSaved(s.peer, args)[k];
      Stored(RestartFrom(last), Some(last))
  }

  /** What the server that keeps everything does; a snapshot is nothing to it. */
  ghost function FullStep(f: Stored, e: LogEvent): Stored
    requires e.CrashIn? ==> e.k < |StatesSaved(f.peer, e.args)|
  {
    if e.Snapshot? then f else Step(f, e)
  }

  // ----- what is saved

  lemma {:induction false} LastStage(logs: Log, base: int, entries: Log)
    ensures var stages := AppendStages(logs, base, entries);
            AppendNew(logs, base, entries) == if stages == [] then logs else stages[|stages| - 1]
    decreases entries
  {
    if entries != [] {
      LastStage(if entries[0].index > |logs| + base then logs + [entries[0]] else logs, base, entries[1..]);
    }
  }

  /** A handler's last record is of the state it leaves; without a record it changed nothing
      that a record holds. */
  ghost predicate SavesAll<R>(p: Peer, h: Handled<R>) {
    if h.saves == [] then Saved(h.peer) == Saved(p) && h.peer.currentTerm == p.currentTerm && h.peer.logs == p.logs
    else h.saves[|h.saves| - 1] == Saved(h.peer)
  }

  lemma AcceptSavesAll(p: Peer, args: AppendEntriesArgs)
    ensures SavesAll(p, Accept(p, args))
  {
    var cut := Truncate(p.logs, p.snapshotIndex, args.entries);
    LastStage(cut, p.snapshotIndex, args.entries);
    CutIsPrefix(p.logs, p.snapshotIndex, args.entries);
    if |cut| == |p.logs| { assert cut == p.logs; }
  }

  lemma HandleSavesAll(p: Peer, args: AppendEntriesArgs)
    ensures SavesAll(p, HandleAppendEntries(p, args))
  {
    var p1 := StepDown(p, args.term);
    if args.term >= p1.currentTerm && !Mismatch(p1, args) {
      AcceptSavesAll(p1, args);
      assert HandleAppendEntries(p, args).peer == Accept(p1, args).peer;
    }
  }

  /** So the record on disk is the one of `last`. */
  lemma EventsSaveAll(p: Peer, args: AppendEntriesArgs, command: RaftProtocol.Command, request: RequestVoteArgs)
    ensures SavesAll(p, OnAppendEntries(p, args)) && SavesAll(p, HandleCommand(p, command)) && SavesAll(p, HandleRequestVote(p, request))
  {
    HandleSavesAll(p, args);
    assert Saved(OnAppendEntries(p, args).peer) == Saved(HandleAppendEntries(p, args).peer);
  }

  lemma {:induction false} TruncateCompacts(full: Log, base: nat, entries: Log, from: int)
    requires base <= |full| && base <= from && Numbered(entries, from)
    ensures base <= |Truncate(full, 0, entries)|
    ensures Truncate(full[base..], base, entries) == Truncate(full, 0, entries)[base..]
    decreases entries
  {
    if entries != [] {
      var i := entries[0].index - 1;
      assert entries[0].index == from + 1;
      if i < |full| && full[i].term == entries[0].term {
        forall k | 0 <= k < |entries[1..]| ensures entries[1..][k].index == from + 1 + 1 + k {
          assert entries[1..][k] == entries[k + 1];
        }
        TruncateCompacts(full, base, entries[1..], from + 1);
      } else if i < |full| {
        assert full[base..][..i - base] == full[..i][base..];
      }
    }
  }

  lemma {:induction false} AppendCompacts(full: Log, base: nat, entries: Log)
    requires base <= |full|
    ensures base <= |AppendNew(full, 0, entries)|
    ensures AppendNew(full[base..], base, entries) == AppendNew(full, 0, entries)[base..]
    decreases entries
  {
    if entries != [] {
      if entries[0].index > |full| {
        assert full[base..] + [entries[0]] == (full + [entries[0]])[base..];
        AppendCompacts(full + [entries[0]], base, entries[1..]);
      } else {
        AppendCompacts(full, base, entries[1..]);
      }
    }
  }

  lemma {:induction false} AppendNumbered(log: Log, entries: Log, from: int)
    requires Numbered(log, 0) && Numbered(entries, from) && 0 <= from <= |log|
    ensures Numbered(AppendNew(log, 0, entries), 0)
    decreases entries
  {
    if entries != [] {
      assert entries[0].index == from + 1;
      forall k | 0 <= k < |entries[1..]| ensures entries[1..][k].index == from + 1 + 1 + k {
        assert entries[1..][k] == entries[k + 1];
      }
      if entries[0].index > |log| {
        AppendNumbered(log + [entries[0]], entries[1..], from + 1);
      } else {
        AppendNumbered(log, entries[1..], from + 1);
      }
    }
  }

  lemma {:induction false} TruncateKeeps(log: Log, entries: Log, from: int)
    requires Numbered(entries, from) && 0 <= from <= |log|
    ensures Truncate(log, 0, entries) <= log && from <= |Truncate(log, 0, entries)|
    decreases entries
  {
    if entries != [] {
      assert entries[0].index == from + 1;
      if from < |log| && log[from].term == entries[0].term {
        forall k | 0 <= k < |entries[1..]| ensures entries[1..][k].index == from + 1 + 1 + k {
          assert entries[1..][k] == entries[k + 1];
        }
        TruncateKeeps(log, entries[1..], from + 1);
      }
    }
  }

  lemma AcceptSame(c: Peer, f: Peer, args: AppendEntriesArgs)
    requires Same(c, f) && c.snapshotIndex <= args.prevLogIndex <= |f.logs| && Numbered(args.entries, args.prevLogIndex)
    ensures Same(Accept(c, args).peer, Accept(f, args).peer)
  {
    var base, prev := c.snapshotIndex, args.prevLogIndex;
    var cut := Truncate(f.logs, 0, args.entries);
    TruncateCompacts(f.logs, base, args.entries, prev);
    TruncateKeeps(f.logs, args.entries, prev);
    AppendCompacts(cut, base, args.entries);
    AppendNumbered(cut, args.entries, prev);
  }

  lemma MismatchSame(c: Peer, f: Peer, args: AppendEntriesArgs)
    requires Same(c, f) && AppendFits(c, f, args)
    ensures Mismatch(c, args) <==> Mismatch(f, args)
    ensures !Mismatch(c, args) ==> args.prevLogIndex <= |f.logs|
  {
  }

  /** What an append makes of the status. */
  ghost function StatusAfter(p: Peer, args: AppendEntriesArgs): Status {
    var p1 := StepDown(p, args.term);
    if p.status == Candidate && args.term >= p1.currentTerm then Follower else p1.status
  }

  ghost predicate Accepts(p: Peer, args: AppendEntriesArgs) {
    args.term >= p.currentTerm && !Mismatch(p, args)
  }

  lemma AppendCases(p: Peer, args: AppendEntriesArgs)
    ensures var h, p1 := OnAppendEntries(p, args), StepDown(p, args.term);
            if Accepts(p1, args)
            then h.peer == Accept(p1, args).peer.(status := StatusAfter(p, args)) && h.saves == StepDownSaves(p, args.term) + Accept(p1, args).saves
            else h.peer == p1.(status := StatusAfter(p, args)) && h.saves == StepDownSaves(p, args.term)
  {
  }

  /** Both accept or both reject, and their logs stay the same. */
  lemma AppendSame(c: Peer, f: Peer, args: AppendEntriesArgs)
    requires Same(c, f) && AppendFits(c, f, args)
    ensures Same(OnAppendEntries(c, args).peer, OnAppendEntries(f, args).peer)
  {
    var c1, f1 := StepDown(c, args.term), StepDown(f, args.term);
    AppendCases(c, args);
    AppendCases(f, args);
    assert Same(c1, f1);
    MismatchSame(c1, f1, args);
    if Accepts(c1, args) { AcceptSame(c1, f1, args); }
  }

  lemma CommandSame(c: Peer, f: Peer, command: RaftProtocol.Command)
    requires Same(c, f)
    ensures Same(HandleCommand(c, command).peer, HandleCommand(f, command).peer)
  {
    assert (f.logs + [LogEntry(f.currentTerm, |f.logs| + 1, command)])[c.snapshotIndex..] ==
           c.logs + [LogEntry(c.currentTerm, |c.logs| + c.snapshotIndex + 1, command)];
  }

  // ----- crashes

  lemma {:induction false} StagesCompact(full: Log, base: nat, entries: Log)
    requires base <= |full|
    ensures var a, b := AppendStages(full[base..], base, entries), AppendStages(full, 0, entries);
            && |a| == |b|
            && forall k | 0 <= k < |a| :: base <= |b[k]| && a[k] == b[k][base..]
    decreases entries
  {
    if entries != [] {
      if entries[0].index > |full| {
        assert full[base..] + [entries[0]] == (full + [entries[0]])[base..];
        StagesCompact(full + [entries[0]], base, entries[1..]);
      } else {
        StagesCompact(full, base, entries[1..]);
      }
    }
  }

  lemma {:induction false} StagesNumbered(log: Log, entries: Log, from: int, k: nat)
    requires Numbered(log, 0) && Numbered(entries, from) && 0 <= from <= |log| && k < |AppendStages(log, 0, entries)|
    ensures Numbered(AppendStages(log, 0, entries)[k], 0)
    decreases entries
  {
    assert entries[0].index == from + 1;
    forall j | 0 <= j < |entries[1..]| ensures entries[1..][j].index == from + 1 + 1 + j {
      assert entries[1..][j] == entries[j + 1];
    }
    if entries[0].index > |log| {
      if k > 0 { StagesNumbered(log + [entries[0]], entries[1..], from + 1, k - 1); }
    } else {
      StagesNumbered(log, entries[1..], from + 1, k);
    }
  }

  /** What the compacted server was when it saved a record, and what the full one was. */
  ghost predicate SameRecord(a: Peer, b: Peer) {
    && b.snapshotIndex == 0 && !b.hasSnapshot
    && Compacts(a, b.logs) && a.currentTerm == b.currentTerm && a.votedFor == b.votedFor
  }

  /** Record by record, what is saved while accepting is the same log, compacted and not. */
  lemma AcceptingCompact(c: Peer, f: Peer, args: AppendEntriesArgs)
    requires Same(c, f) && c.snapshotIndex <= args.prevLogIndex <= |f.logs| && Numbered(args.entries, args.prevLogIndex)
    ensures var a, b := StatesAccepting(c, args), StatesAccepting(f, args);
            && |a| == |b|
            && forall k | 0 <= k < |a| :: SameRecord(a[k], b[k])
  {
    var base, prev, cut := c.snapshotIndex, args.prevLogIndex, Truncate(f.logs, 0, args.entries);
    TruncateCompacts(f.logs, base, args.entries, prev);
    TruncateKeeps(f.logs, args.entries, prev);
    StagesCompact(cut, base, args.entries);
    forall k: nat | k < |AppendStages(cut, 0, args.entries)| ensures Numbered(AppendStages(cut, 0, args.entries)[k], 0) {
      StagesNumbered(cut, args.entries, prev, k);
    }
  }

  lemma SavedCompact(c: Peer, f: Peer, args: AppendEntriesArgs)
    requires Same(c, f) && AppendFits(c, f, args)
    ensures var a, b := StatesSaved(c, args), StatesSaved(f, args);
            && |a| == |b|
            && forall k | 0 <= k < |a| :: SameRecord(a[k], b[k])
  {
    var c1, f1 := StepDown(c, args.term), StepDown(f, args.term);
    assert Same(c1, f1);
    MismatchSame(c1, f1, args);
    if args.term >= c1.currentTerm && !Mismatch(c1, args) { AcceptingCompact(c1, f1, args); }
  }

  ghost predicate SameSnapshot(p: Peer, p': Peer) {
    p'.snapshotIndex == p.snapshotIndex && p'.snapshotTerm == p.snapshotTerm && p'.hasSnapshot == p.hasSnapshot
  }

  /** An append leaves the snapshot as it is, in every record. */
  lemma SavedSnapshot(p: Peer, args: AppendEntriesArgs, k: nat)
    requires k < |StatesSaved(p, args)|
    ensures SameSnapshot(p, StatesSaved(p, args)[k])
  {
  }

  /** What is on disk is the same log, as compacted when it was saved, and what a record holds
      has not changed since. */
  ghost predicate Kept(s: Stored, f: Stored) {
    && Same(s.peer, f.peer)
    && (s.last.None? <==> f.last.None?)
    && match f.last
       case None => f.peer.logs == [] && f.peer.currentTerm == 0 && f.peer.votedFor == -1
       case Some(q) => SameRecord(s.last.value, q) && OnRecord(f.peer, q)
  }

  ghost predicate OnRecord(f: Peer, q: Peer) {
    f.logs == q.logs && f.currentTerm == q.currentTerm && f.votedFor == q.votedFor
  }

  /** A record restores the log exactly when it was saved with the snapshot's data, or before
      any snapshot. */
  lemma RecordRestores(c: Peer, full: Log)
    requires Compacts(c, full)
    ensures Compacts(RestartFrom(c), full) <==> Recoverable(c)
  {
  }

  lemma RestartsSame(a: Peer, b: Peer)
    requires SameRecord(a, b)
    ensures Same(RestartFrom(a), RestartFrom(b)) <==> Recoverable(a)
  {
    RecordRestores(a, b.logs);
  }

  /** And so a crash leaves the compacting server with the uncompacted one's log exactly when
      its last record does. */
  lemma CrashExact(s: Stored, f: Stored)
    requires Kept(s, f)
    ensures Same(Step(s, Crash).peer, FullStep(f, Crash).peer) <==> (s.last.Some? ==> Recoverable(s.last.value))
  {
    if s.last.Some? { RestartsSame(s.last.value, f.last.value); }
  }

  /** Inside an append, after any of its records: exactly when the snapshot came with data. */
  lemma CrashInExact(s: Stored, f: Stored, args: AppendEntriesArgs, k: nat)
    requires Kept(s, f) && AppendFits(s.peer, f.peer, args) && k < |StatesSaved(s.peer, args)|
    ensures k < |StatesSaved(f.peer, args)|
    ensures Same(Step(s, CrashIn(args, k)).peer, FullStep(f, CrashIn(args, k)).peer) <==> Recoverable(s.peer)
    ensures Recoverable(s.peer) ==> Kept(Step(s, CrashIn(args, k)), FullStep(f, CrashIn(args, k)))
  {
    SavedCompact(s.peer, f.peer, args);
    SavedSnapshot(s.peer, args, k);
    RestartsSame(StatesSaved(s.peer, args)[k], StatesSaved(f.peer, args)[k]);
  }

  /** Snapshots that come with data never leave a record that does not restore. */
  lemma DataIsRecoverable(s: Stored, f: Stored, e: LogEvent)
    requires Kept(s, f) && Admissible(s, f.peer, e) && Recoverable(s.peer) && (s.last.Some? ==> Recoverable(s.last.value))
    requires e.Snapshot? ==> e.hasData
    ensures var s' := Step(s, e); Recoverable(s'.peer) && (s'.last.Some? ==> Recoverable(s'.last.value))
  {
    if e.CrashIn? { SavedSnapshot(s.peer, e.args, e.k); }
  }

  /** With nothing saved, the uncompacted server's log stays as well. */
  lemma UnsavedAccept(c: Peer, f: Peer, args: AppendEntriesArgs)
    requires Same(c, f) && c.snapshotIndex <= args.prevLogIndex <= |f.logs| && Numbered(args.entries, args.prevLogIndex)
    requires Accept(c, args).saves == []
    ensures Accept(f, args).peer.logs == f.logs
  {
    var base := c.snapshotIndex;
    AcceptSavesAll(c, args);
    AcceptSame(c, f, args);
    var cut, log' := Truncate(f.logs, 0, args.entries), Accept(f, args).peer.logs;
    CutIsPrefix(c.logs, base, args.entries);
    CutStays(c, f, args);
    AppendExtends(cut, 0, args.entries);
    assert |log'[base..]| == |f.logs[base..]|;
  }

  lemma CutStays(c: Peer, f: Peer, args: AppendEntriesArgs)
    requires Same(c, f) && c.snapshotIndex <= args.prevLogIndex <= |f.logs| && Numbered(args.entries, args.prevLogIndex)
    requires |Truncate(c.logs, c.snapshotIndex, args.entries)| == |c.logs|
    ensures Truncate(f.logs, 0, args.entries) == f.logs
  {
    TruncateCompacts(f.logs, c.snapshotIndex, args.entries, args.prevLogIndex);
    TruncateKeeps(f.logs, args.entries, args.prevLogIndex);
  }

  lemma UnsavedAppend(c: Peer, f: Peer, args: AppendEntriesArgs)
    requires Same(c, f) && AppendFits(c, f, args) && OnAppendEntries(c, args).saves == []
    ensures OnRecord(OnAppendEntries(f, args).peer, f)
  {
    AppendCases(c, args);
    AppendCases(f, args);
    MismatchSame(c, f, args);
    if Accepts(f, args) { UnsavedAccept(c, f, args); }
  }

  lemma {:induction false} AppendExtends(logs: Log, base: int, entries: Log)
    ensures logs <= AppendNew(logs, base, entries)
    decreases entries
  {
    if entries != [] {
      AppendExtends(if entries[0].index > |logs| + base then logs + [entries[0]] else logs, base, entries[1..]);
    }
  }

  /** Both save records, or neither does. */
  lemma BothSave(c: Peer, f: Peer, args: AppendEntriesArgs)
    requires Same(c, f) && AppendFits(c, f, args)
    ensures OnAppendEntries(c, args).saves == [] <==> OnAppendEntries(f, args).saves == []
  {
    SavedCompact(c, f, args);
    RecordsAre(c, args);
    RecordsAre(f, args);
  }

  lemma AppendKept(s: Stored, f: Stored, args: AppendEntriesArgs)
    requires Kept(s, f) && AppendFits(s.peer, f.peer, args)
    ensures Kept(Step(s, Append(args)), FullStep(f, Append(args)))
  {
    AppendSame(s.peer, f.peer, args);
    BothSave(s.peer, f.peer, args);
    if OnAppendEntries(s.peer, args).saves == [] { UnsavedAppend(s.peer, f.peer, args); }
  }

  // ----- votes

  /** Both logs end at the same index, and at the same term exactly when the compacted one is
      not empty or remembers it. */
  lemma EndsSame(c: Peer, f: Peer)
    requires Same(c, f)
    ensures LastLogIndex(c) == LastLogIndex(f)
    ensures LastLogTerm(c) == LastLogTerm(f) <==> c.logs != [] || TermRight(c, f)
  {
  }

  lemma VoteSame(c: Peer, f: Peer, request: RequestVoteArgs)
    requires Same(c, f) && (c.logs != [] || TermRight(c, f))
    ensures var a, b := HandleRequestVote(c, request), HandleRequestVote(f, request);
            && a.reply == b.reply && Same(a.peer, b.peer) && |a.saves| == |b.saves|
            && (b.saves == [] ==> OnRecord(b.peer, f))
  {
    EndsSame(c, f);
    var c1, f1 := StepDown(c, request.term), StepDown(f, request.term);
    assert AtLeastAsUpToDate(request, c1) == AtLeastAsUpToDate(request, f1);
  }

  /** All requests are answered alike if and only if the compacted log is not empty or its
      server remembers the term at which the snapshot ends. */
  lemma VotesAlikeIff(c: Peer, f: Peer)
    requires Same(c, f)
    ensures (forall request :: HandleRequestVote(c, request).reply == HandleRequestVote(f, request).reply)
            <==> c.logs != [] || TermRight(c, f)
  {
    if c.logs != [] || TermRight(c, f) {
      forall request ensures HandleRequestVote(c, request).reply == HandleRequestVote(f, request).reply {
        VoteSame(c, f, request);
      }
    } else {
      EndsSame(c, f);
      var lower := Min(LastLogTerm(c), LastLogTerm(f));
      var request := RequestVoteArgs(c.currentTerm + 1, 0, LastLogIndex(c), lower);
      assert HandleRequestVote(c, request).reply != HandleRequestVote(f, request).reply;
    }
  }

  lemma SnapshotSame(c: Peer, f: Peer, index: int, hasData: bool)
    requires Same(c, f) && c.snapshotIndex <= index <= c.snapshotIndex + |c.logs|
    ensures Same(HandleSnapshot(c, index, hasData), f)
  {
    assert f.logs[c.snapshotIndex..][index - c.snapshotIndex..] == f.logs[index..];
  }

  /** A snapshot remembers the term at its index exactly when it goes beyond the last one; at
      the same index -1 is remembered, whatever the term. */
  lemma SnapshotTermIff(c: Peer, f: Peer, index: int, hasData: bool)
    requires Same(c, f) && c.snapshotIndex <= index <= c.snapshotIndex + |c.logs|
    ensures Same(HandleSnapshot(c, index, hasData), f)
    ensures TermRight(HandleSnapshot(c, index, hasData), f) <==> index > c.snapshotIndex || TermAt(f, index) == -1
  {
    SnapshotSame(c, f, index, hasData);
  }

  lemma StepSame(s: Stored, f: Stored, e: LogEvent)
    requires Kept(s, f) && Admissible(s, f.peer, e)
    ensures e.CrashIn? ==> e.k < |StatesSaved(f.peer, e.args)|
    ensures Kept(Step(s, e), FullStep(f, e))
  {
    match e
    case Command(command) => CommandSame(s.peer, f.peer, command);
    case Append(args) => AppendKept(s, f, args);
    case AskVote(request) => VoteSame(s.peer, f.peer, request);
    case Snapshot(index, hasData) => SnapshotSame(s.peer, f.peer, index, hasData);
    case Crash => CrashExact(s, f);
    case CrashIn(args, k) => CrashInExact(s, f, args, k);
  }

  // ----- the commit index

  /** From the same commit index an accepted append leads to the same one, except where the
      compacted server keeps no entry: it then follows the leader's commit index, while the
      uncompacted one stops at the end of what the snapshot covers. */
  lemma CommitAlikeIff(c: Peer, f: Peer, args: AppendEntriesArgs)
    requires Same(c, f) && c.snapshotIndex <= args.prevLogIndex <= |f.logs| && Numbered(args.entries, args.prevLogIndex)
    requires c.commitIndex == f.commitIndex >= 0 && args.leaderCommit <= MAX_INT
    ensures Accept(c, args).peer.commitIndex == Accept(f, args).peer.commitIndex <==>
            || Truncate(c.logs, c.snapshotIndex, args.entries) != []
            || c.snapshotIndex == 0
            || args.leaderCommit <= Max(c.commitIndex, c.snapshotIndex)
  {
    var base, cut := c.snapshotIndex, Truncate(f.logs, 0, args.entries);
    TruncateCompacts(f.logs, base, args.entries, args.prevLogIndex);
    TruncateKeeps(f.logs, args.entries, args.prevLogIndex);
    if cut != [] { assert cut[|cut| - 1] == f.logs[|cut| - 1]; }
    if |cut| > base { assert cut[base..][|cut| - base - 1] == cut[|cut| - 1]; }
  }

  // ----- the term of the snapshot

  /** Every snapshot in memory or on record goes with its term. */
  ghost predicate TermsRight(s: Stored, f: Stored)
    requires Kept(s, f)
  {
    && TermRight(s.peer, f.peer) && (s.peer.hasSnapshot ==> s.peer.snapshotIndex > 0)
    && (s.last.Some? && s.last.value.hasSnapshot ==> RecordRight(s.last.value, f.last.value))
  }

  ghost predicate RecordRight(a: Peer, b: Peer)
    requires SameRecord(a, b)
  {
    a.snapshotIndex > 0 && a.snapshotTerm == b.logs[a.snapshotIndex - 1].term
  }

  lemma RestartRight(a: Peer, b: Peer)
    requires SameRecord(a, b) && Recoverable(a) && (a.hasSnapshot ==> RecordRight(a, b))
    ensures Same(RestartFrom(a), RestartFrom(b)) && TermRight(RestartFrom(a), RestartFrom(b))
  {
    RestartsSame(a, b);
  }

  /** An append leaves alone what the snapshot covers. */
  lemma CoveredStays(c: Peer, f: Peer, args: AppendEntriesArgs)
    requires Same(c, f) && AppendFits(c, f, args)
    ensures var log' := OnAppendEntries(f, args).peer.logs;
            c.snapshotIndex <= |log'| && log'[..c.snapshotIndex] == f.logs[..c.snapshotIndex]
  {
    AppendCases(f, args);
    var f1 := StepDown(f, args.term);
    if Accepts(f1, args) {
      MismatchSame(c, f, args);
      TruncateKeeps(f.logs, args.entries, args.prevLogIndex);
      AppendExtends(Truncate(f.logs, 0, args.entries), 0, args.entries);
    }
  }

  /** The terms stay right where snapshots and the entries they cover stay. */
  lemma TermKept(c: Peer, f: Peer, c': Peer, f': Peer)
    requires Same(c, f) && Same(c', f') && SameSnapshot(c, c') && SameSnapshot(f, f') && c.snapshotIndex <= |f'.logs|
    requires f'.logs[..c.snapshotIndex] == f.logs[..c.snapshotIndex] && TermRight(c, f)
    ensures TermRight(c', f') && (c.snapshotIndex > 0 ==> RecordRight(c', f'))
  {
    var base := c.snapshotIndex;
    if base > 0 { assert f'.logs[..base][base - 1] == f.logs[..base][base - 1]; }
  }

  /** A handler that saves leaves a record of the new state, one that does not leaves the old. */
  lemma HandledTerms(s: Stored, f: Stored, s': Stored, f': Stored, saved: bool)
    requires Kept(s, f) && TermsRight(s, f) && Kept(s', f') && SameSnapshot(s.peer, s'.peer)
    requires TermRight(s'.peer, f'.peer) && (s.peer.snapshotIndex > 0 ==> RecordRight(s'.peer, f'.peer))
    requires if saved then s'.last == Some(s'.peer) && f'.last == Some(f'.peer) else s'.last == s.last && f'.last == f.last
    ensures TermsRight(s', f')
  {
  }

  lemma AppendTerms(s: Stored, f: Stored, args: AppendEntriesArgs)
    requires Kept(s, f) && AppendFits(s.peer, f.peer, args) && TermsRight(s, f)
    ensures Kept(Step(s, Append(args)), FullStep(f, Append(args))) && TermsRight(Step(s, Append(args)), FullStep(f, Append(args)))
  {
    var s', f' := Step(s, Append(args)), FullStep(f, Append(args));
    AppendKept(s, f, args);
    AppendSnapshot(s.peer, args);
    AppendSnapshot(f.peer, args);
    CoveredStays(s.peer, f.peer, args);
    BothSave(s.peer, f.peer, args);
    TermKept(s.peer, f.peer, s'.peer, f'.peer);
    HandledTerms(s, f, s', f', OnAppendEntries(s.peer, args).saves != []);
  }

  lemma AppendSnapshot(p: Peer, args: AppendEntriesArgs)
    ensures SameSnapshot(p, OnAppendEntries(p, args).peer)
  {
    AppendCases(p, args);
  }

  lemma VoteTerms(s: Stored, f: Stored, request: RequestVoteArgs)
    requires Kept(s, f) && TermsRight(s, f)
    ensures Kept(Step(s, AskVote(request)), FullStep(f, AskVote(request))) && TermsRight(Step(s, AskVote(request)), FullStep(f, AskVote(request)))
  {
    var s', f' := Step(s, AskVote(request)), FullStep(f, AskVote(request));
    StepSame(s, f, AskVote(request));
    VoteSame(s.peer, f.peer, request);
    TermKept(s.peer, f.peer, s'.peer, f'.peer);
    HandledTerms(s, f, s', f', HandleRequestVote(s.peer, request).saves != []);
  }

  lemma CommandTerms(s: Stored, f: Stored, command: RaftProtocol.Command)
    requires Kept(s, f) && TermsRight(s, f)
    ensures Kept(Step(s, Command(command)), FullStep(f, Command(command)))
    ensures TermsRight(Step(s, Command(command)), FullStep(f, Command(command)))
  {
    var s', f' := Step(s, Command(command)), FullStep(f, Command(command));
    StepSame(s, f, Command(command));
    TermKept(s.peer, f.peer, s'.peer, f'.peer);
    HandledTerms(s, f, s', f', s.peer.status == Leader);
  }

  lemma SnapshotTerms(s: Stored, f: Stored, index: int, hasData: bool)
    requires Kept(s, f) && Admissible(s, f.peer, Snapshot(index, hasData)) && TermsRight(s, f) && index > s.peer.snapshotIndex
    ensures Kept(Step(s, Snapshot(index, hasData)), f) && TermsRight(Step(s, Snapshot(index, hasData)), f)
  {
    StepSame(s, f, Snapshot(index, hasData));
    SnapshotTermIff(s.peer, f.peer, index, hasData);
  }

  /** What a record inside an append holds below the snapshot is what was there before. */
  lemma CrashInTerms(s: Stored, f: Stored, args: AppendEntriesArgs, k: nat)
    requires Kept(s, f) && AppendFits(s.peer, f.peer, args) && TermsRight(s, f) && k < |StatesSaved(s.peer, args)| && Recoverable(s.peer)
    ensures k < |StatesSaved(f.peer, args)|
    ensures var s', f' := Step(s, CrashIn(args, k)), FullStep(f, CrashIn(args, k)); Kept(s', f') && TermsRight(s', f')
  {
    CrashInExact(s, f, args, k);
    SavedRight(s.peer, f.peer, args, k);
    RestartRight(StatesSaved(s.peer, args)[k], StatesSaved(f.peer, args)[k]);
  }

  lemma SavedRight(c: Peer, f: Peer, args: AppendEntriesArgs, k: nat)
    requires Same(c, f) && AppendFits(c, f, args) && TermRight(c, f) && (c.hasSnapshot ==> c.snapshotIndex > 0)
    requires k < |StatesSaved(c, args)| && Recoverable(c)
    ensures k < |StatesSaved(f, args)|
    ensures var a, b := StatesSaved(c, args)[k], StatesSaved(f, args)[k];
            SameRecord(a, b) && Recoverable(a) && (a.hasSnapshot ==> RecordRight(a, b))
  {
    SavedCompact(c, f, args);
    SavedSnapshot(c, args, k);
    SavedTerm(c, f, args, k);
    var base := c.snapshotIndex;
    if base > 0 { assert StatesSaved(f, args)[k].logs[..base][base - 1] == f.logs[..base][base - 1]; }
  }

  lemma AcceptingExtends(f: Peer, args: AppendEntriesArgs, k: nat)
    requires f.snapshotIndex == 0 && k < |StatesAccepting(f, args)|
    ensures Truncate(f.logs, 0, args.entries) <= StatesAccepting(f, args)[k].logs
  {
    var cut := Truncate(f.logs, 0, args.entries);
    var n := if |cut| < |f.logs| then 1 else 0;
    if k >= n { StagesExtend(cut, 0, args.entries, k - n); }
  }

  lemma SavedTerm(c: Peer, f: Peer, args: AppendEntriesArgs, k: nat)
    requires Same(c, f) && AppendFits(c, f, args) && k < |StatesSaved(f, args)|
    ensures var log' := StatesSaved(f, args)[k].logs;
            c.snapshotIndex <= |log'| && log'[..c.snapshotIndex] == f.logs[..c.snapshotIndex]
  {
    var f1, n := StepDown(f, args.term), if args.term > f.currentTerm then 1 else 0;
    if k >= n {
      MismatchSame(c, f, args);
      TruncateKeeps(f.logs, args.entries, args.prevLogIndex);
      AcceptingExtends(f1, args, k - n);
    }
  }

  lemma {:induction false} StagesExtend(logs: Log, base: int, entries: Log, k: nat)
    requires k < |AppendStages(logs, base, entries)|
    ensures logs <= AppendStages(logs, base, entries)[k]
    decreases entries
  {
    if entries[0].index > |logs| + base {
      if k > 0 { StagesExtend(logs + [entries[0]], base, entries[1..], k - 1); }
    } else {
      StagesExtend(logs, base, entries[1..], k);
    }
  }

  lemma CrashTerms(s: Stored, f: Stored)
    requires Kept(s, f) && Admissible(s, f.peer, Crash) && TermsRight(s, f)
    ensures var s', f' := Step(s, Crash), FullStep(f, Crash); Kept(s', f') && TermsRight(s', f')
  {
    StepSame(s, f, Crash);
    if s.last.Some? { RestartRight(s.last.value, f.last.value); }
  }

  /** Every event keeps the terms of snapshots right, as long as each snapshot goes beyond the
      one before. */
  lemma TermsStay(s: Stored, f: Stored, e: LogEvent)
    requires Kept(s, f) && Admissible(s, f.peer, e) && TermsRight(s, f)
    requires e.Snapshot? ==> e.index > s.peer.snapshotIndex
    ensures e.CrashIn? ==> e.k < |StatesSaved(f.peer, e.args)|
    ensures Kept(Step(s, e), FullStep(f, e)) && TermsRight(Step(s, e), FullStep(f, e))
  {
    match e
    case Append(args) => AppendTerms(s, f, args);
    case CrashIn(args, k) => CrashInTerms(s, f, args, k);
    case Crash => CrashTerms(s, f);
    case Snapshot(index, hasData) => SnapshotTerms(s, f, index, hasData);
    case Command(command) => CommandTerms(s, f, command);
    case AskVote(request) => VoteTerms(s, f, request);
  }

  /** The events happen to both servers, each admissible when it does. */
  ghost predicate Follows(cs: seq<Stored>, fs: seq<Stored>, events: seq<LogEvent>) {
    && |cs| == |fs| == |events| + 1
    && Kept(cs[0], fs[0])
    && forall k | 0 <= k < |events| :: FollowsAt(cs, fs, events, k)
  }

  ghost predicate FollowsAt(cs: seq<Stored>, fs: seq<Stored>, events: seq<LogEvent>, k: nat)
    requires k < |events| && |cs| == |fs| == |events| + 1
  {
    Moves(cs[k], fs[k], events[k], cs[k + 1], fs[k + 1])
  }

  /** The event happens to both, and is admissible while they are the same. */
  ghost predicate Moves(s: Stored, f: Stored, e: LogEvent, s': Stored, f': Stored) {
    forall seal {:trigger Unsealed(seal)} :: seal == CompactionSeal ==> MovesFacts(s, f, e, s', f')
  }

  ghost predicate MovesFacts(s: Stored, f: Stored, e: LogEvent, s': Stored, f': Stored) {
    Same(s.peer, f.peer) ==>
      && Admissible(s, f.peer, e)
      && (e.CrashIn? ==> e.k < |StatesSaved(f.peer, e.args)|)
      && s' == Step(s, e) && f' == FullStep(f, e)
  }

  lemma MovesKeep(s: Stored, f: Stored, e: LogEvent, s': Stored, f': Stored)
    requires Kept(s, f) && Moves(s, f, e, s', f')
    ensures Kept(s', f')
  {
    assert Unsealed(CompactionSeal);
    StepSame(s, f, e);
  }

  lemma {:induction false} RunKeeps(cs: seq<Stored>, fs: seq<Stored>, events: seq<LogEvent>, k: nat)
    requires Follows(cs, fs, events) && k < |cs|
    ensures Kept(cs[k], fs[k])
  {
    if k > 0 {
      RunKeeps(cs, fs, events, k - 1);
      assert FollowsAt(cs, fs, events, k - 1);
      MovesKeep(cs[k - 1], fs[k - 1], events[k - 1], cs[k], fs[k]);
    }
  }

  /** Over any sequence of commands, appends, requests for votes, snapshots and crashes, every
      entry the compacting server retains sits at its index and is the one an uncompacted log
      has there, and both logs end at the same index. */
  lemma CompactionRefines(cs: seq<Stored>, fs: seq<Stored>, events: seq<LogEvent>, k: nat)
    requires Follows(cs, fs, events) && k < |cs|
    ensures Kept(cs[k], fs[k])
    ensures var c := cs[k].peer;
            forall i | 0 <= i < |c.logs| ::
              c.logs[i].index == c.snapshotIndex + 1 + i && c.logs[i] == fs[k].peer.logs[c.snapshotIndex + i]
    ensures LastLogIndex(cs[k].peer) == LastLogIndex(fs[k].peer)
  {
    RunKeeps(cs, fs, events, k);
    EndsSame(cs[k].peer, fs[k].peer);
  }

  /** Each snapshot goes beyond the one before. */
  ghost predicate GoesOn(cs: seq<Stored>, events: seq<LogEvent>)
    requires |cs| == |events| + 1
  {
    forall k | 0 <= k < |events| :: events[k].Snapshot? ==> events[k].index > cs[k].peer.snapshotIndex
  }

  lemma MovesTerms(s: Stored, f: Stored, e: LogEvent, s': Stored, f': Stored)
    requires Kept(s, f) && TermsRight(s, f) && Moves(s, f, e, s', f') && (e.Snapshot? ==> e.index > s.peer.snapshotIndex)
    ensures Kept(s', f') && TermsRight(s', f')
  {
    assert Unsealed(CompactionSeal);
    TermsStay(s, f, e);
  }

  lemma {:induction false} RunTerms(cs: seq<Stored>, fs: seq<Stored>, events: seq<LogEvent>, k: nat)
    requires Follows(cs, fs, events) && k < |cs| && TermsRight(cs[0], fs[0]) && GoesOn(cs, events)
    ensures Kept(cs[k], fs[k]) && TermsRight(cs[k], fs[k])
  {
    if k > 0 {
      RunTerms(cs, fs, events, k - 1);
      assert FollowsAt(cs, fs, events, k - 1);
      MovesTerms(cs[k - 1], fs[k - 1], events[k - 1], cs[k], fs[k]);
    }
  }

  /** So, when each snapshot goes beyond the one before, the compacting server remembers the
      term its log ends with and answers every request for its vote like the uncompacted one,
      at any time. */
  lemma CompactionVotes(cs: seq<Stored>, fs: seq<Stored>, events: seq<LogEvent>, k: nat, request: RequestVoteArgs)
    requires Follows(cs, fs, events) && k < |cs| && TermsRight(cs[0], fs[0]) && GoesOn(cs, events)
    ensures LastLogTerm(cs[k].peer) == LastLogTerm(fs[k].peer) && LastLogIndex(cs[k].peer) == LastLogIndex(fs[k].peer)
    ensures HandleRequestVote(cs[k].peer, request).reply == HandleRequestVote(fs[k].peer, request).reply
  {
    RunTerms(cs, fs, events, k);
    EndsSame(cs[k].peer, fs[k].peer);
    VoteSame(cs[k].peer, fs[k].peer, request);
  }

  // ----- a run that loses its numbering

  const FIRST := LogEntry(1, 1, "a")
  const SECOND := LogEntry(1, 2, "b")

  function Bring(prev: int, entry: LogEntry): AppendEntriesArgs {
    AppendEntriesArgs(1, 0, prev, 1, [entry], 0)
  }

  lemma BringFirst()
    ensures var p := OnAppendEntries(Restart(None, false), Bring(0, FIRST)).peer;
            p == Restart(None, false).(currentTerm := 1, logs := [FIRST])
    ensures OnAppendEntries(Restart(None, false), Bring(0, FIRST)).saves != []
  {
    assert [FIRST][1..] == [];
    assert AppendNew([FIRST], 0, []) == [FIRST];
  }

  lemma BringSecond(p: Peer)
    requires p.currentTerm == 1 && p.status == Follower && p.snapshotIndex >= 0 && p.snapshotIndex + |p.logs| == 1
    requires p.logs != [] ==> p.logs[0].term == 1
    requires p.commitIndex >= 0
    ensures OnAppendEntries(p, Bring(1, SECOND)).peer == p.(logs := p.logs + [SECOND])
    ensures OnAppendEntries(p, Bring(1, SECOND)).saves != []
  {
    assert [SECOND][1..] == [];
    assert Truncate(p.logs, p.snapshotIndex, [SECOND]) == p.logs;
    assert AppendNew(p.logs + [SECOND], p.snapshotIndex, []) == p.logs + [SECOND];
  }

  ghost function Fresh(): Peer {
    Restart(None, false)
  }

  ghost function WithFirst(): Peer {
    Fresh().(currentTerm := 1, logs := [FIRST])
  }

  ghost function Compacted(): Peer {
    HandleSnapshot(WithFirst(), 1, false)
  }

  /** A server that has just saved a record. */
  ghost function JustSaved(p: Peer): Stored {
    Stored(p, Some(p))
  }

  lemma LostFirst()
    ensures Kept(Stored(Fresh(), None), Stored(Fresh(), None))
    ensures Moves(Stored(Fresh(), None), Stored(Fresh(), None), Append(Bring(0, FIRST)), JustSaved(WithFirst()), JustSaved(WithFirst()))
  {
    BringFirst();
    assert MovesFacts(Stored(Fresh(), None), Stored(Fresh(), None), Append(Bring(0, FIRST)), JustSaved(WithFirst()), JustSaved(WithFirst()));
  }

  lemma CompactedIs()
    ensures Compacted() == WithFirst().(hasSnapshot := false, snapshotTerm := 1, logs := [], snapshotIndex := 1)
  {
    assert [FIRST][1..] == [];
  }

  lemma SnapshotFits()
    ensures var s := JustSaved(WithFirst()); Same(s.peer, WithFirst()) && Admissible(s, WithFirst(), Snapshot(1, false))
  {
    assert [FIRST][0..] == [FIRST];
  }

  lemma LostSnapshot()
    ensures Moves(JustSaved(WithFirst()), JustSaved(WithFirst()), Snapshot(1, false), Stored(Compacted(), Some(WithFirst())), JustSaved(WithFirst()))
    ensures Compacted().logs == [] && Compacted().snapshotIndex == 1 && !Compacted().hasSnapshot
  {
    CompactedIs();
    SnapshotFits();
    assert MovesFacts(JustSaved(WithFirst()), JustSaved(WithFirst()), Snapshot(1, false), Stored(Compacted(), Some(WithFirst())), JustSaved(WithFirst()));
  }

  lemma SecondCompacted()
    ensures var h := OnAppendEntries(Compacted(), Bring(1, SECOND));
            h.peer == Compacted().(logs := [SECOND]) && h.saves != []
  {
    CompactedIs();
    BringSecond(Compacted());
    assert [] + [SECOND] == [SECOND];
  }

  lemma SecondFull()
    ensures var h := OnAppendEntries(WithFirst(), Bring(1, SECOND));
            h.peer == WithFirst().(logs := [FIRST, SECOND]) && h.saves != []
  {
    BringSecond(WithFirst());
    assert [FIRST] + [SECOND] == [FIRST, SECOND];
  }

  lemma SecondFits()
    requires Same(Compacted(), WithFirst())
    ensures AppendFits(Compacted(), WithFirst(), Bring(1, SECOND))
  {
    CompactedIs();
  }

  lemma LostSecond()
    ensures var c, f := Compacted().(logs := [SECOND]), WithFirst().(logs := [FIRST, SECOND]);
            Moves(Stored(Compacted(), Some(WithFirst())), JustSaved(WithFirst()), Append(Bring(1, SECOND)), JustSaved(c), JustSaved(f))
  {
    SecondCompacted();
    SecondFull();
    if Same(Compacted(), WithFirst()) { SecondFits(); }
    var c, f := Compacted().(logs := [SECOND]), WithFirst().(logs := [FIRST, SECOND]);
    assert MovesFacts(Stored(Compacted(), Some(WithFirst())), JustSaved(WithFirst()), Append(Bring(1, SECOND)), JustSaved(c), JustSaved(f));
  }

  /** An append, a snapshot without data, one more append, and a crash: the entry at index 2
      is then taken for the one at index 1. */
  lemma NumberingLost() returns (cs: seq<Stored>, fs: seq<Stored>, events: seq<LogEvent>)
    ensures Follows(cs, fs, events) && cs[0] == fs[0] == Stored(Fresh(), None)
    ensures var s, f := cs[|events|], fs[|events|];
            && Kept(s, f) && !Same(Step(s, Crash).peer, FullStep(f, Crash).peer)
            && Step(s, Crash).peer.snapshotIndex == 0 && Step(s, Crash).peer.logs == [SECOND] && f.peer.logs == [FIRST, SECOND]
  {
    var c, f := Compacted().(logs := [SECOND]), WithFirst().(logs := [FIRST, SECOND]);
    events := [Append(Bring(0, FIRST)), Snapshot(1, false), Append(Bring(1, SECOND))];
    cs := [Stored(Fresh(), None), JustSaved(WithFirst()), Stored(Compacted(), Some(WithFirst())), JustSaved(c)];
    fs := [Stored(Fresh(), None), JustSaved(WithFirst()), JustSaved(WithFirst()), JustSaved(f)];
    LostFirst();
    LostSnapshot();
    LostSecond();
    assert FollowsAt(cs, fs, events, 0) && FollowsAt(cs, fs, events, 1) && FollowsAt(cs, fs, events, 2);
    RunKeeps(cs, fs, events, 3);
    LostAtCrash(cs[3], fs[3]);
  }

  lemma LostAtCrash(s: Stored, f: Stored)
    requires Kept(s, f) && s.last == Some(s.peer) && s.peer == Compacted().(logs := [SECOND])
    ensures !Same(Step(s, Crash).peer, FullStep(f, Crash).peer)
    ensures Step(s, Crash).peer.snapshotIndex == 0 && Step(s, Crash).peer.logs == [SECOND]
  {
    CompactedIs();
    CrashExact(s, f);
  }
}
