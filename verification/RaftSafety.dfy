/** The safety properties of Raft, over every run of a cluster. */
module RaftSafety {
  import opened Collections
  import opened RaftProtocol
  import opened RaftPeer
  import opened RaftCluster
  import opened RaftInvariant
  import opened RaftElections
  import opened RaftReplication
  import opened Sealing

  // ----- every event keeps the invariant

  lemma InitHolds(n: nat, w: World) returns (h: Proto)
    requires Init(n, w)
    ensures Inv(w, h)
  {
    h := Proto(seq(n, _ => 0), seq(n, _ => []), map[], map[], map[], {});
    forall p: nat | p < n ensures PeerOk(w, h, p) {}
    assert ProtoFacts(h);
    assert InvFacts(w, h);
  }

  lemma EventKeeps(w: World, h: Proto, e: Event) returns (h': Proto)
    requires Inv(w, h) && Enabled(w, e)
    ensures InRangeFor(w, e)
    ensures Inv(Do(w, e), h') && Extends(h, h')
  {
    LinkHolds(w, h);
    h' := h;
    match e
    case ElectionTimeout(p) => h' := ElectionTimeoutKeeps(w, h, p);
    case ReceiveVoteRequest(c, t, v) => h' := VoteRequestKeeps(w, h, (c, t, v));
    case CrashInVote(c, t, v, k) => h' := CrashInVoteKeeps(w, h, (c, t, v), k);
    case ReceiveVoteReply(c, t, v) => h' := VoteReplyKeeps(w, h, (c, t, v));
    case Start(p, command) => h' := StartKeeps(w, h, p, command);
    case SendHeartbeat(p, server) => HeartbeatKeeps(w, h, p, server);
    case SendEntries(p, server) => EntriesKeep(w, h, p, server);
    case ReceiveAppend(m) => h' := AppendKeeps(w, h, m);
    case CrashInAppend(m, k) => h' := CrashInAppendKeeps(w, h, m, k);
    case ReceiveAppendReply(a) => h' := AppendReplyKeeps(w, h, a);
    case ReceiveSnapshot(s) => h' := SnapshotKeeps(w, h, s);
    case ReceiveSnapshotReply(r) => h' := StepDownKeeps(w, h, r.leader, r.term);
    case ApplyTimer(p) => ApplyKeeps(w, h, p);
    case Crash(p) => CrashKeeps(w, h, p);
  }

  /** A history for the run up to state `k`, and, from one state to a later one, a growing one. */
  lemma {:induction false} HistoryAt(n: nat, run: seq<World>, k: nat) returns (h: Proto)
    requires IsRun(n, run) && k < |run|
    ensures Inv(run[k], h)
  {
    if k == 0 {
      h := InitHolds(n, run[0]);
    } else {
      var before := HistoryAt(n, run, k - 1);
      h := HistoryNext(n, run, k - 1, before);
    }
  }

  lemma HistoryNext(n: nat, run: seq<World>, k: nat, h: Proto) returns (h': Proto)
    requires IsRun(n, run) && k + 1 < |run| && Inv(run[k], h)
    ensures Inv(run[k + 1], h') && Extends(h, h')
  {
    assert StepsAt(run, k);
    var e :| Enabled(run[k], e) && InRangeFor(run[k], e) && run[k + 1] == Do(run[k], e);
    h' := EventKeeps(run[k], h, e);
  }

  lemma {:induction false} HistoryFrom(n: nat, run: seq<World>, j: nat, k: nat, h: Proto) returns (h': Proto)
    requires IsRun(n, run) && j <= k < |run| && Inv(run[j], h)
    ensures Inv(run[k], h') && Extends(h, h')
    decreases k - j
  {
    if j == k {
      LinkHolds(run[j], h);
      h' := h;
    } else {
      var h1 := HistoryNext(n, run, j, h);
      h' := HistoryFrom(n, run, j + 1, k, h1);
      ExtendsTransitive(h, h1, h');
    }
  }

  /** Histories at two states of one run, the earlier one contained in the later. */
  lemma Histories(n: nat, run: seq<World>, j: nat, k: nat) returns (hj: Proto, hk: Proto)
    requires IsRun(n, run) && j <= k < |run|
    ensures Inv(run[j], hj) && Inv(run[k], hk) && Extends(hj, hk)
  {
    hj := HistoryAt(n, run, j);
    hk := HistoryFrom(n, run, j, k, hj);
  }

  // ----- the theorems

  /** No handler of a reachable state indexes out of range. */
  lemma NoPanic(n: nat, run: seq<World>, k: nat, e: Event)
    requires IsRun(n, run) && k < |run| && Enabled(run[k], e)
    ensures InRangeFor(run[k], e)
  {
    var h := HistoryAt(n, run, k);
    var _ := EventKeeps(run[k], h, e);
  }

  lemma ReignOf(w: World, h: Proto, p: nat)
    requires Inv(w, h) && p < |w.peers| && w.peers[p].status == Leader
    ensures w.peers[p].currentTerm in h.leaders
    ensures h.leaders[w.peers[p].currentTerm].leader == p && h.leaders[w.peers[p].currentTerm].log == w.peers[p].logs
  {
    assert Unsealed(ClusterSeal);
    assert PeerOk(w, h, p);
  }

  /** Election Safety: a term has at most one leader, ever. */
  lemma ElectionSafety(n: nat, run: seq<World>, j: nat, k: nat, p: nat, q: nat)
    requires IsRun(n, run) && j <= k < |run| && p < |run[j].peers| && q < |run[k].peers|
    requires run[j].peers[p].status == Leader && run[k].peers[q].status == Leader
    requires run[j].peers[p].currentTerm == run[k].peers[q].currentTerm
    ensures p == q
  {
    var hj, hk := Histories(n, run, j, k);
    ReignOf(run[j], hj, p);
    ReignOf(run[k], hk, q);
    assert ReignGrows(hj.leaders[run[j].peers[p].currentTerm], hk.leaders[run[j].peers[p].currentTerm]);
  }

  lemma VoteOf(w: World, h: Proto, p: nat)
    requires Inv(w, h) && p < |w.peers|
    ensures VotedOk(h, p, w.peers[p])
  {
    assert Unsealed(ClusterSeal);
    assert PeerOk(w, h, p);
  }

  /** A vote stands for the rest of its term, through refusals and crashes. */
  lemma VoteStands(n: nat, run: seq<World>, j: nat, k: nat, p: nat)
    requires IsRun(n, run) && j <= k < |run| && p < |run[j].peers| && p < |run[k].peers|
    requires run[j].peers[p].votedFor != -1
    requires run[j].peers[p].currentTerm == run[k].peers[p].currentTerm
    ensures run[k].peers[p].votedFor == run[j].peers[p].votedFor
  {
    var hj, hk := Histories(n, run, j, k);
    VoteOf(run[j], hj, p);
    VoteOf(run[k], hk, p);
  }

  /** A log some server holds, in memory or on disk. */
  ghost predicate Holds(w: World, p: nat, log: Log) {
    && p < |w.peers| == |w.disk|
    && (log == w.peers[p].logs || (w.disk[p].Some? && log == w.disk[p].value.logs))
  }

  lemma HeldLog(w: World, h: Proto, p: nat, log: Log)
    requires Inv(w, h) && Holds(w, p, log)
    ensures log == w.peers[p].logs && LogOk(h.leaders, log)
  {
    ServerLog(w, h, p);
    assert Unsealed(ClusterSeal);
    assert PeerOk(w, h, p);
  }

  /** Log Matching: two logs held anywhere, at any times, that have an entry of one term at
      one index are the same up to that index. */
  lemma LogsMatch(n: nat, run: seq<World>, j: nat, k: nat, p: nat, q: nat, a: Log, b: Log, i: nat)
    requires IsRun(n, run) && j <= k < |run| && Holds(run[j], p, a) && Holds(run[k], q, b)
    requires i < |a| && i < |b| && a[i].term == b[i].term
    ensures a[..i + 1] == b[..i + 1]
  {
    var hj, hk := Histories(n, run, j, k);
    HeldLog(run[j], hj, p, a);
    HeldLog(run[k], hk, q, b);
    LogOkGrows(hj.leaders, hk.leaders, a);
    LogMatching(hk.leaders, a, b, i);
  }

  /** What `log` has committed by term `t` is in the log of every leader of a later term. */
  lemma CommittedInLater(h: Proto, log: Log, t: int, c: int, t2: int)
    requires ProtoInv(h) && CommitOk(h, log, t, c) && 0 <= c <= |log| && t < t2 && t2 in h.leaders
    ensures h.leaders[t2].start <= |h.leaders[t2].log| && c <= h.leaders[t2].start
    ensures log[..c] == h.leaders[t2].log[..c]
  {
    assert Unsealed(ProtocolSeal);
    assert ReignOk(h, t2);
    if c > 0 {
      var t0, i0 :| CommitsTo(h, log, t, c, t0, i0);
      LeaderCompleteness(h, t0, i0, t2);
      PrefixAt(h.leaders[t0].log, h.leaders[t2].log, i0, c);
    }
  }

  lemma ProtoHolds(w: World, h: Proto)
    requires Inv(w, h)
    ensures ProtoInv(h)
  {
    assert Unsealed(ClusterSeal);
  }

  /** Leader Completeness: what any server has committed is in the log of every leader of a
      later term, whenever that leader is observed. */
  lemma LeadersComplete(n: nat, run: seq<World>, j: nat, k: nat, p: nat, q: nat)
    requires IsRun(n, run) && j < |run| && k < |run| && p < |run[j].peers| && q < |run[k].peers|
    requires run[k].peers[q].status == Leader && run[j].peers[p].currentTerm < run[k].peers[q].currentTerm
    ensures var c := run[j].peers[p].commitIndex;
            0 <= c <= |run[j].peers[p].logs| && c <= |run[k].peers[q].logs| && run[j].peers[p].logs[..c] == run[k].peers[q].logs[..c]
  {
    var peer, t2 := run[j].peers[p], run[k].peers[q].currentTerm;
    var h, hj, hk;
    if j <= k {
      hj, hk := Histories(n, run, j, k);
      h := hk;
      LinkHolds(run[k], hk);
      ProtoHolds(run[k], h);
    } else {
      hk, hj := Histories(n, run, k, j);
      h := hj;
      LinkHolds(run[j], hj);
      ProtoHolds(run[j], h);
    }
    CommitHolds(run[j], hj, p);
    CommitOkGrows(hj, h, peer.logs, peer.logs, peer.currentTerm, peer.currentTerm, peer.commitIndex);
    ReignOf(run[k], hk, q);
    assert ReignGrows(hk.leaders[t2], h.leaders[t2]);
    CommittedInLater(h, peer.logs, peer.currentTerm, peer.commitIndex, t2);
    StartBound(run[k], hk, t2);
    PrefixAt(h.leaders[t2].log, hk.leaders[t2].log, h.leaders[t2].start, peer.commitIndex);
  }

  lemma StartBound(w: World, h: Proto, t: int)
    requires Inv(w, h) && t in h.leaders
    ensures h.leaders[t].start <= |h.leaders[t].log|
  {
    assert Unsealed(ClusterSeal) && Unsealed(ProtocolSeal);
    assert ReignOk(h, t);
  }

  /** The majority rule commits for good: an index that meets it at one leader is in every
      later leader's log, with everything before it. */
  lemma MajorityIsFinal(n: nat, run: seq<World>, j: nat, k: nat, p: nat, q: nat, i: int)
    requires IsRun(n, run) && j < |run| && k < |run| && p < |run[j].peers| && q < |run[k].peers|
    requires run[j].peers[p].status == Leader && Committable(run[j].peers[p], p, i)
    requires run[k].peers[q].status == Leader && run[j].peers[p].currentTerm < run[k].peers[q].currentTerm
    ensures 0 <= i <= |run[j].peers[p].logs| && i <= |run[k].peers[q].logs| && run[j].peers[p].logs[..i] == run[k].peers[q].logs[..i]
  {
    var peer, t2 := run[j].peers[p], run[k].peers[q].currentTerm;
    var h, hj, hk;
    if j <= k {
      hj, hk := Histories(n, run, j, k);
      h := hk;
      LinkHolds(run[k], hk);
      ProtoHolds(run[k], h);
    } else {
      hk, hj := Histories(n, run, k, j);
      h := hj;
      LinkHolds(run[j], hj);
      ProtoHolds(run[j], h);
    }
    MajorityCommits(run[j], hj, p, i);
    CommitOkGrows(hj, h, peer.logs, peer.logs, peer.currentTerm, peer.currentTerm, i);
    ReignOf(run[k], hk, q);
    assert ReignGrows(hk.leaders[t2], h.leaders[t2]);
    CommittedInLater(h, peer.logs, peer.currentTerm, i, t2);
    StartBound(run[k], hk, t2);
    PrefixAt(h.leaders[t2].log, hk.leaders[t2].log, h.leaders[t2].start, i);
  }

  /** Two committed stretches agree where both reach. */
  lemma CommittedAgree(h: Proto, t1: int, i1: int, t2: int, i2: int, k: int)
    requires ProtoInv(h) && t1 <= t2
    requires IsLeaderEntry(h, t1, i1) && Committed(h, t1, i1) && IsLeaderEntry(h, t2, i2) && Committed(h, t2, i2)
    requires 1 <= k <= i1 && k <= i2
    ensures h.leaders[t1].log[k - 1] == h.leaders[t2].log[k - 1]
  {
    if t1 < t2 {
      assert Unsealed(ProtocolSeal);
      LeaderCompleteness(h, t1, i1, t2);
      assert h.leaders[t1].log[..i1][k - 1] == h.leaders[t2].log[..h.leaders[t2].start][k - 1];
    }
  }

  /** Commit coverage: the entries of every message in flight reach its commit index. */
  lemma MessageCoversCommit(n: nat, run: seq<World>, k: nat, m: AppendMsg)
    requires IsRun(n, run) && k < |run| && m in run[k].appends
    ensures 0 <= m.args.leaderCommit <= m.args.prevLogIndex + |m.args.entries|
  {
    var h := HistoryAt(n, run, k);
    MessageHolds(run[k], h, m);
  }

  /** The event takes down server `p`. */
  ghost predicate Crashes(e: Event, p: nat) {
    e == Crash(p) || (e.CrashInVote? && e.v == p) || (e.CrashInAppend? && e.m.server == p)
  }

  /** Within one incarnation a server's commit index never goes back and never passes the end
      of its log. */
  lemma CommitNeverBack(n: nat, run: seq<World>, k: nat, e: Event, p: nat)
    requires IsRun(n, run) && k < |run| && p < |run[k].peers|
    requires Enabled(run[k], e) && InRangeFor(run[k], e) && !Crashes(e, p)
    ensures var w' := Do(run[k], e);
            p < |w'.peers| && run[k].peers[p].commitIndex <= w'.peers[p].commitIndex <= |w'.peers[p].logs|
  {
    var w := run[k];
    var h := HistoryAt(n, run, k);
    var h' := EventKeeps(w, h, e);
    LinkHolds(w, h);
    LinkHolds(Do(w, e), h');
    CommitHolds(Do(w, e), h', p);
    if e.ReceiveAppend? {
      if e.m.server == p { AppendCommit(w, h, e.m); }
    } else if e.ReceiveAppendReply? {
      if e.a.args.leaderId == p { ReplyCommit(w.peers[p], p, e.a); }
    } else {
      OtherCommit(w, e, p);
    }
  }

  lemma ReplyCommit(peer: Peer, p: nat, a: AppendAnswer)
    requires a.server < |peer.nextIndex| == |peer.matchIndex|
    ensures HandleAppendReply(peer, p, a.server, a.args, a.reply).peer.commitIndex >= peer.commitIndex
  {
    var m := a.args.prevLogIndex + |a.args.entries|;
    var peer1 := if a.args.entries != [] && m > peer.matchIndex[a.server]
                 then peer.(matchIndex := peer.matchIndex[a.server := m], nextIndex := peer.nextIndex[a.server := m + 1])
                 else peer;
    ScanFindsLast(peer1, p, peer1.commitIndex + 1, peer1.commitIndex);
  }

  lemma OtherCommit(w: World, e: Event, p: nat)
    requires Enabled(w, e) && InRangeFor(w, e) && !Crashes(e, p) && p < |w.peers|
    requires !e.ReceiveAppend? && !e.ReceiveAppendReply?
    ensures p < |Do(w, e).peers| && Do(w, e).peers[p].commitIndex == w.peers[p].commitIndex
  {
  }

  lemma AppendCommit(w: World, h: Proto, m: AppendMsg)
    requires Inv(w, h) && m in w.appends && IsServer(w, m.server)
    ensures OnAppendEntries(w.peers[m.server], m.args).peer.commitIndex >= w.peers[m.server].commitIndex
  {
    var v, peer, t := m.server, w.peers[m.server], m.args.term;
    if t >= peer.currentTerm {
      var h' := PrepareAppend(w, h, m);
      AppendInTerm(peer, m.args);
      var p2 := StepDown(peer, t).(status := Follower);
      var w2 := SetPeer(w, v, p2, StepDownSaves(peer, t));
      if !Mismatch(p2, m.args) {
        ServerLog(w2, h', v);
        CommitCoverage(w2, h', m);
      }
    }
  }

  /** Fast back-up, in every run. */
  lemma FastBackUp(n: nat, run: seq<World>, k: nat, a: AppendAnswer)
    requires IsRun(n, run) && k < |run| && Enabled(run[k], ReceiveAppendReply(a)) && !a.reply.success
    requires run[k].peers[a.args.leaderId].currentTerm == a.reply.term == a.args.term
    ensures InRangeFor(run[k], ReceiveAppendReply(a))
    ensures 1 <= Do(run[k], ReceiveAppendReply(a)).peers[a.args.leaderId].nextIndex[a.server] <= a.args.prevLogIndex
  {
    var h := HistoryAt(n, run, k);
    var h' := EventKeeps(run[k], h, ReceiveAppendReply(a));
    BackUpProgress(run[k], h, a);
  }
}
