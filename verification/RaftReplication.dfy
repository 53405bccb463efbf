/** The invariant through replication, commitment and application. */
module RaftReplication {
  import opened Collections
  import opened RaftProtocol
  import opened RaftPeer
  import opened RaftCluster
  import opened RaftLogs
  import opened RaftInvariant
  import opened RaftElections
  import opened Sealing

  // ----- commands

  lemma WriteAllowed(w: World, h: Proto, p: nat, command: Command)
    requires Inv(w, h) && p < |w.peers| && w.peers[p].status == Leader
    ensures var t := w.peers[p].currentTerm;
            && t in h.leaders && h.leaders[t].leader == p
            && ProtoInv(Write(h, t, command)) && Extends(h, Write(h, t, command))
  {
    assert Unsealed(ClusterSeal) && Unsealed(ProtocolSeal);
    assert PeerOk(w, h, p);
    WriteKeeps(h, w.peers[p].currentTerm, command);
  }

  lemma WrittenPeer(w: World, h: Proto, p: nat, command: Command, h': Proto)
    requires Inv(w, h) && p < |w.peers| && w.peers[p].status == Leader
    requires w.peers[p].currentTerm in h.leaders && h.leaders[w.peers[p].currentTerm].leader == p
    requires h' == Write(h, w.peers[p].currentTerm, command) && Extends(h, h')
    ensures PeerOk(AfterStart(w, p, command), h', p) && Linked(AfterStart(w, p, command), h')
  {
    assert Unsealed(ClusterSeal);
    var peer, t := w.peers[p], w.peers[p].currentTerm;
    var peer' := HandleCommand(peer, command).peer;
    assert PeerOk(w, h, p);
    assert peer'.logs[..peer.commitIndex] == peer.logs[..peer.commitIndex];
    CommitOkGrows(h, h', peer.logs, peer'.logs, t, t, peer.commitIndex);
    forall server: nat | server < |w.peers| ensures ProgressOk(h', p, peer', server) {
      assert ProgressOk(h, p, peer, server);
      if server != p { AckedGrows(h, h', server, t, peer.matchIndex[server]); }
    }
  }

  lemma StartKeeps(w: World, h: Proto, p: nat, command: Command) returns (h': Proto)
    requires Inv(w, h) && p < |w.peers|
    ensures Inv(AfterStart(w, p, command), h') && Extends(h, h')
  {
    var w', t := AfterStart(w, p, command), w.peers[p].currentTerm;
    LinkHolds(w, h);
    if w.peers[p].status == Leader {
      WriteAllowed(w, h, p, command);
      h' := Write(h, t, command);
      WrittenPeer(w, h, p, command, h');
      MessagesKept(w, h, w', h');
      Assemble(w, h, w', h', p);
    } else {
      h' := h;
      assert w' == w;
    }
  }

  // ----- sending

  /** What a leader sends, from wherever it starts, runs to the end of its log. */
  lemma SendKeeps(w: World, h: Proto, p: nat, m: AppendMsg)
    requires Inv(w, h) && p < |w.peers| && w.peers[p].status == Leader
    requires m.server < |w.peers| && m.server != p
    requires var peer, args := w.peers[p], m.args;
             && args.term == peer.currentTerm && args.leaderId == p && args.leaderCommit == peer.commitIndex
             && 0 <= args.prevLogIndex <= |peer.logs| && args.entries == peer.logs[args.prevLogIndex..]
             && (args.prevLogIndex > 0 ==> args.prevLogTerm == peer.logs[args.prevLogIndex - 1].term)
    ensures Inv(AfterSend(w, m), h)
    ensures m.args.leaderCommit <= m.args.prevLogIndex + |m.args.entries|
  {
    assert Unsealed(ClusterSeal);
    var w' := AfterSend(w, m);
    assert PeerOk(w, h, p);
    assert AppendOk(h, |w.peers|, m);
    ExtendsSelf(h);
    assert PeerOk(w', h, p);
    MessagesKept(w, h, w', h);
    Assemble(w, h, w', h, p);
  }

  lemma LeaderFacts(w: World, h: Proto, p: nat)
    requires Inv(w, h) && p < |w.peers| && w.peers[p].status == Leader
    ensures var peer := w.peers[p];
            && Numbered(peer.logs, 0) && peer.snapshotIndex == 0 && 0 <= peer.commitIndex <= |peer.logs|
            && LastLogIndex(peer) == |peer.logs|
            && |peer.nextIndex| == |peer.matchIndex| == |w.peers|
            && forall server: nat | server < |w.peers| :: 1 <= peer.nextIndex[server] <= |peer.logs| + 1
  {
    assert Unsealed(ClusterSeal);
    assert PeerOk(w, h, p);
    LastIndexIsLength(w, h, p);
    forall server: nat | server < |w.peers| ensures 1 <= w.peers[p].nextIndex[server] <= |w.peers[p].logs| + 1 {
      assert ProgressOk(h, p, w.peers[p], server);
    }
  }

  lemma HeartbeatKeeps(w: World, h: Proto, p: nat, server: nat)
    requires Inv(w, h) && p < |w.peers| && w.peers[p].status == Leader && server < |w.peers| && server != p
    ensures Inv(AfterSend(w, AppendMsg(server, Heartbeat(w.peers[p], p))), h)
  {
    LeaderFacts(w, h, p);
    SendKeeps(w, h, p, AppendMsg(server, Heartbeat(w.peers[p], p)));
  }

  lemma EntriesKeep(w: World, h: Proto, p: nat, server: nat)
    requires Inv(w, h) && p < |w.peers| && w.peers[p].status == Leader && server < |w.peers| && server != p
    ensures Addressable(w.peers[p], server)
    ensures var args := Broadcast(w.peers[p], p, server);
            args.Some? ==> Inv(AfterSend(w, AppendMsg(server, args.value)), h)
  {
    LeaderFacts(w, h, p);
    var args := Broadcast(w.peers[p], p, server);
    if args.Some? {
      assert args.value.prevLogIndex == w.peers[p].nextIndex[server] - 1;
      SendKeeps(w, h, p, AppendMsg(server, args.value));
    }
  }

  // ----- receiving: small moves

  /** A server that follows. */
  lemma FollowerKeeps(w: World, h: Proto, p: nat)
    requires Inv(w, h) && p < |w.peers|
    ensures Inv(SetPeer(w, p, w.peers[p].(status := Follower), []), h)
  {
    assert Unsealed(ClusterSeal);
    var w' := SetPeer(w, p, w.peers[p].(status := Follower), []);
    assert PeerOk(w, h, p);
    ExtendsSelf(h);
    assert PeerOk(w', h, p);
    MessagesKept(w, h, w', h);
    Assemble(w, h, w', h, p);
  }

  /** Leader Completeness, as used: what is committed up to a term is in that term's leader's log. */
  lemma CommitInLeader(h: Proto, log: Log, t: int, c: int)
    requires ProtoInv(h) && CommitOk(h, log, t, c) && t in h.leaders && 0 <= c <= |log|
    ensures c <= |h.leaders[t].log| && log[..c] == h.leaders[t].log[..c]
  {
    if c > 0 {
      var t0, i0 :| CommitsTo(h, log, t, c, t0, i0);
      if t0 < t {
        assert Unsealed(ProtocolSeal);
        LeaderCompleteness(h, t0, i0, t);
        var r := h.leaders[t];
        PrefixAt(h.leaders[t0].log, r.log, i0, c);
      }
    }
  }

  /** What a server has committed is in the log of its term's leader. */
  lemma CommittedAgrees(w: World, h: Proto, p: nat)
    requires Inv(w, h) && p < |w.peers| && w.peers[p].currentTerm in h.leaders
    ensures var peer := w.peers[p];
            var leaderLog := h.leaders[peer.currentTerm].log;
            && 0 <= peer.commitIndex <= |peer.logs| && peer.commitIndex <= |leaderLog|
            && peer.logs[..peer.commitIndex] == leaderLog[..peer.commitIndex]
  {
    assert Unsealed(ClusterSeal);
    var peer := w.peers[p];
    assert PeerOk(w, h, p);
    CommitInLeader(h, peer.logs, peer.currentTerm, peer.commitIndex);
  }

  ghost predicate CanFollow(w: World, h: Proto, p: nat, log': Log) {
    && p < |w.peers|
    && w.peers[p].status == Follower
    && w.peers[p].currentTerm in h.leaders
    && Between(w.peers[p].logs, h.leaders[w.peers[p].currentTerm].log, log')
  }

  lemma FollowAllowed(w: World, h: Proto, p: nat, log': Log)
    requires Inv(w, h) && CanFollow(w, h, p, log')
    ensures ProtoInv(Follow(h, p, log')) && Extends(h, Follow(h, p, log'))
  {
    assert Unsealed(ClusterSeal) && Unsealed(ProtocolSeal);
    FollowKeeps(h, p, log');
  }

  ghost function AfterMove(w: World, p: nat, log': Log): World
    requires IsServer(w, p)
  {
    var peer := w.peers[p].(logs := log');
    SetPeer(w, p, peer, [Saved(peer)])
  }

  lemma MovedPeer(w: World, h: Proto, p: nat, log': Log)
    requires Inv(w, h) && CanFollow(w, h, p, log') && Extends(h, Follow(h, p, log'))
    ensures PeerOk(AfterMove(w, p, log'), Follow(h, p, log'), p)
    ensures Linked(AfterMove(w, p, log'), Follow(h, p, log'))
  {
    CommittedAgrees(w, h, p);
    assert Unsealed(ClusterSeal);
    var peer, h' := w.peers[p], Follow(h, p, log');
    assert PeerOk(w, h, p);
    CommitOkGrows(h, h', peer.logs, log', peer.currentTerm, peer.currentTerm, peer.commitIndex);
  }

  /** The log moves towards the leader's and is saved. */
  lemma MoveKeeps(w: World, h: Proto, p: nat, log': Log)
    requires Inv(w, h) && CanFollow(w, h, p, log')
    ensures Inv(AfterMove(w, p, log'), Follow(h, p, log')) && Extends(h, Follow(h, p, log'))
  {
    var w', h' := AfterMove(w, p, log'), Follow(h, p, log');
    FollowAllowed(w, h, p, log');
    MovedPeer(w, h, p, log');
    MessagesKept(w, h, w', h');
    Assemble(w, h, w', h', p);
  }

  lemma AckAllowed(w: World, h: Proto, p: nat, end: nat)
    requires Inv(w, h) && p < |w.peers| && w.peers[p].currentTerm in h.leaders
    requires var leaderLog := h.leaders[w.peers[p].currentTerm].log; end <= |leaderLog| && leaderLog[..end] <= w.peers[p].logs
    ensures h.terms[p] == w.peers[p].currentTerm
    ensures var h' := Acknowledge(h, p, end); ProtoInv(h') && Extends(h, h') && AckedUpTo(h', p, w.peers[p].currentTerm, end)
  {
    assert Unsealed(ClusterSeal) && Unsealed(ProtocolSeal);
    AcknowledgeKeeps(h, p, end);
  }

  /** Acknowledging is a matter of history only. */
  lemma AckKeeps(w: World, h: Proto, p: nat, end: nat) returns (h': Proto)
    requires Inv(w, h) && p < |w.peers| && w.peers[p].currentTerm in h.leaders
    requires var leaderLog := h.leaders[w.peers[p].currentTerm].log; end <= |leaderLog| && leaderLog[..end] <= w.peers[p].logs
    ensures Inv(w, h') && Extends(h, h') && h'.leaders == h.leaders && AckedUpTo(h', p, w.peers[p].currentTerm, end)
  {
    AckAllowed(w, h, p, end);
    h' := Acknowledge(h, p, end);
    AckedPeer(w, h, p, h');
    LinkHolds(w, h);
    MessagesKept(w, h, w, h');
    Assemble(w, h, w, h', p);
  }

  lemma AckedPeer(w: World, h: Proto, p: nat, h': Proto)
    requires Inv(w, h) && p < |w.peers| && Extends(h, h')
    requires h'.leaders == h.leaders && h'.votes == h.votes && h'.bids == h.bids
    ensures PeerOk(w, h', p)
  {
    assert Unsealed(ClusterSeal);
    var peer := w.peers[p];
    assert PeerOk(w, h, p);
    CommitOkGrows(h, h', peer.logs, peer.logs, peer.currentTerm, peer.currentTerm, peer.commitIndex);
    if peer.status == Leader {
      forall server: nat | server < |w.peers| ensures ProgressOk(h', p, peer, server) {
        assert ProgressOk(h, p, peer, server);
        if server != p { AckedGrows(h, h', server, peer.currentTerm, peer.matchIndex[server]); }
      }
    }
  }

  ghost function WithCommit(w: World, p: nat, c: int): World
    requires IsServer(w, p)
  {
    SetPeer(w, p, w.peers[p].(commitIndex := c), [])
  }

  lemma CommitKeeps(w: World, h: Proto, p: nat, c: int)
    requires Inv(w, h) && p < |w.peers|
    requires w.peers[p].commitIndex <= c <= |w.peers[p].logs| && CommitOk(h, w.peers[p].logs, w.peers[p].currentTerm, c)
    ensures Inv(WithCommit(w, p, c), h)
  {
    assert Unsealed(ClusterSeal);
    var w', peer := WithCommit(w, p, c), w.peers[p];
    assert PeerOk(w, h, p);
    ExtendsSelf(h);
    if peer.status == Leader {
      forall server: nat | server < |w.peers| ensures ProgressOk(h, p, w'.peers[p], server) {
        assert ProgressOk(h, p, peer, server);
      }
    }
    assert PeerOk(w', h, p);
    MessagesKept(w, h, w', h);
    Assemble(w, h, w', h, p);
  }

  ghost function WithAnswer(w: World, a: AppendAnswer): World {
    w.(answers := w.answers + {a})
  }

  lemma AnswerKeeps(w: World, h: Proto, a: AppendAnswer)
    requires Inv(w, h) && AnswerOk(w, h, a) && a.server < |w.peers|
    ensures Inv(WithAnswer(w, a), h)
  {
    assert Unsealed(ClusterSeal);
    var w' := WithAnswer(w, a);
    ExtendsSelf(h);
    assert PeerOk(w, h, a.server);
    assert PeerOk(w', h, a.server);
    MessagesKept(w, h, w', h);
    Assemble(w, h, w', h, a.server);
  }

  // ----- receiving: the whole handler

  lemma MessageHolds(w: World, h: Proto, m: AppendMsg)
    requires Inv(w, h) && m in w.appends
    ensures AppendOk(h, |w.peers|, m) && Extends(h, h)
  {
    assert Unsealed(ClusterSeal);
  }

  lemma ServerLog(w: World, h: Proto, p: nat)
    requires Inv(w, h) && p < |w.peers|
    ensures LogOk(h.leaders, w.peers[p].logs) && w.peers[p].snapshotIndex == 0 && !w.peers[p].hasSnapshot
  {
    assert Unsealed(ClusterSeal) && Unsealed(ProtocolSeal);
    assert PeerOk(w, h, p);
  }

  lemma LeaderLog(w: World, h: Proto, t: int)
    requires Inv(w, h) && t in h.leaders
    ensures t >= 1 && LogOk(h.leaders, h.leaders[t].log) && Numbered(h.leaders[t].log, 0)
  {
    assert Unsealed(ClusterSeal) && Unsealed(ProtocolSeal);
    assert ReignOk(h, t);
    var log := h.leaders[t].log;
    forall k | 0 <= k < |log| ensures log[k].index == k + 1 { assert EntryOk(h.leaders, log, k); }
  }

  /** The follower's log and the leader's agree up to where a matching message starts. */
  lemma AgreeBefore(w: World, h: Proto, m: AppendMsg)
    requires Inv(w, h) && m in w.appends && m.server < |w.peers| && !Mismatch(w.peers[m.server], m.args)
    ensures m.args.term in h.leaders
    ensures var logs, leaderLog, prev := w.peers[m.server].logs, h.leaders[m.args.term].log, m.args.prevLogIndex;
            && 0 <= prev <= |logs| && prev + |m.args.entries| <= |leaderLog|
            && logs[..prev] == leaderLog[..prev]
            && m.args.entries == leaderLog[prev..prev + |m.args.entries|]
  {
    MessageHolds(w, h, m);
    ServerLog(w, h, m.server);
    LeaderLog(w, h, m.args.term);
    var prev := m.args.prevLogIndex;
    if prev > 0 { LogMatching(h.leaders, w.peers[m.server].logs, h.leaders[m.args.term].log, prev - 1); }
  }

  /** A message's stretch, on a log that matches before it: the protocol's view. */
  lemma AcceptBetween(w: World, h: Proto, m: AppendMsg)
    requires Inv(w, h) && m in w.appends && m.server < |w.peers|
    requires w.peers[m.server].currentTerm == m.args.term && !Mismatch(w.peers[m.server], m.args)
    requires m.args.term in h.leaders
    ensures m.args.prevLogIndex >= 0
    ensures Accepted(w.peers[m.server].logs, h.leaders[m.args.term].log, m.args.entries, m.args.prevLogIndex + |m.args.entries|)
  {
    AgreeBefore(w, h, m);
    ServerLog(w, h, m.server);
    LeaderLog(w, h, m.args.term);
    AcceptedEntries(h, w.peers[m.server].logs, h.leaders[m.args.term].log, m.args.prevLogIndex, m.args.entries);
  }

  lemma AcceptedEntries(h: Proto, log: Log, leaderLog: Log, prev: nat, entries: Log)
    requires LogOk(h.leaders, log) && LogOk(h.leaders, leaderLog) && Numbered(leaderLog, 0)
    requires prev + |entries| <= |leaderLog| && prev <= |log| && log[..prev] == leaderLog[..prev]
    requires entries == leaderLog[prev..prev + |entries|]
    ensures Accepted(log, leaderLog, entries, prev + |entries|)
  {
    AcceptedLog(h.leaders, log, leaderLog, prev, prev + |entries|);
  }

  /** A rejection for a mismatch reports the conflict truthfully. */
  lemma RejectionOk(w: World, h: Proto, m: AppendMsg)
    requires Inv(w, h) && m in w.appends && m.server < |w.peers|
    requires w.peers[m.server].currentTerm == m.args.term && Mismatch(w.peers[m.server], m.args)
    ensures AnswerOk(w, h, AppendAnswer(m.server, m.args, Rejection(w.peers[m.server], m.args)))
    ensures NamesConflict(w.peers[m.server].logs, m.args.prevLogIndex, Rejection(w.peers[m.server], m.args))
  {
    var peer, prev := w.peers[m.server], m.args.prevLogIndex;
    MessageHolds(w, h, m);
    ServerLog(w, h, m.server);
    if prev <= |peer.logs| {
      var ct := peer.logs[prev - 1].term;
      assert EntryOk(h.leaders, peer.logs, prev - 1);
      LeaderLog(w, h, ct);
      assert peer.logs[..prev][prev - 1] == h.leaders[ct].log[..prev][prev - 1];
      assert peer.logs[0..] == peer.logs;
      FirstIndexIsFirst(h, peer.logs, ct, 0, prev - 1);
    }
  }

  /** A rejection names no conflict when the log is too short, and otherwise the term of the
      entry at `prev` and the first index of that term. */
  ghost predicate NamesConflict(logs: Log, prev: int, reply: AppendEntriesReply) {
    && prev >= 1
    && (reply.conflictingTerm == 0 <==> prev > |logs|)
    && (prev <= |logs| ==>
          && reply.conflictingTerm == logs[prev - 1].term
          && IsFirstOf(logs, reply.conflictingTerm, 0, reply.firstConflictingIndex))
  }

  /** Among the entries beyond `from`, `index` is where `term` starts. */
  ghost predicate IsFirstOf(logs: Log, term: int, from: nat, index: int) {
    && from + 1 <= index <= |logs|
    && logs[index - 1].term == term
    && forall i | from <= i < index - 1 :: logs[i].term != term
  }

  lemma {:induction false} FirstIndexIsFirst(h: Proto, logs: Log, term: int, from: nat, k: nat)
    requires LogOk(h.leaders, logs) && from <= k < |logs| && logs[k].term == term
    ensures FirstIndexOf(logs[from..], term) <= k + 1
    ensures IsFirstOf(logs, term, from, FirstIndexOf(logs[from..], term))
    decreases k - from
  {
    assert EntryOk(h.leaders, logs, from);
    assert logs[from..][0] == logs[from];
    if logs[from].term != term {
      assert logs[from..][1..] == logs[from + 1..];
      FirstIndexIsFirst(h, logs, term, from + 1, k);
    }
  }

  ghost predicate CanAccept(w: World, h: Proto, m: AppendMsg) {
    && m in w.appends && m.server < |w.peers|
    && w.peers[m.server].status == Follower
    && w.peers[m.server].currentTerm == m.args.term
    && !Mismatch(w.peers[m.server], m.args)
    && m.args.term in h.leaders
  }

  ghost function NewLog(p: Peer, args: AppendEntriesArgs): Log {
    AppendNew(Truncate(p.logs, 0, args.entries), 0, args.entries)
  }

  ghost function NewCommit(p: Peer, args: AppendEntriesArgs): int {
    CommitFrom(p, Truncate(p.logs, 0, args.entries), args.leaderCommit)
  }

  /** The bound taken before appending does not pull the commit index back. */
  lemma CommitFromBounds(peer: Peer, cut: Log, leaderCommit: int)
    requires 0 <= peer.commitIndex <= |cut| && (cut != [] ==> cut[|cut| - 1].index == |cut|)
    ensures var c' := CommitFrom(peer, cut, leaderCommit);
            peer.commitIndex <= c' && (c' == peer.commitIndex || 0 <= c' <= leaderCommit)
  {
  }

  lemma KeptCommit(w: World, h: Proto, m: AppendMsg)
    requires Inv(w, h) && CanAccept(w, h, m)
    ensures var peer := w.peers[m.server];
            var log', leaderLog, c := NewLog(peer, m.args), h.leaders[m.args.term].log, peer.commitIndex;
            && 0 <= c <= |Truncate(peer.logs, 0, m.args.entries)|
            && c <= |log'| && c <= |leaderLog| && log'[..c] == leaderLog[..c]
            && CommitOk(h, log', m.args.term, c)
  {
    var peer, t := w.peers[m.server], m.args.term;
    CommittedAgrees(w, h, m.server);
    AcceptBetween(w, h, m);
    CommitHolds(w, h, m.server);
    LinkHolds(w, h);
    CommitOkGrows(h, h, peer.logs, NewLog(peer, m.args), t, t, peer.commitIndex);
  }

  lemma LeaderCommitReached(w: World, h: Proto, m: AppendMsg, c: int)
    requires Inv(w, h) && CanAccept(w, h, m) && 0 <= c <= m.args.leaderCommit
    ensures var log', leaderLog := NewLog(w.peers[m.server], m.args), h.leaders[m.args.term].log;
            c <= |log'| && c <= |leaderLog| && log'[..c] == leaderLog[..c] && CommitOk(h, log', m.args.term, c)
  {
    var log', leaderLog, t := NewLog(w.peers[m.server], m.args), h.leaders[m.args.term].log, m.args.term;
    MessageHolds(w, h, m);
    AcceptBetween(w, h, m);
    PrefixAt(log', leaderLog, m.args.prevLogIndex + |m.args.entries|, c);
    CommitShrinks(h, leaderLog, t, m.args.leaderCommit, c);
    CommitOkGrows(h, h, leaderLog, log', t, t, c);
  }

  /** The follower's commit index never goes back, stays within its log, and covers only what
      it shares with the leader, although its bound is the log before appending. */
  lemma CommitCoverage(w: World, h: Proto, m: AppendMsg)
    requires Inv(w, h) && CanAccept(w, h, m)
    ensures var peer := w.peers[m.server];
            var log', c' := NewLog(peer, m.args), NewCommit(peer, m.args);
            && peer.commitIndex <= c' <= |log'|
            && CommitOk(h, log', m.args.term, c')
            && c' <= |h.leaders[m.args.term].log| && log'[..c'] == h.leaders[m.args.term].log[..c']
  {
    var peer := w.peers[m.server];
    KeptCommit(w, h, m);
    LastOfCut(w, h, m);
    CommitFromBounds(peer, Truncate(peer.logs, 0, m.args.entries), m.args.leaderCommit);
    if NewCommit(peer, m.args) != peer.commitIndex {
      LeaderCommitReached(w, h, m, NewCommit(peer, m.args));
    }
  }

  lemma CommitHolds(w: World, h: Proto, p: nat)
    requires Inv(w, h) && p < |w.peers|
    ensures CommitFieldsOk(h, w.peers[p])
  {
    assert Unsealed(ClusterSeal);
    assert PeerOk(w, h, p);
  }

  /** A shorter prefix of something committed is committed. */
  lemma CommitShrinks(h: Proto, log: Log, t: int, c: int, c': int)
    requires CommitOk(h, log, t, c) && 0 <= c' <= c <= |log|
    ensures CommitOk(h, log, t, c')
  {
    if c' > 0 {
      var t0, i0 :| CommitsTo(h, log, t, c, t0, i0);
      PrefixAt(log, h.leaders[t0].log, c, c');
      assert CommitsTo(h, log, t, c', t0, i0);
    }
  }

  lemma LastOfCut(w: World, h: Proto, m: AppendMsg)
    requires Inv(w, h) && CanAccept(w, h, m)
    ensures var cut := Truncate(w.peers[m.server].logs, 0, m.args.entries);
            cut != [] ==> cut[|cut| - 1].index == |cut|
  {
    LastIndexIsLength(w, h, m.server);
    CutIsPrefix(w.peers[m.server].logs, 0, m.args.entries);
  }

  /** Each record saved while accepting holds a log between the old one and the leader's. */
  lemma AcceptSave(p: Peer, args: AppendEntriesArgs, leaderLog: Log, end: nat, k: nat) returns (log': Log)
    requires p.snapshotIndex == 0 && Accepted(p.logs, leaderLog, args.entries, end)
    requires k < |Accept(p, args).saves|
    ensures Accept(p, args).saves[k] == Saved(p.(logs := log')) && Between(p.logs, leaderLog, log')
  {
    var cut := Truncate(p.logs, 0, args.entries);
    var stages := AppendStages(cut, 0, args.entries);
    var n := if |cut| < |p.logs| then 1 else 0;
    log' := if k < n then cut else stages[k - n];
  }

  /** The log moves between the old one and the leader's; the last record saved holds it. */
  lemma AcceptMove(p: Peer, args: AppendEntriesArgs, leaderLog: Log, end: nat)
    requires p.snapshotIndex == 0 && Accepted(p.logs, leaderLog, args.entries, end)
    ensures Between(p.logs, leaderLog, NewLog(p, args))
    ensures var saves, log' := Accept(p, args).saves, NewLog(p, args);
            if saves == [] then log' == p.logs else saves[|saves| - 1] == Saved(p.(logs := log'))
  {
    var cut := Truncate(p.logs, 0, args.entries);
    var stages := AppendStages(cut, 0, args.entries);
    CutIsPrefix(p.logs, 0, args.entries);
    if stages == [] && |cut| == |p.logs| { assert cut == p.logs; }
  }

  lemma AcceptedMove(w: World, h: Proto, m: AppendMsg)
    requires Inv(w, h) && CanAccept(w, h, m)
    ensures var peer := w.peers[m.server];
            var saves, log' := Accept(peer, m.args).saves, NewLog(peer, m.args);
            && Between(peer.logs, h.leaders[m.args.term].log, log')
            && if saves == [] then log' == peer.logs else saves[|saves| - 1] == Saved(peer.(logs := log'))
  {
    MessageHolds(w, h, m);
    AcceptBetween(w, h, m);
    ServerLog(w, h, m.server);
    AcceptMove(w.peers[m.server], m.args, h.leaders[m.args.term].log, m.args.prevLogIndex + |m.args.entries|);
  }

  /** First the log moves. */
  lemma AcceptMoves(w: World, h: Proto, m: AppendMsg) returns (h1: Proto)
    requires Inv(w, h) && CanAccept(w, h, m)
    ensures var peer := w.peers[m.server];
            Inv(SetPeer(w, m.server, peer.(logs := NewLog(peer, m.args)), Accept(peer, m.args).saves), h1)
    ensures Extends(h, h1) && h1.leaders == h.leaders
  {
    var v, peer := m.server, w.peers[m.server];
    AcceptedMove(w, h, m);
    h1 := MovesTo(w, h, v, NewLog(peer, m.args), Accept(peer, m.args).saves);
  }

  lemma MovesTo(w: World, h: Proto, v: nat, log': Log, saves: seq<Data>) returns (h1: Proto)
    requires Inv(w, h) && v < |w.peers| && w.peers[v].status == Follower && w.peers[v].currentTerm in h.leaders
    requires Between(w.peers[v].logs, h.leaders[w.peers[v].currentTerm].log, log')
    requires var peer := w.peers[v];
             if saves == [] then log' == peer.logs else saves[|saves| - 1] == Saved(peer.(logs := log'))
    ensures Inv(SetPeer(w, v, w.peers[v].(logs := log'), saves), h1)
    ensures Extends(h, h1) && h1.leaders == h.leaders
  {
    var peer := w.peers[v];
    if saves == [] {
      h1 := h;
      ExtendsSelf(h);
      assert SetPeer(w, v, peer, []) == w;
    } else {
      MoveKeeps(w, h, v, log');
      h1 := Follow(h, v, log');
      assert SetPeer(w, v, peer.(logs := log'), saves) == AfterMove(w, v, log');
    }
  }

  /** Then the follower acknowledges, takes over the commit index and answers. */
  lemma AcceptAnswers(w: World, h: Proto, m: AppendMsg, c': int) returns (h': Proto)
    requires Inv(w, h) && m in w.appends && m.server < |w.peers|
    requires w.peers[m.server].currentTerm == m.args.term && m.args.term in h.leaders && m.args.prevLogIndex >= 0
    requires var end, leaderLog := m.args.prevLogIndex + |m.args.entries|, h.leaders[m.args.term].log;
             end <= |leaderLog| && leaderLog[..end] <= w.peers[m.server].logs
    requires w.peers[m.server].commitIndex <= c' <= |w.peers[m.server].logs|
    requires CommitOk(h, w.peers[m.server].logs, m.args.term, c')
    ensures Inv(WithAnswer(WithCommit(w, m.server, c'), AppendAnswer(m.server, m.args, AppendEntriesReply(m.args.term, true, 0, 0))), h')
    ensures Extends(h, h')
  {
    var v, t, logs := m.server, m.args.term, w.peers[m.server].logs;
    CommitHolds(w, h, v);
    h' := AckKeeps(w, h, v, m.args.prevLogIndex + |m.args.entries|);
    CommitOkGrows(h, h', logs, logs, t, t, c');
    CommitKeeps(w, h', v, c');
    AnswerKeeps(WithCommit(w, v, c'), h', AppendAnswer(v, m.args, AppendEntriesReply(t, true, 0, 0)));
  }

  lemma AcceptKeeps(w: World, h: Proto, m: AppendMsg) returns (h': Proto)
    requires Inv(w, h) && CanAccept(w, h, m)
    ensures var r := Accept(w.peers[m.server], m.args);
            Inv(WithAnswer(SetPeer(w, m.server, r.peer, r.saves), AppendAnswer(m.server, m.args, r.reply)), h')
    ensures Extends(h, h')
  {
    var v, peer, t := m.server, w.peers[m.server], m.args.term;
    var r, log', c' := Accept(peer, m.args), NewLog(peer, m.args), NewCommit(peer, m.args);
    CommitCoverage(w, h, m);
    AcceptBetween(w, h, m);
    var h1 := AcceptMoves(w, h, m);
    var w1 := SetPeer(w, v, peer.(logs := log'), r.saves);
    CommitOkGrows(h, h1, log', log', t, t, c');
    ServerLog(w, h, v);
    h' := AcceptAnswers(w1, h1, m, c');
    ExtendsTransitive(h, h1, h');
    SetTwice(w, v, peer.(logs := log'), r.saves, r.peer, []);
    assert r.saves + [] == r.saves;
  }

  /** A leader gets no append message of its own term. */
  lemma NotOwnTerm(w: World, h: Proto, m: AppendMsg)
    requires Inv(w, h) && m in w.appends && m.server < |w.peers| && w.peers[m.server].currentTerm == m.args.term
    ensures w.peers[m.server].status != Leader
  {
    assert Unsealed(ClusterSeal);
    assert AppendOk(h, |w.peers|, m);
    assert PeerOk(w, h, m.server);
  }

  /** Handling a message is giving way, following, and then accepting or rejecting. */
  lemma AppendInTerm(p: Peer, args: AppendEntriesArgs)
    requires var p1 := StepDown(p, args.term); p1.currentTerm == args.term && p1.status != Leader
    ensures var p2, r := StepDown(p, args.term).(status := Follower), OnAppendEntries(p, args);
            && Mismatch(p2, args) == Mismatch(StepDown(p, args.term), args)
            && (Mismatch(p2, args) ==>
                  r.peer == p2 && r.reply == Rejection(p2, args) && r.saves == StepDownSaves(p, args.term))
            && (!Mismatch(p2, args) ==>
                  var a := Accept(p2, args); r.peer == a.peer && r.reply == a.reply && r.saves == StepDownSaves(p, args.term) + a.saves)
  {
    var p1 := StepDown(p, args.term);
    var p2 := p1.(status := Follower);
    var cut := Truncate(p1.logs, p1.snapshotIndex, args.entries);
    var stages := AppendStages(cut, p1.snapshotIndex, args.entries);
    assert SavedStages(p2, stages) == SavedStages(p1, stages);
  }

  lemma StaleAppendKeeps(w: World, h: Proto, m: AppendMsg)
    requires Inv(w, h) && m in w.appends && IsServer(w, m.server) && m.args.term < w.peers[m.server].currentTerm
    ensures Inv(AfterAppend(w, m), h) && OnAppendEntries(w.peers[m.server], m.args).saves == []
  {
    var peer := w.peers[m.server];
    var a := AppendAnswer(m.server, m.args, AppendEntriesReply(peer.currentTerm, false, 0, 0));
    assert SetPeer(w, m.server, peer, []) == w;
    AnswerKeeps(w, h, a);
    assert AfterAppend(w, m) == WithAnswer(w, a);
  }

  /** Give way to the message's term and follow. */
  lemma PrepareAppend(w: World, h: Proto, m: AppendMsg) returns (h': Proto)
    requires Inv(w, h) && m in w.appends && IsServer(w, m.server) && m.args.term >= w.peers[m.server].currentTerm
    ensures var peer := w.peers[m.server];
            var p2 := StepDown(peer, m.args.term).(status := Follower);
            && StepDown(peer, m.args.term).currentTerm == m.args.term && StepDown(peer, m.args.term).status != Leader
            && Inv(SetPeer(w, m.server, p2, StepDownSaves(peer, m.args.term)), h')
    ensures Extends(h, h') && m.args.term in h'.leaders
    ensures Inv(AfterStepDown(w, m.server, m.args.term), h')
  {
    var v, peer, t := m.server, w.peers[m.server], m.args.term;
    h' := StepDownKeeps(w, h, v, t);
    var w1 := AfterStepDown(w, v, t);
    MessageHolds(w1, h', m);
    NotOwnTerm(w1, h', m);
    FollowerKeeps(w1, h', v);
    SetTwice(w, v, StepDown(peer, t), StepDownSaves(peer, t), StepDown(peer, t).(status := Follower), []);
    assert StepDownSaves(peer, t) + [] == StepDownSaves(peer, t);
  }

  lemma AppendKeeps(w: World, h: Proto, m: AppendMsg) returns (h': Proto)
    requires Inv(w, h) && m in w.appends && IsServer(w, m.server)
    ensures Inv(AfterAppend(w, m), h') && Extends(h, h')
  {
    var v, peer, t := m.server, w.peers[m.server], m.args.term;
    if t < peer.currentTerm {
      LinkHolds(w, h);
      StaleAppendKeeps(w, h, m);
      h' := h;
    } else {
      h' := PrepareAppend(w, h, m);
      var p2, saves := StepDown(peer, t).(status := Follower), StepDownSaves(peer, t);
      var w2 := SetPeer(w, v, p2, saves);
      AppendInTerm(peer, m.args);
      if Mismatch(p2, m.args) {
        RejectionOk(w2, h', m);
        AnswerKeeps(w2, h', AppendAnswer(v, m.args, Rejection(p2, m.args)));
      } else {
        var h2 := AcceptKeeps(w2, h', m);
        ExtendsTransitive(h, h', h2);
        var a := Accept(p2, m.args);
        SetTwice(w, v, p2, saves, a.peer, a.saves);
        h' := h2;
      }
    }
  }

  lemma CrashAfterMove(w: World, p: nat, log': Log)
    requires IsServer(w, p) && !w.peers[p].hasSnapshot
    ensures var data := Saved(w.peers[p].(logs := log'));
            AfterCrash(AfterMove(w, p, log'), p) == RestartFrom(w, p, data)
  {
    var data := Saved(w.peers[p].(logs := log'));
    var w1 := AfterMove(w, p, log');
    assert w1.peers[p := Restart(Some(data), false)] == w.peers[p := Restart(Some(data), false)];
  }

  /** A follower that crashes after any record it saves: as if it had done as much and then
      crashed. */
  lemma CrashInAppendKeeps(w: World, h: Proto, m: AppendMsg, k: nat) returns (h': Proto)
    requires Inv(w, h) && m in w.appends && IsServer(w, m.server)
    requires k < |OnAppendEntries(w.peers[m.server], m.args).saves|
    ensures Inv(AfterCrashInAppend(w, m, k), h') && Extends(h, h')
  {
    var v, peer, t := m.server, w.peers[m.server], m.args.term;
    var data := OnAppendEntries(peer, m.args).saves[k];
    if t < peer.currentTerm { StaleAppendKeeps(w, h, m); }
    h' := PrepareAppend(w, h, m);
    var p2, saves := StepDown(peer, t).(status := Follower), StepDownSaves(peer, t);
    AppendInTerm(peer, m.args);
    if k < |saves| {
      var w1 := AfterStepDown(w, v, t);
      CrashKeeps(w1, h', v);
      assert w1.peers[v := Restart(Some(data), false)] == w.peers[v := Restart(Some(data), false)];
      assert AfterCrash(w1, v) == AfterCrashInAppend(w, m, k);
    } else {
      var w2 := SetPeer(w, v, p2, saves);
      var h2 := CrashInAccept(w2, h', m, k - |saves|);
      ExtendsTransitive(h, h', h2);
      h' := h2;
      SetTwice(w, v, p2, saves, Restart(Some(data), false), [data]);
      assert LastSave(w.disk[v], saves + [data]) == Some(data);
    }
  }

  lemma CrashInAccept(w: World, h: Proto, m: AppendMsg, k: nat) returns (h': Proto)
    requires Inv(w, h) && CanAccept(w, h, m) && k < |Accept(w.peers[m.server], m.args).saves|
    ensures var data := Accept(w.peers[m.server], m.args).saves[k];
            Inv(RestartFrom(w, m.server, data), h')
    ensures Extends(h, h')
  {
    var v, peer, t := m.server, w.peers[m.server], m.args.term;
    AcceptBetween(w, h, m);
    ServerLog(w, h, v);
    var log' := AcceptSave(peer, m.args, h.leaders[t].log, m.args.prevLogIndex + |m.args.entries|, k);
    MoveKeeps(w, h, v, log');
    h' := Follow(h, v, log');
    CrashKeeps(AfterMove(w, v, log'), h', v);
    CrashAfterMove(w, v, log');
  }

  // ----- the leader hears back

  /** The servers other than `me` known to hold index `n`. */
  ghost function Holders(matchIndex: seq<int>, me: nat, n: int): set<nat> {
    set s: nat | s < |matchIndex| && s != me && matchIndex[s] >= n
  }

  lemma {:induction false} CountIsHolders(matchIndex: seq<int>, me: nat, n: int)
    ensures CountMatching(matchIndex, me, n) == |Holders(matchIndex, me, n)|
  {
    if matchIndex != [] {
      var idx := |matchIndex| - 1;
      var front := matchIndex[..idx];
      CountIsHolders(front, me, n);
      var before, after := Holders(front, me, n), Holders(matchIndex, me, n);
      assert idx !in before;
      if idx != me && matchIndex[idx] >= n {
        assert after == before + {idx};
      } else {
        assert after == before;
      }
    } else {
      assert Holders(matchIndex, me, n) == {};
    }
  }

  /** The scan finds the last committable index, if there is one. */
  lemma {:induction false} ScanFindsLast(p: Peer, me: nat, n: int, commit: int)
    requires commit < n
    ensures var c := ScanCommit(p, me, n, commit);
            && (c == commit || (n <= c && Committable(p, me, c)))
            && forall j | n <= j && Committable(p, me, j) :: j <= c
    decreases p.snapshotIndex + |p.logs| + 1 - n
  {
    if n <= p.snapshotIndex + |p.logs| {
      ScanFindsLast(p, me, n + 1, if Committable(p, me, n) then n else commit);
    }
  }

  /** The current-term majority rule commits. */
  lemma MajorityCommits(w: World, h: Proto, p: nat, n: int)
    requires Inv(w, h) && p < |w.peers| && w.peers[p].status == Leader && Committable(w.peers[p], p, n)
    ensures CommitOk(h, w.peers[p].logs, w.peers[p].currentTerm, n) && 1 <= n <= |w.peers[p].logs|
    ensures Committed(h, w.peers[p].currentTerm, n)
  {
    assert Unsealed(ClusterSeal);
    var peer, t := w.peers[p], w.peers[p].currentTerm;
    assert PeerOk(w, h, p);
    assert IsLeaderEntry(h, t, n);
    var holders := Holders(peer.matchIndex, p, n);
    CountIsHolders(peer.matchIndex, p, n);
    var q := {p} + holders;
    assert p !in holders;
    assert |q| == 1 + |holders|;
    OwnEntries(w, h, t, n);
    forall v | v in q ensures v < |h.terms| && (v, t, n) in h.acks {
      if v != p { assert ProgressOk(h, p, peer, v); }
    }
    assert CommittedBy(h, t, n, q);
    assert CommitsTo(h, peer.logs, t, n, t, n);
  }

  lemma OwnEntries(w: World, h: Proto, t: int, i: int)
    requires Inv(w, h) && IsLeaderEntry(h, t, i)
    ensures (h.leaders[t].leader, t, i) in h.acks
  {
    assert Unsealed(ClusterSeal) && Unsealed(ProtocolSeal);
    LeaderAcks(h, t, i);
  }

  lemma UpdateCommitKeeps(w: World, h: Proto, p: nat)
    requires Inv(w, h) && p < |w.peers| && w.peers[p].status == Leader
    ensures Inv(SetPeer(w, p, UpdateCommit(w.peers[p], p), []), h)
  {
    var peer := w.peers[p];
    var c := ScanCommit(peer, p, peer.commitIndex + 1, peer.commitIndex);
    ScanFindsLast(peer, p, peer.commitIndex + 1, peer.commitIndex);
    CommitHolds(w, h, p);
    if c != peer.commitIndex { MajorityCommits(w, h, p, c); }
    CommitKeeps(w, h, p, c);
  }

  ghost function WithProgress(peer: Peer, server: nat, next: int, match_: int): Peer
    requires server < |peer.nextIndex| == |peer.matchIndex|
  {
    peer.(nextIndex := peer.nextIndex[server := next], matchIndex := peer.matchIndex[server := match_])
  }

  lemma ProgressKeeps(w: World, h: Proto, p: nat, server: nat, next: int, match_: int)
    requires Inv(w, h) && p < |w.peers| && w.peers[p].status == Leader && server < |w.peers|
    requires server < |w.peers[p].nextIndex| == |w.peers[p].matchIndex|
    requires 1 <= next <= |w.peers[p].logs| + 1 && 0 <= match_ <= |w.peers[p].logs|
    requires server != p ==> AckedUpTo(h, server, w.peers[p].currentTerm, match_)
    ensures Inv(SetPeer(w, p, WithProgress(w.peers[p], server, next, match_), []), h)
  {
    assert Unsealed(ClusterSeal);
    var peer := w.peers[p];
    var peer' := WithProgress(peer, server, next, match_);
    var w' := SetPeer(w, p, peer', []);
    assert PeerOk(w, h, p);
    ExtendsSelf(h);
    forall s: nat | s < |w.peers| ensures ProgressOk(h, p, peer', s) {
      assert ProgressOk(h, p, peer, s);
    }
    assert PeerOk(w', h, p);
    MessagesKept(w, h, w', h);
    Assemble(w, h, w', h, p);
  }

  /** A reply that is neither stale nor ahead is to a request of the current reign. */
  lemma CurrentAnswer(w: World, h: Proto, a: AppendAnswer)
    requires Inv(w, h) && a in w.answers && a.args.leaderId >= 0 && IsServer(w, a.args.leaderId)
    requires w.peers[a.args.leaderId].status == Leader && w.peers[a.args.leaderId].currentTerm <= a.args.term
    ensures var p := w.peers[a.args.leaderId];
            && a.args.term == p.currentTerm && p.currentTerm in h.leaders && h.leaders[p.currentTerm].log == p.logs
            && a.server < |w.peers| && a.server != a.args.leaderId && |p.nextIndex| == |p.matchIndex| == |w.peers|
            && AppendOk(h, |w.peers|, AppendMsg(a.server, a.args)) && AnswerOk(w, h, a)
            && ProgressOk(h, a.args.leaderId, p, a.server)
  {
    assert Unsealed(ClusterSeal) && Unsealed(ProtocolSeal);
    assert AnswerOk(w, h, a);
    assert AppendOk(h, |w.peers|, AppendMsg(a.server, a.args));
    assert PeerOk(w, h, a.args.leaderId);
    assert ReignOk(h, a.args.term);
  }

  lemma {:induction false} LastIndexIs(logs: Log, term: int, default: int)
    ensures var x := LastIndexOf(logs, term, default);
            x == default || exists k :: 0 <= k < |logs| && logs[k].term == term && x == logs[k].index
  {
    if logs != [] {
      var front := logs[..|logs| - 1];
      LastIndexIs(front, term, default);
      var x := LastIndexOf(logs, term, default);
      if logs[|logs| - 1].term != term && x != default {
        var k :| 0 <= k < |front| && front[k].term == term && x == front[k].index;
        assert logs[k] == front[k];
      }
    }
  }

  /** Fast back-up: after a rejection in the current term at `prevLogIndex`, the leader
      probes strictly earlier, and never before the first entry. */
  lemma BackUpProgress(w: World, h: Proto, a: AppendAnswer)
    requires Inv(w, h) && a in w.answers && a.args.leaderId >= 0 && IsServer(w, a.args.leaderId)
    requires w.peers[a.args.leaderId].status == Leader && !a.reply.success
    requires w.peers[a.args.leaderId].currentTerm == a.reply.term == a.args.term
    ensures 1 <= BackUp(w.peers[a.args.leaderId], a.reply) <= a.args.prevLogIndex <= |w.peers[a.args.leaderId].logs|
  {
    var p, prev, ct := w.peers[a.args.leaderId], a.args.prevLogIndex, a.reply.conflictingTerm;
    CurrentAnswer(w, h, a);
    LeaderLog(w, h, p.currentTerm);
    ServerLog(w, h, a.args.leaderId);
    var x := LastIndexOf(p.logs, ct, p.snapshotIndex + 1);
    LastIndexIs(p.logs, ct, p.snapshotIndex + 1);
    if x != 1 {
      var k :| 0 <= k < |p.logs| && p.logs[k].term == ct && x == p.logs[k].index;
      assert EntryOk(h.leaders, p.logs, k);
      LeaderLog(w, h, ct);
      ConflictIsLater(p.logs, h.leaders[ct].log, k, prev);
    }
  }

  /** Logs that agree up to `k` can only differ beyond it. */
  lemma ConflictIsLater(log: Log, other: Log, k: nat, prev: nat)
    requires k < |log| && k < |other| && log[..k + 1] == other[..k + 1]
    requires 1 <= prev <= |log| && prev <= |other| && log[prev - 1] != other[prev - 1]
    ensures k + 1 < prev
  {
    forall i | 0 <= i <= k ensures log[i] == other[i] {
      assert log[..k + 1][i] == log[i] && other[..k + 1][i] == other[i];
    }
  }

  lemma AppendReplyKeeps(w: World, h: Proto, a: AppendAnswer) returns (h': Proto)
    requires Inv(w, h) && a in w.answers && a.args.leaderId >= 0 && IsServer(w, a.args.leaderId)
    requires w.peers[a.args.leaderId].status == Leader
    ensures var p := w.peers[a.args.leaderId];
            a.server < |p.nextIndex| == |p.matchIndex| == |w.peers| && p.snapshotIndex <= p.commitIndex
    ensures Inv(AfterAppendReply(w, a), h') && Extends(h, h')
  {
    var p, peer := a.args.leaderId, w.peers[a.args.leaderId];
    LeaderFacts(w, h, p);
    LinkHolds(w, h);
    AnswerServer(w, h, a);
    h' := h;
    var r := HandleAppendReply(peer, p, a.server, a.args, a.reply);
    if peer.currentTerm > a.reply.term || peer.currentTerm > a.args.term {
      assert SetPeer(w, p, peer, []) == w;
      assert AfterAppendReply(w, a) == w;
    } else if a.reply.term > peer.currentTerm {
      h' := StepDownKeeps(w, h, p, a.reply.term);
      assert AfterAppendReply(w, a) == AfterStepDown(w, p, a.reply.term);
    } else if a.reply.success {
      SuccessKeeps(w, h, a);
    } else {
      CurrentAnswer(w, h, a);
      BackUpProgress(w, h, a);
      var next := BackUp(peer, a.reply);
      ProgressKeeps(w, h, p, a.server, next, peer.matchIndex[a.server]);
      assert WithProgress(peer, a.server, next, peer.matchIndex[a.server]) == r.peer;
      var w1 := SetPeer(w, p, r.peer, []);
      if r.reply {
        AskSnapshotKeeps(w1, h, SnapshotMsg(p, a.server, peer.currentTerm));
      } else {
        assert w.snapshots + {} == w.snapshots;
      }
    }
  }

  lemma AnswerServer(w: World, h: Proto, a: AppendAnswer)
    requires Inv(w, h) && a in w.answers
    ensures a.server < |w.peers|
  {
    assert Unsealed(ClusterSeal);
    assert AnswerOk(w, h, a);
    assert AppendOk(h, |w.peers|, AppendMsg(a.server, a.args));
  }

  lemma SuccessKeeps(w: World, h: Proto, a: AppendAnswer)
    requires Inv(w, h) && a in w.answers && a.args.leaderId >= 0 && IsServer(w, a.args.leaderId)
    requires var p := w.peers[a.args.leaderId];
             && p.status == Leader && a.reply.success
             && p.currentTerm <= a.reply.term && p.currentTerm <= a.args.term && a.reply.term <= p.currentTerm
             && a.server < |p.nextIndex| == |p.matchIndex|
    ensures Inv(AfterAppendReply(w, a), h)
  {
    var p, peer := a.args.leaderId, w.peers[a.args.leaderId];
    CurrentAnswer(w, h, a);
    var m := a.args.prevLogIndex + |a.args.entries|;
    var r := HandleAppendReply(peer, p, a.server, a.args, a.reply);
    assert w.snapshots + {} == w.snapshots;
    if a.args.entries != [] && m > peer.matchIndex[a.server] {
      ProgressKeeps(w, h, p, a.server, m + 1, m);
      var peer1 := WithProgress(peer, a.server, m + 1, m);
      UpdateCommitKeeps(SetPeer(w, p, peer1, []), h, p);
      SetTwice(w, p, peer1, [], UpdateCommit(peer1, p), []);
    } else {
      UpdateCommitKeeps(w, h, p);
    }
  }

  // ----- snapshots without data

  lemma AskSnapshotKeeps(w: World, h: Proto, s: SnapshotMsg)
    requires Inv(w, h) && s.leader < |w.peers| && s.server < |w.peers|
    ensures Inv(w.(snapshots := w.snapshots + {s}), h)
  {
    assert Unsealed(ClusterSeal);
    var w' := w.(snapshots := w.snapshots + {s});
    ExtendsSelf(h);
    assert PeerOk(w, h, s.leader);
    assert PeerOk(w', h, s.leader);
    MessagesKept(w, h, w', h);
    Assemble(w, h, w', h, s.leader);
  }

  lemma AnswerSnapshotKeeps(w: World, h: Proto, r: SnapshotAnswer)
    requires Inv(w, h) && r.leader < |w.peers|
    ensures Inv(w.(snapshotAnswers := w.snapshotAnswers + {r}), h)
  {
    assert Unsealed(ClusterSeal);
    var w' := w.(snapshotAnswers := w.snapshotAnswers + {r});
    ExtendsSelf(h);
    assert PeerOk(w, h, r.leader);
    assert PeerOk(w', h, r.leader);
    MessagesKept(w, h, w', h);
    Assemble(w, h, w', h, r.leader);
  }

  /** A request without data raises the term, if it is higher, and changes no other field;
      other servers, votes, entries and deliveries stay. */
  lemma SnapshotKeeps(w: World, h: Proto, s: SnapshotMsg) returns (h': Proto)
    requires Inv(w, h) && s in w.snapshots && IsServer(w, s.server)
    ensures Inv(AfterSnapshot(w, s), h') && Extends(h, h')
    ensures var w', p := AfterSnapshot(w, s), s.server;
            && w'.peers == w.peers[p := StepDown(w.peers[p], s.term)]
            && (forall q: nat | q < |w.disk| && q != p :: w'.disk[q] == w.disk[q])
            && w'.ballots == w.ballots && w'.appends == w.appends && w'.answers == w.answers
            && w'.snapshots == w.snapshots && w'.delivered == w.delivered
    ensures StepDown(w.peers[s.server], s.term) ==
            if s.term > w.peers[s.server].currentTerm
            then w.peers[s.server].(currentTerm := s.term, status := Follower, votedFor := -1)
            else w.peers[s.server]
  {
    var p, peer := s.server, w.peers[s.server];
    SnapshotLeader(w, h, s);
    ServerLog(w, h, p);
    if s.term < peer.currentTerm {
      h' := h;
      assert SetPeer(w, p, peer, []) == w;
      AnswerSnapshotKeeps(w, h, SnapshotAnswer(s.leader, peer.currentTerm));
    } else {
      h' := StepDownKeeps(w, h, p, s.term);
      var w1, peer1 := AfterStepDown(w, p, s.term), StepDown(peer, s.term);
      ResaveKeeps(w1, h', p);
      SetTwice(w, p, peer1, StepDownSaves(peer, s.term), peer1, [Saved(peer1)]);
      assert peer1.(hasSnapshot := false) == peer1;
      AnswerSnapshotKeeps(SetPeer(w1, p, peer1, [Saved(peer1)]), h', SnapshotAnswer(s.leader, peer.currentTerm));
    }
  }

  lemma SnapshotLeader(w: World, h: Proto, s: SnapshotMsg)
    requires Inv(w, h) && s in w.snapshots
    ensures s.leader < |w.peers| && Extends(h, h)
  {
    assert Unsealed(ClusterSeal);
  }

  // ----- applying

  /** A server applies what it knows to be committed, within its log. */
  lemma ApplyKeeps(w: World, h: Proto, p: nat)
    requires Inv(w, h) && p < |w.peers|
    ensures CanApply(w.peers[p]) && Inv(AfterApply(w, p), h)
  {
    CommitHolds(w, h, p);
    ServerLog(w, h, p);
    var w' := AfterApply(w, p);
    ExtendsSelf(h);
    AppliedPeer(w, h, p);
    PeerHolds(w, h, p);
    MessagesKept(w, h, w', h);
    Assemble(w, h, w', h, p);
  }

  lemma AppliedPeer(w: World, h: Proto, p: nat)
    requires Inv(w, h) && p < |w.peers| && CanApply(w.peers[p])
    ensures PeerOk(AfterApply(w, p), h, p)
  {
    PeerHolds(w, h, p);
    var peer := ApplyToClient(w.peers[p]).0;
    if peer.status == Leader {
      forall s: nat | s < |w.peers| ensures ProgressOk(h, p, peer, s) { assert ProgressOk(h, p, w.peers[p], s); }
    }
  }
}
