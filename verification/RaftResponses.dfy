/** When a server must act and what it answers, in terms of logs, of who voted and of who holds
    what, rather than of the handlers' own tests. */
module RaftResponses {
  import opened Collections
  import opened RaftProtocol
  import opened RaftPeer
  import opened RaftCluster
  import opened RaftInvariant
  import opened RaftElections
  import opened RaftReplication
  import opened RaftSafety

  // ----- votes

  /** Where a log ends: the term and the index of its last entry, or else of the snapshot. */
  ghost function End(p: Peer): (int, int) {
    if |p.logs| > 0 then (p.logs[|p.logs| - 1].term, p.logs[|p.logs| - 1].index) else (p.snapshotTerm, p.snapshotIndex)
  }

  ghost predicate Beyond(a: (int, int), b: (int, int)) {
    a.0 > b.0 || (a.0 == b.0 && a.1 > b.1)
  }

  /** The vote of the request's term has gone to someone else. */
  ghost predicate VotedForOther(v: Peer, args: RequestVoteArgs) {
    args.term == v.currentTerm && v.votedFor != -1 && v.votedFor != args.candidateId
  }

  /** A vote is granted if and only if the request is not of an earlier term, the voter's vote
      of that term has not gone elsewhere and the voter's log does not end beyond the
      candidate's; it is then on record before the answer. A refusal takes back nothing but a
      vote for this very candidate. */
  lemma VoteGrantedIff(v: Peer, args: RequestVoteArgs)
    ensures var h := HandleRequestVote(v, args);
            && (h.reply.voteGranted <==>
                  args.term >= v.currentTerm && !VotedForOther(v, args) && !Beyond(End(v), (args.lastLogTerm, args.lastLogIndex)))
            && h.peer.currentTerm == Max(v.currentTerm, args.term)
            && h.peer.status == (if args.term > v.currentTerm then Follower else v.status)
            && (h.reply.voteGranted ==>
                  h.peer.votedFor == args.candidateId && h.reply.term == args.term && h.saves != [])
            && (!h.reply.voteGranted ==>
                  h.peer.votedFor == if args.term < v.currentTerm || VotedForOther(v, args) then v.votedFor else -1)
            && (args.term < v.currentTerm ==> h.reply.term == v.currentTerm)
            && h.peer == v.(currentTerm := h.peer.currentTerm, status := h.peer.status, votedFor := h.peer.votedFor)
            && (if h.saves == [] then h.peer == v else h.saves[|h.saves| - 1] == Saved(h.peer))
  {
  }

  /** A candidate whose log is the voter's own is granted the vote exactly when the logs hold an
      entry, or it remembers no earlier snapshot term: a fresh server has -1 there, and one that
      restarted from a record without a snapshot has 0. */
  lemma EqualLogGranted(c: Peer, me: nat, v: Peer)
    requires c.logs == v.logs && c.snapshotIndex == v.snapshotIndex && c.currentTerm > v.currentTerm
    ensures HandleRequestVote(v, VoteRequest(c, me)).reply.voteGranted <==> c.logs != [] || c.snapshotTerm >= v.snapshotTerm
  {
  }

  /** A candidate asks every other server, telling where its log ends. */
  lemma AsksAll(w: World, p: nat, v: nat)
    requires IsServer(w, p) && v < |w.peers| && v != p
    ensures var w', t := AfterTimeout(w, p), w.peers[p].currentTerm + 1;
            && (p, t, v) in w'.ballots
            && w'.ballots[(p, t, v)] == Requested(RequestVoteArgs(t, p, End(w.peers[p]).1, End(w.peers[p]).0))
            && w'.peers[p] == w.peers[p].(status := Candidate, currentTerm := t, votedFor := p, grantedVotes := 1)
            && w'.disk[p] == Some(Saved(w'.peers[p]))
  {
    var peer := StartElection(w.peers[p], p);
    assert (p, peer.currentTerm, v) in Requests(w, p, peer);
  }

  ghost predicate IsMajority(q: set<nat>, n: nat) {
    2 * |q| > n
  }

  /** Who has voted for candidate `c`, as far as it knows. */
  ghost function Supporters(w: World, c: nat): set<nat>
    requires c < |w.peers|
  {
    {c} + Counted(w.ballots, |w.peers|, c, w.peers[c].currentTerm)
  }

  /** A candidate that hears of a later term gives way; otherwise it counts the vote, if it is
      one, and takes office exactly with more than half of the servers. */
  lemma VoteReplyExact(p: Peer, reply: RequestVoteReply, peers: nat)
    ensures var p' := HandleVoteReply(p, reply, peers);
            if reply.term > p.currentTerm then p' == p.(currentTerm := reply.term, status := Follower, votedFor := -1)
            else
              && p'.grantedVotes == p.grantedVotes + (if reply.voteGranted then 1 else 0)
              && (2 * p'.grantedVotes <= peers ==> p' == p.(grantedVotes := p'.grantedVotes))
              && (2 * p'.grantedVotes > peers ==>
                    && p'.status == Leader && |p'.nextIndex| == |p'.matchIndex| == peers
                    && (forall s | 0 <= s < peers :: p'.nextIndex[s] == End(p).1 + 1 && p'.matchIndex[s] == 0)
                    && p' == p.(grantedVotes := p'.grantedVotes, status := Leader, nextIndex := p'.nextIndex, matchIndex := p'.matchIndex))
  {
  }

  /** In every run, a candidate that reads an answer of its term becomes the leader if and only
      if a majority has then voted for it; it starts its servers at the end of its log. */
  lemma ElectedIff(n: nat, run: seq<World>, k: nat, c: nat, t: int, v: nat)
    requires IsRun(n, run) && k < |run| && Enabled(run[k], ReceiveVoteReply(c, t, v))
    requires run[k].ballots[(c, t, v)].reply.term <= t
    ensures var w' := Do(run[k], ReceiveVoteReply(c, t, v));
            && c < |w'.peers| && w'.peers[c].currentTerm == t
            && (w'.peers[c].status == Leader <==> IsMajority(Supporters(w', c), n))
            && (run[k].ballots[(c, t, v)].reply.voteGranted ==> v in Supporters(w', c))
            && (w'.peers[c].status == Leader ==>
                  forall s: nat | s < n ::
                    s < |w'.peers[c].nextIndex| == |w'.peers[c].matchIndex|
                    && w'.peers[c].nextIndex[s] == |w'.peers[c].logs| + 1 && w'.peers[c].matchIndex[s] == 0)
  {
    var w, e := run[k], ReceiveVoteReply(c, t, v);
    RunSize(n, run, k);
    var h := HistoryAt(n, run, k);
    PeerHolds(w, h, c);
    BallotHolds(w, h, (c, t, v));
    LastIndexIsLength(w, h, c);
    CountOne(w.ballots, |w.peers|, (c, t, v), w.ballots[(c, t, v)].reply.voteGranted);
    var w' := Do(w, e);
    var counted := Counted(w'.ballots, n, c, t);
    assert w'.ballots == w.ballots[(c, t, v) := Closed(w.ballots[(c, t, v)].reply.voteGranted)];
    assert !IsCounted(w'.ballots, c, t, c) by {
      if (c, t, c) in w.ballots { BallotHolds(w, h, (c, t, c)); }
    }
    assert c !in counted;
    assert |{c} + counted| == 1 + |counted|;
  }

  lemma {:induction false} RunSize(n: nat, run: seq<World>, k: nat)
    requires IsRun(n, run) && k < |run|
    ensures |run[k].peers| == |run[k].disk| == |run[k].delivered| == n
  {
    if k > 0 {
      RunSize(n, run, k - 1);
      assert StepsAt(run, k - 1);
      var e :| Enabled(run[k - 1], e) && InRangeFor(run[k - 1], e) && run[k] == Do(run[k - 1], e);
      StepSize(run[k - 1], e);
    }
  }

  lemma StepSize(w: World, e: Event)
    requires Enabled(w, e) && InRangeFor(w, e)
    ensures |Do(w, e).peers| == |w.peers| && |Do(w, e).disk| == |w.disk| && |Do(w, e).delivered| == |w.delivered|
  {
  }

  // ----- commands

  /** A leader takes a command at the index behind its log, on record before the answer; any
      other server changes nothing. */
  lemma CommandExact(p: Peer, command: Command)
    ensures var h := HandleCommand(p, command);
            var (index, term, isLeader) := h.reply;
            && (isLeader <==> p.status == Leader)
            && index == p.snapshotIndex + |p.logs| + 1 && term == p.currentTerm
            && (!isLeader ==> h.peer == p && h.saves == [])
            && (isLeader ==>
                  && p.logs < h.peer.logs && |h.peer.logs| == index - p.snapshotIndex
                  && h.peer.logs[index - p.snapshotIndex - 1] == LogEntry(term, index, command)
                  && h.peer == p.(logs := h.peer.logs) && h.saves == [Saved(h.peer)])
  {
  }

  /** In every run: if a command was taken at an index in a term, then whatever server later
      holds an entry of that term at that index holds that command. */
  lemma StartPromise(n: nat, run: seq<World>, j: nat, k: nat, p: nat, command: Command, q: nat, log: Log)
    requires IsRun(n, run) && j + 1 <= k < |run| && p < |run[j].peers|
    requires Enabled(run[j], Start(p, command)) && run[j + 1] == Do(run[j], Start(p, command)) && Holds(run[k], q, log)
    ensures var (index, term, isLeader) := HandleCommand(run[j].peers[p], command).reply;
            isLeader && 1 <= index <= |log| && log[index - 1].term == term ==> log[index - 1] == LogEntry(term, index, command)
  {
    var (index, term, isLeader) := HandleCommand(run[j].peers[p], command).reply;
    CommandExact(run[j].peers[p], command);
    var h := HistoryAt(n, run, j);
    ServerLog(run[j], h, p);
    RunSize(n, run, j + 1);
    if isLeader && 1 <= index <= |log| && log[index - 1].term == term {
      var mine := run[j + 1].peers[p].logs;
      LogsMatch(n, run, j + 1, k, p, q, mine, log, index - 1);
      assert mine[..index][index - 1] == log[..index][index - 1];
    }
  }

  // ----- what a leader sends

  /** The term at an index from the snapshot on. */
  ghost function TermAt(p: Peer, index: int): int
    requires p.snapshotIndex <= index <= p.snapshotIndex + |p.logs|
  {
    if index == p.snapshotIndex then p.snapshotTerm else p.logs[index - p.snapshotIndex - 1].term
  }

  /** A server is sent something exactly when its next index is in the log, and then
      everything from there on, with what comes before it and the commit index. */
  lemma BroadcastExact(p: Peer, me: nat, server: nat)
    requires Addressable(p, server)
    ensures var next, last := p.nextIndex[server], p.snapshotIndex + |p.logs|;
            var sent := Broadcast(p, me, server);
            && (sent.Some? <==> p.snapshotIndex < next <= last)
            && (sent.Some? ==>
                  && sent.value.term == p.currentTerm && sent.value.leaderId == me && sent.value.leaderCommit == p.commitIndex
                  && sent.value.prevLogIndex == next - 1 && sent.value.prevLogTerm == TermAt(p, next - 1)
                  && |sent.value.entries| == last - (next - 1)
                  && forall k | 0 <= k < |sent.value.entries| ::
                       sent.value.entries[k].index == next + k && sent.value.entries[k] == p.logs[next + k - p.snapshotIndex - 1])
  {
  }

  /** A heartbeat asks about the end of the log and tells the commit index. */
  lemma HeartbeatExact(p: Peer, me: nat)
    requires Numbered(p.logs, p.snapshotIndex)
    ensures var beat, last := Heartbeat(p, me), p.snapshotIndex + |p.logs|;
            && beat.term == p.currentTerm && beat.leaderId == me && beat.leaderCommit == p.commitIndex
            && beat.prevLogIndex == last && beat.prevLogTerm == TermAt(p, last) && beat.entries == []
  {
  }

  // ----- what a follower answers

  /** The log reaches back to `index` with an entry of `term` there, or `index` is in the
      snapshot. */
  ghost predicate Has(p: Peer, index: int, term: int) {
    index <= p.snapshotIndex || exists k :: 0 <= k < |p.logs| && p.logs[k].index == index && p.logs[k].term == term
  }

  lemma MismatchIff(p: Peer, args: AppendEntriesArgs)
    requires Numbered(p.logs, p.snapshotIndex)
    ensures Mismatch(p, args) <==> !Has(p, args.prevLogIndex, args.prevLogTerm)
  {
    var k := args.prevLogIndex - p.snapshotIndex - 1;
    if 0 <= k < |p.logs| { assert p.logs[k].index == args.prevLogIndex; }
  }

  /** An append succeeds if and only if it is not of an earlier term and the log has the entry
      before it. The answer tells the term then current. Whoever hears of a later term, or as a
      candidate from its own term's leader, follows. */
  lemma AppendAnswered(p: Peer, args: AppendEntriesArgs)
    requires Numbered(p.logs, p.snapshotIndex)
    ensures var h := OnAppendEntries(p, args);
            && (h.reply.success <==> args.term >= p.currentTerm && Has(p, args.prevLogIndex, args.prevLogTerm))
            && h.reply.term == h.peer.currentTerm == Max(p.currentTerm, args.term)
            && h.peer.status ==
               (if args.term > p.currentTerm || (args.term == p.currentTerm && p.status == Candidate) then Follower else p.status)
            && h.peer.votedFor == (if args.term > p.currentTerm then -1 else p.votedFor)
            && (!h.reply.success ==> h.peer.logs == p.logs && h.peer.commitIndex == p.commitIndex)
            && h.peer.lastApplied == p.lastApplied && h.peer.snapshotIndex == p.snapshotIndex && h.peer.snapshotTerm == p.snapshotTerm
  {
    MismatchIff(p, args);
    assert Numbered(StepDown(p, args.term).logs, p.snapshotIndex);
  }

  /** Some entry sent contradicts the log at position `i`. */
  ghost predicate ConflictAt(logs: Log, base: int, entries: Log, i: int) {
    0 <= i < |logs| && exists k :: 0 <= k < |entries| && entries[k].index == base + 1 + i && entries[k].term != logs[i].term
  }

  /** Truncation keeps the log up to its first conflict, and all of it without one. */
  lemma {:induction false} CutExact(logs: Log, base: int, entries: Log, prev: int)
    requires Numbered(entries, prev) && base <= prev
    ensures var cut := Truncate(logs, base, entries);
            && cut <= logs
            && (forall i | 0 <= i < |cut| :: !ConflictAt(logs, base, entries, i))
            && (|cut| < |logs| ==> ConflictAt(logs, base, entries, |cut|))
    decreases entries
  {
    if entries != [] {
      var first := prev - base;
      assert entries[0].index == prev + 1;
      var rest := entries[1..];
      forall k | 0 <= k < |rest| ensures rest[k].index == prev + 1 + 1 + k { assert rest[k] == entries[k + 1]; }
      if first < |logs| && logs[first].term == entries[0].term {
        CutExact(logs, base, rest, prev + 1);
        forall i | 0 <= i < |logs| ensures ConflictAt(logs, base, entries, i) <==> ConflictAt(logs, base, rest, i) {
          ConflictInRest(logs, base, entries, prev, i);
        }
      }
    }
  }

  lemma ConflictInRest(logs: Log, base: int, entries: Log, prev: int, i: int)
    requires entries != [] && Numbered(entries, prev) && base <= prev && 0 <= i < |logs|
    requires prev - base < |logs| && logs[prev - base].term == entries[0].term
    ensures ConflictAt(logs, base, entries, i) <==> ConflictAt(logs, base, entries[1..], i)
  {
    if ConflictAt(logs, base, entries, i) {
      var k :| 0 <= k < |entries| && entries[k].index == base + 1 + i && entries[k].term != logs[i].term;
      assert k > 0 && entries[1..][k - 1] == entries[k];
    }
    if ConflictAt(logs, base, entries[1..], i) {
      var k :| 0 <= k < |entries[1..]| && entries[1..][k].index == base + 1 + i && entries[1..][k].term != logs[i].term;
      assert entries[k + 1] == entries[1..][k];
    }
  }

  /** The number of entries a follower keeps when it accepts. */
  ghost predicate Keeps(logs: Log, entries: Log, kept: nat) {
    && kept <= |logs|
    && (forall i | 0 <= i < kept :: !ConflictAt(logs, 0, entries, i))
    && (kept < |logs| ==> ConflictAt(logs, 0, entries, kept))
  }

  /** In every run: accepting a message, a follower moves its commit index up to the leader's,
      as far as the entries it kept reach; one that kept none is not held back. */
  lemma FollowerCommits(n: nat, run: seq<World>, k: nat, m: AppendMsg) returns (kept: nat)
    requires IsRun(n, run) && k < |run| && Enabled(run[k], ReceiveAppend(m))
    requires OnAppendEntries(run[k].peers[m.server], m.args).reply.success
    ensures var p, w' := run[k].peers[m.server], Do(run[k], ReceiveAppend(m));
            && Keeps(p.logs, m.args.entries, kept)
            && m.server < |w'.peers|
            && w'.peers[m.server].commitIndex == Max(p.commitIndex, Min(m.args.leaderCommit, if kept == 0 then MAX_INT else kept))
  {
    var w, v := run[k], m.server;
    var p, args := w.peers[v], m.args;
    var h := HistoryAt(n, run, k);
    MessageHolds(w, h, m);
    LastIndexIsLength(w, h, v);
    CommitHolds(w, h, v);
    ServerLog(w, h, v);
    SentNumbered(w, h, m);
    CutExact(p.logs, 0, args.entries, args.prevLogIndex);
    var cut := Truncate(p.logs, 0, args.entries);
    kept := |cut|;
    CommitNeverBack(n, run, k, ReceiveAppend(m), v);
    CommitTaken(p, args, cut);
  }

  lemma SentNumbered(w: World, h: Proto, m: AppendMsg)
    requires Inv(w, h) && m in w.appends
    ensures Numbered(m.args.entries, m.args.prevLogIndex) && m.args.prevLogIndex >= 0
  {
    MessageHolds(w, h, m);
    LeaderLog(w, h, m.args.term);
  }

  lemma CommitTaken(p: Peer, args: AppendEntriesArgs, cut: Log)
    requires p.snapshotIndex == 0 && Numbered(p.logs, 0) && OnAppendEntries(p, args).reply.success
    requires cut == Truncate(p.logs, 0, args.entries) && cut <= p.logs && 0 <= p.commitIndex
    requires OnAppendEntries(p, args).peer.commitIndex >= p.commitIndex
    ensures OnAppendEntries(p, args).peer.commitIndex ==
            Max(p.commitIndex, Min(args.leaderCommit, if cut == [] then MAX_INT else |cut|))
  {
  }

  /** An install-snapshot request without data is answered with the term before it. One of an
      earlier term changes nothing; any other raises the term, if it is later, leaves the log
      alone and puts all of this on record without a snapshot. */
  lemma EmptySnapshotExact(p: Peer, term: int)
    ensures var h := HandleEmptySnapshot(p, term);
            && h.reply == p.currentTerm
            && h.peer.currentTerm == Max(p.currentTerm, term) && h.peer.logs == p.logs && h.peer.commitIndex == p.commitIndex
            && (term < p.currentTerm ==> h.peer == p && h.saves == [])
            && (term >= p.currentTerm ==>
                  && h.peer == (if term > p.currentTerm then p.(currentTerm := term, status := Follower, votedFor := -1) else p)
                               .(hasSnapshot := false)
                  && h.saves != [] && h.saves[|h.saves| - 1] == Saved(h.peer))
  {
  }

  /** A server restarts as a follower with the term, vote and log on record; the snapshot it
      restarts from counts as committed and applied, so that it can go on applying. */
  lemma RestartExact(p: Peer)
    requires p.hasSnapshot || p.snapshotIndex == 0
    ensures var r := Restart(Some(Saved(p)), p.hasSnapshot);
            && r.status == Follower && r.currentTerm == p.currentTerm && r.votedFor == p.votedFor && r.logs == p.logs
            && r.snapshotIndex == r.commitIndex == r.lastApplied == p.snapshotIndex
            && (p.hasSnapshot ==> r.snapshotTerm == p.snapshotTerm)
            && CanApply(r) && Saved(r) == Saved(p)
  {
  }

  // ----- what a leader makes of the answers

  /** The majority rule, by the set of servers known to hold index `i`. */
  ghost predicate MayCommit(p: Peer, me: nat, i: int) {
    && p.snapshotIndex < i <= p.snapshotIndex + |p.logs|
    && IsMajority({me} + Holders(p.matchIndex, me, i), |p.matchIndex|)
    && TermAt(p, i) == p.currentTerm
  }

  lemma CommittableIff(p: Peer, me: nat, i: int)
    ensures Committable(p, me, i) <==> MayCommit(p, me, i)
  {
    CountIsHolders(p.matchIndex, me, i);
    var holders := Holders(p.matchIndex, me, i);
    assert me !in holders;
    assert |{me} + holders| == 1 + |holders|;
  }

  /** The commit index moves to the last index that a majority holds and that is of the current
      term, if there is one beyond it. */
  ghost predicate CommitsLast(p: Peer, me: nat, c: int) {
    && (c == p.commitIndex || (c > p.commitIndex && MayCommit(p, me, c)))
    && forall i | i > p.commitIndex && MayCommit(p, me, i) :: i <= c
  }

  lemma LeaderCommits(p: Peer, me: nat)
    ensures CommitsLast(p, me, UpdateCommit(p, me).commitIndex)
    ensures UpdateCommit(p, me) == p.(commitIndex := UpdateCommit(p, me).commitIndex)
  {
    ScanFindsLast(p, me, p.commitIndex + 1, p.commitIndex);
    var c := UpdateCommit(p, me).commitIndex;
    CommittableIff(p, me, c);
    forall i | i > p.commitIndex && MayCommit(p, me, i) ensures i <= c { CommittableIff(p, me, i); }
  }

  /** `x` is the index of the last entry of `term`, or `default` if there is none. */
  ghost predicate IsLastOf(logs: Log, base: int, term: int, default: int, x: int) {
    if exists i :: 0 <= i < |logs| && logs[i].term == term
    then base < x <= base + |logs| && logs[x - base - 1].term == term && forall i | x - base <= i < |logs| :: logs[i].term != term
    else x == default
  }

  lemma {:induction false} LastIndexExact(logs: Log, base: int, term: int, default: int)
    requires Numbered(logs, base)
    ensures IsLastOf(logs, base, term, default, LastIndexOf(logs, term, default))
  {
    if logs != [] && logs[|logs| - 1].term != term {
      var front := logs[..|logs| - 1];
      LastIndexExact(front, base, term, default);
      if i :| 0 <= i < |logs| && logs[i].term == term { assert front[i].term == term; }
    }
  }

  /** What a leader does with an answer: nothing if it is stale; give way to a later term; after
      a success, note how far the server got and commit what a majority holds; after a
      rejection, go back to the last entry of the conflicting term, or to where the follower's
      begins if that is later. */
  lemma AnswerExact(p: Peer, me: nat, server: nat, req: AppendEntriesArgs, reply: AppendEntriesReply)
    requires server < |p.nextIndex| == |p.matchIndex| && Numbered(p.logs, p.snapshotIndex)
    ensures var h := HandleAppendReply(p, me, server, req, reply);
            var reached := req.prevLogIndex + |req.entries|;
            if p.currentTerm > reply.term || p.currentTerm > req.term then h.peer == p && h.saves == [] && !h.reply
            else if reply.term > p.currentTerm then
              h.peer == p.(currentTerm := reply.term, status := Follower, votedFor := -1) && h.saves == [Saved(h.peer)] && !h.reply
            else if reply.success then
              && h.peer == p.(matchIndex := h.peer.matchIndex, nextIndex := h.peer.nextIndex, commitIndex := h.peer.commitIndex)
              && Notes(p, h.peer, server, req.entries != [] && reached > p.matchIndex[server], reached)
              && CommitsLast(p.(matchIndex := h.peer.matchIndex, nextIndex := h.peer.nextIndex), me, h.peer.commitIndex)
              && h.saves == [] && !h.reply
            else
              && h.peer == p.(nextIndex := p.nextIndex[server := h.peer.nextIndex[server]])
              && BacksUp(p, reply, h.peer.nextIndex[server])
              && h.saves == [] && (h.reply <==> p.logs != [] && h.peer.nextIndex[server] <= p.snapshotIndex + 1)
  {
    if !(p.currentTerm > reply.term || p.currentTerm > req.term) && reply.term == p.currentTerm {
      if reply.success {
        SuccessExact(p, me, server, req, reply);
      } else {
        LastIndexExact(p.logs, p.snapshotIndex, reply.conflictingTerm, p.snapshotIndex + 1);
        var x := LastIndexOf(p.logs, reply.conflictingTerm, p.snapshotIndex + 1);
        assert IsLastOf(p.logs, p.snapshotIndex, reply.conflictingTerm, p.snapshotIndex + 1, x);
        assert BacksUp(p, reply, BackUp(p, reply));
      }
    }
  }

  ghost predicate Notes(p: Peer, p': Peer, server: nat, further: bool, reached: int)
    requires server < |p.nextIndex| == |p.matchIndex|
  {
    && p'.matchIndex == (if further then p.matchIndex[server := reached] else p.matchIndex)
    && p'.nextIndex == (if further then p.nextIndex[server := reached + 1] else p.nextIndex)
  }

  ghost predicate BacksUp(p: Peer, reply: AppendEntriesReply, next: int) {
    exists x :: IsLastOf(p.logs, p.snapshotIndex, reply.conflictingTerm, p.snapshotIndex + 1, x) && next == Max(x, reply.firstConflictingIndex)
  }

  /** A success is noted before the majority rule is applied. */
  lemma SuccessHandled(p: Peer, me: nat, server: nat, req: AppendEntriesArgs, reply: AppendEntriesReply, p1: Peer)
    requires server < |p.nextIndex| == |p.matchIndex|
    requires p.currentTerm == reply.term && p.currentTerm <= req.term && reply.success
    requires var reached := req.prevLogIndex + |req.entries|;
             && Notes(p, p1, server, req.entries != [] && reached > p.matchIndex[server], reached)
             && p1 == p.(matchIndex := p1.matchIndex, nextIndex := p1.nextIndex)
    ensures HandleAppendReply(p, me, server, req, reply) == Handled(UpdateCommit(p1, me), false, [])
  {
  }

  lemma SuccessExact(p: Peer, me: nat, server: nat, req: AppendEntriesArgs, reply: AppendEntriesReply)
    requires server < |p.nextIndex| == |p.matchIndex|
    requires p.currentTerm == reply.term && p.currentTerm <= req.term && reply.success
    ensures var h := HandleAppendReply(p, me, server, req, reply);
            var reached := req.prevLogIndex + |req.entries|;
            && h.peer == p.(matchIndex := h.peer.matchIndex, nextIndex := h.peer.nextIndex, commitIndex := h.peer.commitIndex)
            && Notes(p, h.peer, server, req.entries != [] && reached > p.matchIndex[server], reached)
            && CommitsLast(p.(matchIndex := h.peer.matchIndex, nextIndex := h.peer.nextIndex), me, h.peer.commitIndex)
            && h.saves == [] && !h.reply
  {
    var m := req.prevLogIndex + |req.entries|;
    var p1 := if req.entries != [] && m > p.matchIndex[server]
              then p.(matchIndex := p.matchIndex[server := m], nextIndex := p.nextIndex[server := m + 1])
              else p;
    SuccessHandled(p, me, server, req, reply, p1);
    LeaderCommits(p1, me);
  }
}
