/** What holds of servers, disks and messages in every state a cluster can reach, relative to
    the protocol's history `h`. */
module RaftInvariant {
  import opened Collections
  import opened RaftProtocol
  import opened RaftPeer
  import opened RaftCluster
  import opened Sealing

  // ----- commitment

  /** The first `c` entries of `log` lie in what a leader of a term up to `t` committed. */
  ghost predicate CommitsTo(h: Proto, log: Log, t: int, c: int, t0: int, i0: int) {
    && IsLeaderEntry(h, t0, i0)
    && Committed(h, t0, i0)
    && t0 <= t
    && 0 <= c <= i0
    && c <= |log|
    && log[..c] == h.leaders[t0].log[..c]
  }

  ghost predicate CommitOk(h: Proto, log: Log, t: int, c: int) {
    c == 0 || exists t0, i0 :: CommitsTo(h, log, t, c, t0, i0)
  }

  lemma CommittedGrows(h: Proto, h': Proto, t: int, i: int)
    requires Extends(h, h') && Committed(h, t, i)
    ensures Committed(h', t, i)
  {
    var q :| CommittedBy(h, t, i, q);
    LeaderEntryGrows(h, h', t, i);
    assert CommittedBy(h', t, i, q);
  }

  /** Commitment stays when the log, as far as it was committed, and the term's bound do. */
  lemma CommitOkGrows(h: Proto, h': Proto, log: Log, log': Log, t: int, t': int, c: int)
    requires Extends(h, h') && CommitOk(h, log, t, c) && t <= t'
    requires 0 <= c <= |log| && c <= |log'| && log'[..c] == log[..c]
    ensures CommitOk(h', log', t', c)
  {
    if c != 0 {
      var t0, i0 :| CommitsTo(h, log, t, c, t0, i0);
      CommittedGrows(h, h', t0, i0);
      LeaderEntryGrows(h, h', t0, i0);
      PrefixAt(h.leaders[t0].log, h'.leaders[t0].log, i0, c);
      assert CommitsTo(h', log', t', c, t0, i0);
    }
  }

  // ----- one server

  ghost predicate Durable(peer: Peer, disk: Option<Data>) {
    match disk
    case None => peer.currentTerm == 0 && peer.votedFor == -1 && peer.logs == []
    case Some(d) => d == Data(peer.votedFor, peer.currentTerm, peer.logs, 0, 0)
  }

  ghost predicate Fields(peer: Peer, disk: Option<Data>) {
    && !peer.hasSnapshot
    && peer.snapshotIndex == 0
    && -1 <= peer.snapshotTerm <= 0
    && peer.currentTerm >= 0
    && Durable(peer, disk)
  }

  /** `votedFor` remembers exactly the vote cast in the current term. */
  ghost predicate VotedOk(h: Proto, p: nat, peer: Peer) {
    && (peer.votedFor == -1 <==> (p, peer.currentTerm) !in h.votes)
    && (peer.votedFor != -1 ==> h.votes[(p, peer.currentTerm)].candidate == peer.votedFor)
  }

  /** The voters whose grants candidate `c` has counted in term `t`. */
  ghost predicate IsCounted(ballots: map<(nat, int, nat), Ballot>, c: nat, t: int, v: nat) {
    (c, t, v) in ballots && ballots[(c, t, v)] == Closed(true)
  }

  ghost function Counted(ballots: map<(nat, int, nat), Ballot>, n: nat, c: nat, t: int): set<nat> {
    set v: nat | v < n && IsCounted(ballots, c, t, v)
  }

  ghost predicate CandidateOk(h: Proto, ballots: map<(nat, int, nat), Ballot>, n: nat, p: nat, peer: Peer) {
    peer.status == Candidate ==>
      && peer.currentTerm >= 1
      && peer.votedFor == p
      && (p, peer.currentTerm) in h.bids
      && h.bids[(p, peer.currentTerm)] == peer.logs
      && (peer.currentTerm in h.leaders ==> h.leaders[peer.currentTerm].leader != p)
      && peer.grantedVotes == 1 + |Counted(ballots, n, p, peer.currentTerm)|
  }

  ghost predicate AckedUpTo(h: Proto, v: nat, t: int, m: int) {
    forall i | 1 <= i <= m && IsLeaderEntry(h, t, i) :: (v, t, i) in h.acks
  }

  ghost predicate ProgressOk(h: Proto, p: nat, peer: Peer, server: nat)
    requires server < |peer.nextIndex| == |peer.matchIndex|
  {
    && 1 <= peer.nextIndex[server] <= |peer.logs| + 1
    && 0 <= peer.matchIndex[server] <= |peer.logs|
    && (server != p ==> AckedUpTo(h, server, peer.currentTerm, peer.matchIndex[server]))
  }

  ghost predicate LeaderOk(h: Proto, n: nat, p: nat, peer: Peer) {
    peer.status == Leader ==>
      && peer.currentTerm in h.leaders
      && h.leaders[peer.currentTerm].leader == p
      && h.leaders[peer.currentTerm].log == peer.logs
      && |peer.nextIndex| == |peer.matchIndex| == n
      && forall server: nat | server < n :: ProgressOk(h, p, peer, server)
  }

  ghost predicate CommitFieldsOk(h: Proto, peer: Peer) {
    && 0 <= peer.lastApplied <= peer.commitIndex <= |peer.logs|
    && CommitOk(h, peer.logs, peer.currentTerm, peer.commitIndex)
  }

  ghost predicate PeerOk(w: World, h: Proto, p: nat)
    requires IsServer(w, p)
  {
    var peer := w.peers[p];
    && Fields(peer, w.disk[p])
    && VotedOk(h, p, peer)
    && CandidateOk(h, w.ballots, |w.peers|, p, peer)
    && LeaderOk(h, |w.peers|, p, peer)
    && CommitFieldsOk(h, peer)
  }

  // ----- messages

  ghost predicate DescribesLog(args: RequestVoteArgs, log: Log) {
    && args.lastLogIndex == |log|
    && if log == [] then -1 <= args.lastLogTerm <= 0 else args.lastLogTerm == log[|log| - 1].term
  }

  /** A request still to be delivered has not been voted on; a granted one has. */
  ghost predicate BallotOk(h: Proto, n: nat, key: (nat, int, nat), ballot: Ballot) {
    var (c, t, v) := key;
    && c < n && v < n && c != v
    && (c, t) in h.bids
    && match ballot {
         case Requested(args) =>
           && args.term == t && args.candidateId == c && DescribesLog(args, h.bids[(c, t)])
           && ((v, t) in h.votes ==> h.votes[(v, t)].candidate != c)
         case Answered(reply) =>
           reply.voteGranted ==> reply.term == t && (v, t) in h.votes && h.votes[(v, t)].candidate == c
         case Closed(granted) =>
           granted ==> (v, t) in h.votes && h.votes[(v, t)].candidate == c
       }
  }

  /** A message carries a stretch of its leader's log, the term before it, and a commit index
      that the stretch reaches. */
  ghost predicate AppendOk(h: Proto, n: nat, m: AppendMsg) {
    var args := m.args;
    && args.term in h.leaders
    && m.server < n
    && 0 <= args.leaderId < n && args.leaderId == h.leaders[args.term].leader
    && m.server != args.leaderId
    && 0 <= args.prevLogIndex && args.prevLogIndex + |args.entries| <= |h.leaders[args.term].log|
    && args.entries == h.leaders[args.term].log[args.prevLogIndex..args.prevLogIndex + |args.entries|]
    && (args.prevLogIndex > 0 ==> args.prevLogTerm == h.leaders[args.term].log[args.prevLogIndex - 1].term)
    && 0 <= args.leaderCommit <= args.prevLogIndex + |args.entries|
    && CommitOk(h, h.leaders[args.term].log, args.term, args.leaderCommit)
  }

  /** A conflict report names a term whose leader wrote the follower's entry at the previous
      index, and an index no later than that. */
  ghost predicate ConflictOk(h: Proto, args: AppendEntriesArgs, reply: AppendEntriesReply) {
    && args.prevLogIndex >= 1
    && 0 <= reply.firstConflictingIndex <= args.prevLogIndex
    && if reply.conflictingTerm == 0 then reply.firstConflictingIndex == 0
       else
         && reply.firstConflictingIndex >= 1
         && reply.conflictingTerm in h.leaders
         && args.prevLogIndex <= |h.leaders[reply.conflictingTerm].log|
         && h.leaders[reply.conflictingTerm].log[args.prevLogIndex - 1].term == reply.conflictingTerm
         && reply.conflictingTerm != args.prevLogTerm
  }

  ghost predicate AnswerOk(w: World, h: Proto, a: AppendAnswer) {
    && AppendMsg(a.server, a.args) in w.appends
    && (a.reply.success ==>
          a.reply.term == a.args.term && AckedUpTo(h, a.server, a.args.term, a.args.prevLogIndex + |a.args.entries|))
    && (!a.reply.success && a.reply.term == a.args.term ==> ConflictOk(h, a.args, a.reply))
  }

  // ----- the cluster

  ghost predicate Linked(w: World, h: Proto) {
    && |w.peers| == |w.disk| == |w.delivered| == |h.terms| == |h.logs|
    && forall p | 0 <= p < |w.peers| :: h.terms[p] == w.peers[p].currentTerm && h.logs[p] == w.peers[p].logs
  }

  ghost predicate MessagesOk(w: World, h: Proto) {
    && (forall key | key in w.ballots :: BallotOk(h, |w.peers|, key, w.ballots[key]))
    && (forall m | m in w.appends :: AppendOk(h, |w.peers|, m))
    && (forall a | a in w.answers :: AnswerOk(w, h, a))
    && (forall s | s in w.snapshots :: s.leader < |w.peers| && s.server < |w.peers|)
    && (forall r | r in w.snapshotAnswers :: r.leader < |w.peers|)
  }

  ghost predicate Inv(w: World, h: Proto) {
    && |w.peers| == |w.disk| == |w.delivered| == |h.terms| == |h.logs|
    && forall seal {:trigger Unsealed(seal)} :: seal == ClusterSeal ==> InvFacts(w, h)
  }

  ghost predicate InvFacts(w: World, h: Proto) {
    && ProtoInv(h)
    && Linked(w, h)
    && (forall p: nat | p < |w.peers| :: PeerOk(w, h, p))
    && MessagesOk(w, h)
  }

  // ----- what a step of server `p` leaves alone

  /** Only `p` votes, only `p` may be elected or extend its reign, and only `p`'s own count of
      votes may change. */
  ghost predicate Local(w: World, h: Proto, w': World, h': Proto, p: nat) {
    && Extends(h, h')
    && |w'.peers| == |w.peers| == |w.disk| == |w'.disk| == |w.delivered| == |w'.delivered|
    && (forall q: nat | q < |w.peers| && q != p :: w'.peers[q] == w.peers[q] && w'.disk[q] == w.disk[q])
    && (forall key | key in h'.votes :: key in h.votes || key.0 == p)
    && (forall t | t in h'.leaders :: (t in h.leaders && h'.leaders[t] == h.leaders[t]) || h'.leaders[t].leader == p)
    && (forall c: nat, t, v: nat | c != p :: IsCounted(w'.ballots, c, t, v) == IsCounted(w.ballots, c, t, v))
  }

  lemma AckedGrows(h: Proto, h': Proto, v: nat, t: int, m: int)
    requires Extends(h, h') && AckedUpTo(h, v, t, m)
    requires t in h.leaders && m <= |h.leaders[t].log|
    ensures AckedUpTo(h', v, t, m)
  {
    forall i | 1 <= i <= m && IsLeaderEntry(h', t, i) ensures (v, t, i) in h'.acks {
      assert ReignGrows(h.leaders[t], h'.leaders[t]);
      assert IsLeaderEntry(h, t, i);
    }
  }

  lemma OtherKept(w: World, h: Proto, w': World, h': Proto, p: nat, q: nat)
    requires Local(w, h, w', h', p) && q < |w.peers| && q != p && PeerOk(w, h, q)
    ensures PeerOk(w', h', q)
  {
    var peer := w.peers[q];
    assert Counted(w'.ballots, |w.peers|, q, peer.currentTerm) == Counted(w.ballots, |w.peers|, q, peer.currentTerm);
    CommitOkGrows(h, h', peer.logs, peer.logs, peer.currentTerm, peer.currentTerm, peer.commitIndex);
    if peer.status == Leader {
      forall server: nat | server < |w.peers| ensures ProgressOk(h', q, peer, server) {
        assert ProgressOk(h, q, peer, server);
        if server != q { AckedGrows(h, h', server, peer.currentTerm, peer.matchIndex[server]); }
      }
    }
  }

  lemma AppendKept(h: Proto, h': Proto, n: nat, m: AppendMsg)
    requires Extends(h, h') && AppendOk(h, n, m)
    ensures AppendOk(h', n, m)
  {
    var t, prev, end := m.args.term, m.args.prevLogIndex, m.args.prevLogIndex + |m.args.entries|;
    assert ReignGrows(h.leaders[t], h'.leaders[t]);
    assert h.leaders[t].log[prev..end] == h'.leaders[t].log[prev..end];
    var c := m.args.leaderCommit;
    assert h.leaders[t].log[..c] == h'.leaders[t].log[..c];
    CommitOkGrows(h, h', h.leaders[t].log, h'.leaders[t].log, t, t, c);
  }

  lemma AnswerKept(w: World, h: Proto, w': World, h': Proto, a: AppendAnswer)
    requires Extends(h, h') && w.appends <= w'.appends && AnswerOk(w, h, a)
    requires AppendOk(h, |w.peers|, AppendMsg(a.server, a.args))
    ensures AnswerOk(w', h', a)
  {
    if a.reply.success {
      AckedGrows(h, h', a.server, a.args.term, a.args.prevLogIndex + |a.args.entries|);
    } else if a.reply.term == a.args.term && a.reply.conflictingTerm != 0 {
      assert ReignGrows(h.leaders[a.reply.conflictingTerm], h'.leaders[a.reply.conflictingTerm]);
    }
  }

  lemma BallotKept(h: Proto, h': Proto, n: nat, key: (nat, int, nat), ballot: Ballot)
    requires Extends(h, h') && BallotOk(h, n, key, ballot)
    requires ballot.Requested? && (key.2, key.1) in h'.votes && (key.2, key.1) !in h.votes ==> h'.votes[(key.2, key.1)].candidate != key.0
    ensures BallotOk(h', n, key, ballot)
  {
  }
}
