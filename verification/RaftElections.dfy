/** The invariant through elections, crashes and changes of term. */
module RaftElections {
  import opened Collections
  import opened RaftProtocol
  import opened RaftPeer
  import opened RaftCluster
  import opened RaftInvariant
  import opened Sealing

  // ----- putting the pieces together

  lemma Assemble(w: World, h: Proto, w': World, h': Proto, p: nat)
    requires Inv(w, h) && ProtoInv(h') && Local(w, h, w', h', p) && p < |w.peers|
    requires Linked(w', h') && PeerOk(w', h', p) && MessagesOk(w', h')
    ensures Inv(w', h')
  {
    assert Unsealed(ClusterSeal);
    forall q: nat | q < |w'.peers| ensures PeerOk(w', h', q) {
      if q != p { OtherKept(w, h, w', h', p, q); }
    }
  }

  /** A ballot as before, on which no vote was just cast. */
  ghost predicate BallotAsBefore(w: World, h: Proto, w': World, h': Proto, key: (nat, int, nat))
    requires key in w'.ballots
  {
    && key in w.ballots
    && w'.ballots[key] == w.ballots[key]
    && (w.ballots[key].Requested? && (key.2, key.1) in h'.votes && (key.2, key.1) !in h.votes
        ==> h'.votes[(key.2, key.1)].candidate != key.0)
  }

  lemma MessagesKept(w: World, h: Proto, w': World, h': Proto)
    requires Inv(w, h) && Extends(h, h') && |w'.peers| == |w.peers|
    requires forall key | key in w'.ballots :: BallotAsBefore(w, h, w', h', key) || BallotOk(h', |w.peers|, key, w'.ballots[key])
    requires w.appends <= w'.appends && forall m | m in w'.appends :: m in w.appends || AppendOk(h', |w.peers|, m)
    requires forall a | a in w'.answers :: a in w.answers || AnswerOk(w', h', a)
    requires forall s | s in w'.snapshots :: s in w.snapshots || (s.leader < |w.peers| && s.server < |w.peers|)
    requires forall r | r in w'.snapshotAnswers :: r in w.snapshotAnswers || r.leader < |w.peers|
    ensures MessagesOk(w', h')
  {
    assert Unsealed(ClusterSeal);
    forall key | key in w'.ballots ensures BallotOk(h', |w'.peers|, key, w'.ballots[key]) {
      if BallotAsBefore(w, h, w', h', key) { BallotKept(h, h', |w.peers|, key, w.ballots[key]); }
    }
    forall m | m in w'.appends ensures AppendOk(h', |w'.peers|, m) {
      if m in w.appends { AppendKept(h, h', |w.peers|, m); }
    }
    forall a | a in w'.answers ensures AnswerOk(w', h', a) {
      if a in w.answers {
        assert AnswerOk(w, h, a);
        AnswerKept(w, h, w', h', a);
      }
    }
  }

  /** A step that changes one server, casts no vote and sends nothing. */
  lemma QuietStep(w: World, h: Proto, p: nat, peer: Peer, saves: seq<Data>, h': Proto)
    requires Inv(w, h) && p < |w.peers| && ProtoInv(h') && Extends(h, h') && h'.votes == h.votes
    requires forall t | t in h'.leaders :: (t in h.leaders && h'.leaders[t] == h.leaders[t]) || h'.leaders[t].leader == p
    requires Linked(SetPeer(w, p, peer, saves), h') && PeerOk(SetPeer(w, p, peer, saves), h', p)
    ensures Inv(SetPeer(w, p, peer, saves), h')
  {
    MessagesKept(w, h, SetPeer(w, p, peer, saves), h');
    Assemble(w, h, SetPeer(w, p, peer, saves), h', p);
  }

  lemma PeerHolds(w: World, h: Proto, p: nat)
    requires Inv(w, h) && p < |w.peers|
    ensures PeerOk(w, h, p) && Linked(w, h) && ProtoInv(h)
  {
    assert Unsealed(ClusterSeal);
  }

  lemma BallotHolds(w: World, h: Proto, key: (nat, int, nat))
    requires Inv(w, h) && key in w.ballots
    ensures BallotOk(h, |w.peers|, key, w.ballots[key])
    ensures Extends(h, h)
  {
    assert Unsealed(ClusterSeal) && Unsealed(ProtocolSeal);
  }

  lemma LinkHolds(w: World, h: Proto)
    requires Inv(w, h)
    ensures Linked(w, h) && Extends(h, h)
  {
    assert Unsealed(ClusterSeal);
  }

  // ----- a later term

  lemma AdvanceAllowed(w: World, h: Proto, p: nat, t: int)
    requires Inv(w, h) && p < |w.peers| && t > w.peers[p].currentTerm
    ensures ProtoInv(Advance(h, p, t)) && Extends(h, Advance(h, p, t)) && (p, t) !in h.votes
  {
    assert Unsealed(ClusterSeal) && Unsealed(ProtocolSeal);
    AdvanceKeeps(h, p, t);
    assert (p, t) in h.votes ==> VoteOk(h, (p, t));
  }

  lemma StepDownKeeps(w: World, h: Proto, p: nat, t: int) returns (h': Proto)
    requires Inv(w, h) && p < |w.peers|
    ensures Inv(AfterStepDown(w, p, t), h') && Extends(h, h')
    ensures h' == if t > w.peers[p].currentTerm then Advance(h, p, t) else h
  {
    var peer := w.peers[p];
    PeerHolds(w, h, p);
    if t > peer.currentTerm {
      h' := Advance(h, p, t);
      AdvanceAllowed(w, h, p, t);
      CommitOkGrows(h, h', peer.logs, peer.logs, peer.currentTerm, t, peer.commitIndex);
      QuietStep(w, h, p, HigherTerm(peer, t), [Saved(HigherTerm(peer, t))], h');
    } else {
      h' := h;
      assert SetPeer(w, p, peer, []) == w;
      ExtendsSelf(h);
    }
  }

  lemma ExtendsSelf(h: Proto)
    requires |h.terms| == |h.logs|
    ensures Extends(h, h)
  {
  }

  /** A crash loses only what is not on disk. */
  lemma CrashKeeps(w: World, h: Proto, p: nat)
    requires Inv(w, h) && p < |w.peers|
    ensures Inv(AfterCrash(w, p), h)
  {
    var w' := AfterCrash(w, p);
    PeerHolds(w, h, p);
    ExtendsSelf(h);
    MessagesKept(w, h, w', h);
    Assemble(w, h, w', h, p);
  }

  // ----- candidates

  /** Nothing was asked or promised yet in the term a candidate enters. */
  lemma FreshTerm(w: World, h: Proto, p: nat)
    requires Inv(w, h) && p < |w.peers|
    ensures var t := w.peers[p].currentTerm + 1;
            && t >= 1
            && (p, t) !in h.votes && (p, t) !in h.bids
            && (t in h.leaders ==> h.leaders[t].leader != p)
            && (forall v: nat :: (p, t, v) !in w.ballots)
            && (forall v: nat | (v, t) in h.votes :: h.votes[(v, t)].candidate != p)
  {
    assert Unsealed(ClusterSeal) && Unsealed(ProtocolSeal);
    var t := w.peers[p].currentTerm + 1;
    assert PeerOk(w, h, p);
    assert (p, t) in h.votes ==> VoteOk(h, (p, t));
    assert (p, t) in h.bids ==> BidOk(h, (p, t));
    assert t in h.leaders ==> ReignOk(h, t);
    forall key | key in w.ballots ensures (key.0, key.1) in h.bids {
      assert BallotOk(h, |w.peers|, key, w.ballots[key]);
    }
    assert forall v: nat :: (p, t, v).0 == p && (p, t, v).1 == t;
    forall v: nat | (v, t) in h.votes ensures h.votes[(v, t)].candidate != p {
      assert VoteOk(h, (v, t));
    }
  }

  lemma RequestDescribes(h: Proto, p: nat, peer: Peer)
    requires LogOk(h.leaders, peer.logs) && peer.snapshotIndex == 0 && -1 <= peer.snapshotTerm <= 0
    ensures DescribesLog(VoteRequest(peer, p), peer.logs)
  {
    if peer.logs != [] { assert EntryOk(h.leaders, peer.logs, |peer.logs| - 1); }
  }

  /** The ballots after a candidacy starts: those before, and the new requests. */
  lemma NewBallots(w: World, p: nat, key: (nat, int, nat))
    requires IsServer(w, p) && key in AfterTimeout(w, p).ballots
    ensures var peer := StartElection(w.peers[p], p);
            var ballot := AfterTimeout(w, p).ballots[key];
            || (key.0 == p && key.1 == peer.currentTerm && key.2 < |w.peers| && key.2 != p && ballot == Requested(VoteRequest(peer, p)))
            || (key in w.ballots && ballot == w.ballots[key])
  {
    var peer := StartElection(w.peers[p], p);
    if key in Requests(w, p, peer) {
      var v: nat :| v < |w.peers| && v != p && key == (p, peer.currentTerm, v);
    }
  }

  lemma CampaignBallot(w: World, h: Proto, p: nat, key: (nat, int, nat))
    requires Inv(w, h) && p < |w.peers| && key in AfterTimeout(w, p).ballots
    ensures var w', h' := AfterTimeout(w, p), Campaign(h, p);
            BallotAsBefore(w, h, w', h', key) || BallotOk(h', |w.peers|, key, w'.ballots[key])
  {
    FreshTerm(w, h, p);
    NewBallots(w, p, key);
    PeerHolds(w, h, p);
    LastLogOk(w, h, p);
    RequestDescribes(h, p, StartElection(w.peers[p], p));
    if key in w.ballots { BallotHolds(w, h, key); }
  }

  lemma LastLogOk(w: World, h: Proto, p: nat)
    requires Inv(w, h) && p < |w.peers|
    ensures LogOk(h.leaders, w.peers[p].logs)
  {
    assert Unsealed(ClusterSeal) && Unsealed(ProtocolSeal);
  }

  lemma CampaignMessages(w: World, h: Proto, p: nat)
    requires Inv(w, h) && p < |w.peers|
    requires Extends(h, Campaign(h, p))
    ensures MessagesOk(AfterTimeout(w, p), Campaign(h, p))
  {
    var w', h' := AfterTimeout(w, p), Campaign(h, p);
    forall key | key in w'.ballots
      ensures BallotAsBefore(w, h, w', h', key) || BallotOk(h', |w.peers|, key, w'.ballots[key])
    {
      CampaignBallot(w, h, p, key);
    }
    MessagesKept(w, h, w', h');
  }

  lemma CampaignCounts(w: World, h: Proto, p: nat)
    requires Inv(w, h) && p < |w.peers|
    ensures var w', t := AfterTimeout(w, p), w.peers[p].currentTerm + 1;
            && Counted(w'.ballots, |w.peers|, p, t) == {}
            && (forall c: nat, t, v: nat | c != p :: IsCounted(w'.ballots, c, t, v) == IsCounted(w.ballots, c, t, v))
  {
    assert Unsealed(ClusterSeal) && Unsealed(ProtocolSeal);
    var w', t := AfterTimeout(w, p), w.peers[p].currentTerm + 1;
    FreshTerm(w, h, p);
    forall v: nat ensures !IsCounted(w'.ballots, p, t, v) {
      if (p, t, v) in w'.ballots { NewBallots(w, p, (p, t, v)); }
    }
    forall c: nat, t, v: nat | c != p ensures IsCounted(w'.ballots, c, t, v) == IsCounted(w.ballots, c, t, v) {
      if (c, t, v) in w'.ballots { NewBallots(w, p, (c, t, v)); }
    }
  }

  lemma CampaignAllowed(w: World, h: Proto, p: nat)
    requires Inv(w, h) && p < |w.peers|
    ensures ProtoInv(Campaign(h, p)) && Extends(h, Campaign(h, p))
  {
    PeerHolds(w, h, p);
    assert Unsealed(ProtocolSeal);
    CampaignKeeps(h, p);
  }

  lemma CandidateIsOk(w: World, h: Proto, p: nat)
    requires Inv(w, h) && p < |w.peers| && Extends(h, Campaign(h, p))
    ensures PeerOk(AfterTimeout(w, p), Campaign(h, p), p)
  {
    var peer := w.peers[p];
    PeerHolds(w, h, p);
    FreshTerm(w, h, p);
    CampaignCounts(w, h, p);
    CommitOkGrows(h, Campaign(h, p), peer.logs, peer.logs, peer.currentTerm, peer.currentTerm + 1, peer.commitIndex);
  }

  lemma ElectionTimeoutKeeps(w: World, h: Proto, p: nat) returns (h': Proto)
    requires Inv(w, h) && p < |w.peers|
    ensures Inv(AfterTimeout(w, p), h') && Extends(h, h')
  {
    h' := Campaign(h, p);
    CampaignAllowed(w, h, p);
    CandidateIsOk(w, h, p);
    CampaignCounts(w, h, p);
    CampaignMessages(w, h, p);
    PeerHolds(w, h, p);
    Assemble(w, h, AfterTimeout(w, p), h', p);
  }

  // ----- voters

  lemma SetTwice(w: World, p: nat, a: Peer, sa: seq<Data>, b: Peer, sb: seq<Data>)
    requires IsServer(w, p)
    ensures SetPeer(SetPeer(w, p, a, sa), p, b, sb) == SetPeer(w, p, b, sa + sb)
  {
    var w1 := SetPeer(w, p, a, sa);
    assert w1.peers[p := b] == w.peers[p := b];
    assert LastSave(LastSave(w.disk[p], sa), sb) == LastSave(w.disk[p], sa + sb);
    assert w1.disk[p := LastSave(w1.disk[p], sb)] == w.disk[p := LastSave(w.disk[p], sa + sb)];
  }

  /** Saving the same record again changes nothing. */
  lemma ResaveKeeps(w: World, h: Proto, p: nat)
    requires Inv(w, h) && p < |w.peers|
    ensures Inv(SetPeer(w, p, w.peers[p], [Saved(w.peers[p])]), h)
  {
    assert Unsealed(ClusterSeal);
    var w' := SetPeer(w, p, w.peers[p], [Saved(w.peers[p])]);
    assert PeerOk(w, h, p);
    ExtendsSelf(h);
    assert PeerOk(w', h, p);
    MessagesKept(w, h, w', h);
    Assemble(w, h, w', h, p);
  }

  ghost function SetBallot(w: World, key: (nat, int, nat), ballot: Ballot): World {
    w.(ballots := w.ballots[key := ballot])
  }

  ghost predicate Refuses(ballot: Ballot) {
    (ballot.Answered? && !ballot.reply.voteGranted) || ballot == Closed(false)
  }

  lemma RefuseKeeps(w: World, h: Proto, key: (nat, int, nat), ballot: Ballot)
    requires Inv(w, h) && key in w.ballots && !w.ballots[key].Closed? && Refuses(ballot)
    ensures Inv(SetBallot(w, key, ballot), h)
  {
    assert Unsealed(ClusterSeal);
    var w' := SetBallot(w, key, ballot);
    assert BallotOk(h, |w.peers|, key, w.ballots[key]);
    ExtendsSelf(h);
    forall c: nat, t, v: nat ensures IsCounted(w'.ballots, c, t, v) == IsCounted(w.ballots, c, t, v) {}
    assert Counted(w'.ballots, |w.peers|, key.2, w.peers[key.2].currentTerm) == Counted(w.ballots, |w.peers|, key.2, w.peers[key.2].currentTerm);
    assert PeerOk(w, h, key.2);
    assert PeerOk(w', h, key.2);
    MessagesKept(w, h, w', h);
    Assemble(w, h, w', h, key.2);
  }

  /** A request that is delivered has not been voted on before, so a voter who can vote has
      not voted at all in this term. */
  lemma NotVotedYet(w: World, h: Proto, key: (nat, int, nat))
    requires Inv(w, h) && key in w.ballots && w.ballots[key].Requested?
    requires key.2 < |w.peers| && w.peers[key.2].currentTerm == key.1
    ensures w.peers[key.2].votedFor != key.0
  {
    assert Unsealed(ClusterSeal);
    assert BallotOk(h, |w.peers|, key, w.ballots[key]);
    assert PeerOk(w, h, key.2);
  }

  lemma LastTermPositive(h: Proto, log: Log)
    requires ProtoFacts(h) && LogOk(h.leaders, log)
    ensures log != [] ==> LastTerm(log) >= 1
  {
    if log != [] {
      assert EntryOk(h.leaders, log, |log| - 1);
      assert ReignOk(h, LastTerm(log));
    }
  }

  /** The check on the request is the check on the candidate's log. */
  lemma ChecksLog(args: RequestVoteArgs, bid: Log, peer: Peer)
    requires DescribesLog(args, bid) && LastLogIndex(peer) == |peer.logs|
    requires peer.snapshotIndex == 0 && -1 <= peer.snapshotTerm <= 0
    requires bid != [] ==> LastTerm(bid) >= 1
    requires peer.logs != [] ==> LastTerm(peer.logs) >= 1
    requires AtLeastAsUpToDate(args, peer)
    ensures UpToDate(bid, peer.logs)
  {
  }

  ghost predicate Grants(key: (nat, int, nat), ballot: Ballot) {
    ballot == Answered(RequestVoteReply(key.1, true)) || ballot == Closed(false)
  }

  ghost function AfterGrant(w: World, key: (nat, int, nat), ballot: Ballot): World
    requires IsServer(w, key.2)
  {
    var peer := w.peers[key.2].(votedFor := key.0);
    SetBallot(SetPeer(w, key.2, peer, [Saved(peer)]), key, ballot)
  }

  lemma GrantMessages(w: World, h: Proto, key: (nat, int, nat), ballot: Ballot)
    requires Inv(w, h) && key in w.ballots && w.ballots[key].Requested? && Grants(key, ballot)
    requires key.2 < |w.peers| && w.peers[key.2].currentTerm == key.1
    requires Extends(h, CastVote(h, key.2, key.0))
    ensures MessagesOk(AfterGrant(w, key, ballot), CastVote(h, key.2, key.0))
  {
    assert Unsealed(ClusterSeal);
    var w', h' := AfterGrant(w, key, ballot), CastVote(h, key.2, key.0);
    assert BallotOk(h, |w.peers|, key, w.ballots[key]);
    forall k | k in w'.ballots
      ensures BallotAsBefore(w, h, w', h', k) || BallotOk(h', |w.peers|, k, w'.ballots[k])
    {
      if k != key {
        assert BallotOk(h, |w.peers|, k, w.ballots[k]);
        assert k == (k.0, k.1, k.2) && key == (key.0, key.1, key.2);
      }
    }
    MessagesKept(w, h, w', h');
  }

  /** The vote is one the protocol allows. */
  lemma GrantAllowed(w: World, h: Proto, key: (nat, int, nat))
    requires Inv(w, h) && key in w.ballots && w.ballots[key].Requested?
    requires key.2 < |w.peers| && w.peers[key.2].currentTerm == key.1 && w.peers[key.2].votedFor == -1
    requires AtLeastAsUpToDate(w.ballots[key].args, w.peers[key.2])
    ensures ProtoInv(CastVote(h, key.2, key.0)) && Extends(h, CastVote(h, key.2, key.0))
  {
    assert Unsealed(ClusterSeal) && Unsealed(ProtocolSeal);
    var (c, t, v) := key;
    assert BallotOk(h, |w.peers|, key, w.ballots[key]);
    assert PeerOk(w, h, v);
    assert BidOk(h, (c, t));
    LastTermPositive(h, h.bids[(c, t)]);
    LastTermPositive(h, w.peers[v].logs);
    LastIndexIsLength(w, h, v);
    ChecksLog(w.ballots[key].args, h.bids[(c, t)], w.peers[v]);
    CastVoteKeeps(h, v, c);
  }

  lemma GrantKeeps(w: World, h: Proto, key: (nat, int, nat), ballot: Ballot) returns (h': Proto)
    requires Inv(w, h) && key in w.ballots && w.ballots[key].Requested? && Grants(key, ballot)
    requires key.2 < |w.peers| && w.peers[key.2].currentTerm == key.1 && w.peers[key.2].votedFor == -1
    requires AtLeastAsUpToDate(w.ballots[key].args, w.peers[key.2])
    ensures Inv(AfterGrant(w, key, ballot), h') && Extends(h, h')
  {
    var (c, t, v) := key;
    var w' := AfterGrant(w, key, ballot);
    h' := CastVote(h, v, c);
    GrantAllowed(w, h, key);
    GrantMessages(w, h, key, ballot);
    GrantedPeer(w, h, key, ballot);
    forall a: nat, b, d: nat ensures IsCounted(w'.ballots, a, b, d) == IsCounted(w.ballots, a, b, d) {}
    LinkHolds(w, h);
    Assemble(w, h, w', h', v);
  }

  lemma GrantedPeer(w: World, h: Proto, key: (nat, int, nat), ballot: Ballot)
    requires Inv(w, h) && key in w.ballots && w.ballots[key].Requested? && Grants(key, ballot)
    requires key.2 < |w.peers| && w.peers[key.2].currentTerm == key.1 && w.peers[key.2].votedFor == -1
    requires Extends(h, CastVote(h, key.2, key.0))
    ensures PeerOk(AfterGrant(w, key, ballot), CastVote(h, key.2, key.0), key.2)
  {
    assert Unsealed(ClusterSeal);
    var v := key.2;
    var h', peer := CastVote(h, v, key.0), w.peers[v];
    assert PeerOk(w, h, v);
    CommitOkGrows(h, h', peer.logs, peer.logs, key.1, key.1, peer.commitIndex);
    forall a: nat, b, d: nat ensures IsCounted(w.ballots[key := ballot], a, b, d) == IsCounted(w.ballots, a, b, d) {}
    if peer.status == Leader {
      forall server: nat | server < |w.peers| ensures ProgressOk(h', v, peer.(votedFor := key.0), server) {
        assert ProgressOk(h, v, peer, server);
      }
    }
  }

  /** What the voter does, step by step: give way to the term, then grant or refuse. */
  lemma VoteDecision(w: World, h: Proto, key: (nat, int, nat), granting: Ballot, refusing: Ballot) returns (w': World, h': Proto)
    requires Inv(w, h) && key in w.ballots && w.ballots[key].Requested?
    requires key.2 < |w.peers| && w.peers[key.2].currentTerm >= key.1
    requires Grants(key, granting) && Refuses(refusing)
    ensures Inv(w', h') && Extends(h, h')
    ensures var r := HandleRequestVote(w.peers[key.2], w.ballots[key].args);
            w' == SetBallot(SetPeer(w, key.2, r.peer, r.saves), key, if r.reply.voteGranted then granting else refusing)
    ensures var r := HandleRequestVote(w.peers[key.2], w.ballots[key].args);
            |r.saves| <= 1 && (r.reply.voteGranted ==> r.reply.term == key.1)
  {
    var v := key.2;
    var peer, args := w.peers[v], w.ballots[key].args;
    BallotHolds(w, h, key);
    h' := h;
    assert SetPeer(w, v, peer, []) == w;
    if args.term < peer.currentTerm {
      RefuseKeeps(w, h, key, refusing);
      w' := SetBallot(w, key, refusing);
    } else {
      NotVotedYet(w, h, key);
      if peer.votedFor == -1 {
        if AtLeastAsUpToDate(args, peer) {
          h' := GrantKeeps(w, h, key, granting);
          w' := AfterGrant(w, key, granting);
        } else {
          assert peer.(votedFor := -1) == peer;
          ResaveKeeps(w, h, v);
          var w1 := SetPeer(w, v, peer, [Saved(peer)]);
          RefuseKeeps(w1, h, key, refusing);
          w' := SetBallot(w1, key, refusing);
        }
      } else {
        RefuseKeeps(w, h, key, refusing);
        w' := SetBallot(w, key, refusing);
      }
    }
  }

  /** Handling a request is giving way first and handling it in the new term after. */
  lemma VoteInTerm(p: Peer, args: RequestVoteArgs)
    ensures var r, r1 := HandleRequestVote(p, args), HandleRequestVote(StepDown(p, args.term), args);
            && r.peer == r1.peer && r.reply == r1.reply
            && r.saves == StepDownSaves(p, args.term) + r1.saves
  {
    assert StepDown(StepDown(p, args.term), args.term) == StepDown(p, args.term);
    var r1 := HandleRequestVote(StepDown(p, args.term), args);
    assert [] + r1.saves == r1.saves;
  }

  lemma VoteRequestKeeps(w: World, h: Proto, key: (nat, int, nat)) returns (h': Proto)
    requires Inv(w, h) && key in w.ballots && w.ballots[key].Requested? && IsServer(w, key.2)
    ensures Inv(AfterVoteRequest(w, key), h') && Extends(h, h')
  {
    var v := key.2;
    var peer, args := w.peers[v], w.ballots[key].args;
    BallotHolds(w, h, key);
    var h1 := StepDownKeeps(w, h, v, args.term);
    var w1 := AfterStepDown(w, v, args.term);
    VoteInTerm(peer, args);
    var r := HandleRequestVote(peer, args);
    var w2;
    var granting := Answered(RequestVoteReply(key.1, true));
    var refusing := if r.reply.voteGranted then Closed(false) else Answered(r.reply);
    w2, h' := VoteDecision(w1, h1, key, granting, refusing);
    SetTwice(w, v, StepDown(peer, args.term), StepDownSaves(peer, args.term), r.peer, HandleRequestVote(w1.peers[v], args).saves);
    assert w2 == AfterVoteRequest(w, key);
    ExtendsTransitive(h, h1, h');
  }

  /** A voter that crashes after giving way, or after deciding: as if it had done as much and
      then crashed. */
  lemma CrashInVoteKeeps(w: World, h: Proto, key: (nat, int, nat), k: nat) returns (h': Proto)
    requires Inv(w, h) && key in w.ballots && w.ballots[key].Requested? && IsServer(w, key.2)
    requires k < |HandleRequestVote(w.peers[key.2], w.ballots[key].args).saves|
    ensures Inv(AfterCrashInVote(w, key, k), h') && Extends(h, h')
  {
    var v := key.2;
    var peer, args := w.peers[v], w.ballots[key].args;
    BallotHolds(w, h, key);
    var r := HandleRequestVote(peer, args);
    var data := r.saves[k];
    VoteInTerm(peer, args);
    var h1 := StepDownKeeps(w, h, v, args.term);
    var w1 := AfterStepDown(w, v, args.term);
    var w2;
    w2, h' := VoteDecision(w1, h1, key, Closed(false), Closed(false));
    ExtendsTransitive(h, h1, h');
    if k < |StepDownSaves(peer, args.term)| {
      h' := h1;
      RefuseKeeps(w1, h1, key, Closed(false));
      CrashedAs(w, key, StepDown(peer, args.term), StepDownSaves(peer, args.term), data);
      CrashKeeps(SetBallot(w1, key, Closed(false)), h1, v);
    } else {
      SetTwice(w, v, StepDown(peer, args.term), StepDownSaves(peer, args.term), r.peer, HandleRequestVote(w1.peers[v], args).saves);
      CrashedAs(w, key, r.peer, r.saves, data);
      CrashKeeps(w2, h', v);
    }
  }

  lemma CrashedAs(w: World, key: (nat, int, nat), peer: Peer, saves: seq<Data>, data: Data)
    requires IsServer(w, key.2) && saves != [] && saves[|saves| - 1] == data
    ensures AfterCrash(SetBallot(SetPeer(w, key.2, peer, saves), key, Closed(false)), key.2) ==
            SetBallot(RestartFrom(w, key.2, data), key, Closed(false))
  {
    var w1 := SetPeer(w, key.2, peer, saves);
    assert w1.peers[key.2 := Restart(Some(data), false)] == w.peers[key.2 := Restart(Some(data), false)];
  }

  // ----- the count

  lemma CountOne(ballots: map<(nat, int, nat), Ballot>, n: nat, key: (nat, int, nat), granted: bool)
    requires key in ballots && ballots[key].Answered? && key.2 < n
    ensures var ballots' := ballots[key := Closed(granted)];
            && (forall c: nat, t, v: nat | (c, t, v) != key :: IsCounted(ballots', c, t, v) == IsCounted(ballots, c, t, v))
            && |Counted(ballots', n, key.0, key.1)| == |Counted(ballots, n, key.0, key.1)| + if granted then 1 else 0
  {
    var ballots' := ballots[key := Closed(granted)];
    assert key == (key.0, key.1, key.2);
    var before, after := Counted(ballots, n, key.0, key.1), Counted(ballots', n, key.0, key.1);
    assert key.2 !in before;
    if granted {
      assert after == before + {key.2};
    } else {
      assert after == before;
    }
  }

  /** The candidate's own vote and those counted are votes for it. */
  lemma CountedElects(w: World, h: Proto, ballots: map<(nat, int, nat), Ballot>, c: nat, t: int)
    requires Inv(w, h) && c < |w.peers| && w.peers[c].status == Candidate && w.peers[c].currentTerm == t
    requires forall v: nat | IsCounted(ballots, c, t, v) :: BallotOk(h, |w.peers|, (c, t, v), ballots[(c, t, v)])
    requires 1 + |Counted(ballots, |w.peers|, c, t)| > |w.peers| / 2
    ensures Elects(h, c, t, {c} + Counted(ballots, |w.peers|, c, t))
  {
    var counted := Counted(ballots, |w.peers|, c, t);
    PeerHolds(w, h, c);
    assert Unsealed(ProtocolSeal);
    assert c !in counted;
    assert |{c} + counted| == 1 + |counted|;
    forall v | v in {c} + counted ensures v < |h.terms| && (v, t) in h.votes && h.votes[(v, t)].candidate == c {
      if v != c { assert BallotOk(h, |w.peers|, (c, t, v), ballots[(c, t, v)]); }
    }
  }

  ghost function AfterCount(w: World, key: (nat, int, nat), peer: Peer, granted: bool): World
    requires IsServer(w, key.0)
  {
    SetBallot(SetPeer(w, key.0, peer, []), key, Closed(granted))
  }

  lemma CountMessages(w: World, h: Proto, key: (nat, int, nat), peer: Peer, h': Proto)
    requires Inv(w, h) && key in w.ballots && w.ballots[key].Answered? && key.0 < |w.peers|
    requires Extends(h, h') && h'.votes == h.votes
    ensures MessagesOk(AfterCount(w, key, peer, w.ballots[key].reply.voteGranted), h')
  {
    assert Unsealed(ClusterSeal);
    var w' := AfterCount(w, key, peer, w.ballots[key].reply.voteGranted);
    assert BallotOk(h, |w.peers|, key, w.ballots[key]);
    forall k | k in w'.ballots
      ensures BallotAsBefore(w, h, w', h', k) || BallotOk(h', |w.peers|, k, w'.ballots[k])
    {
    }
    MessagesKept(w, h, w', h');
  }

  lemma CountKeeps(w: World, h: Proto, key: (nat, int, nat))
    requires Inv(w, h) && key in w.ballots && w.ballots[key].Answered? && key.0 < |w.peers|
    requires w.peers[key.0].status == Candidate && w.peers[key.0].currentTerm == key.1
    ensures var peer, granted := w.peers[key.0], w.ballots[key].reply.voteGranted;
            Inv(AfterCount(w, key, peer.(grantedVotes := peer.grantedVotes + if granted then 1 else 0), granted), h)
  {
    var c, peer, granted := key.0, w.peers[key.0], w.ballots[key].reply.voteGranted;
    var peer' := peer.(grantedVotes := peer.grantedVotes + if granted then 1 else 0);
    var w' := AfterCount(w, key, peer', granted);
    BallotHolds(w, h, key);
    CountOne(w.ballots, |w.peers|, key, granted);
    CountedPeer(w, h, key);
    CountMessages(w, h, key, peer', h);
    PeerHolds(w, h, c);
    Assemble(w, h, w', h, c);
  }

  lemma CountedPeer(w: World, h: Proto, key: (nat, int, nat))
    requires Inv(w, h) && key in w.ballots && w.ballots[key].Answered? && key.0 < |w.peers|
    requires w.peers[key.0].status == Candidate && w.peers[key.0].currentTerm == key.1
    ensures var peer, granted := w.peers[key.0], w.ballots[key].reply.voteGranted;
            var peer' := peer.(grantedVotes := peer.grantedVotes + if granted then 1 else 0);
            PeerOk(AfterCount(w, key, peer', granted), h, key.0)
  {
    PeerHolds(w, h, key.0);
    BallotHolds(w, h, key);
    CountOne(w.ballots, |w.peers|, key, w.ballots[key].reply.voteGranted);
  }

  lemma Won(w: World, h: Proto, c: nat)
    requires Inv(w, h) && c < |w.peers| && w.peers[c].status == Candidate
    requires w.peers[c].grantedVotes > |w.peers| / 2
    ensures var t := w.peers[c].currentTerm;
            && t !in h.leaders && (c, t) in h.bids
            && Elects(h, c, t, {c} + Counted(w.ballots, |w.peers|, c, t))
  {
    assert Unsealed(ClusterSeal) && Unsealed(ProtocolSeal);
    var t := w.peers[c].currentTerm;
    assert PeerOk(w, h, c);
    forall v: nat | IsCounted(w.ballots, c, t, v) ensures BallotOk(h, |w.peers|, (c, t, v), w.ballots[(c, t, v)]) {}
    CountedElects(w, h, w.ballots, c, t);
    if t in h.leaders { OneWinner(h, c, t, {c} + Counted(w.ballots, |w.peers|, c, t)); }
  }

  lemma NewLeaderOk(w: World, h: Proto, c: nat, quorum: set<nat>)
    requires Inv(w, h) && c < |w.peers| && w.peers[c].status == Candidate
    requires (c, w.peers[c].currentTerm) in h.bids
    requires Extends(h, Elect(h, c, w.peers[c].currentTerm, quorum))
    ensures PeerOk(SetPeer(w, c, BecomeLeader(w.peers[c], |w.peers|), []), Elect(h, c, w.peers[c].currentTerm, quorum), c)
  {
    assert Unsealed(ClusterSeal);
    var peer, t := w.peers[c], w.peers[c].currentTerm;
    var h' := Elect(h, c, t, quorum);
    var peer' := BecomeLeader(peer, |w.peers|);
    assert PeerOk(w, h, c);
    CommitOkGrows(h, h', peer.logs, peer.logs, t, t, peer.commitIndex);
    LastIndexIsLength(w, h, c);
    forall server: nat | server < |w.peers| ensures ProgressOk(h', c, peer', server) {}
  }

  lemma LastIndexIsLength(w: World, h: Proto, p: nat)
    requires Inv(w, h) && p < |w.peers|
    ensures LastLogIndex(w.peers[p]) == |w.peers[p].logs|
    ensures Numbered(w.peers[p].logs, 0)
  {
    assert Unsealed(ClusterSeal) && Unsealed(ProtocolSeal);
    var peer := w.peers[p];
    assert PeerOk(w, h, p);
    forall k | 0 <= k < |peer.logs| ensures peer.logs[k].index == k + 1 {
      assert EntryOk(h.leaders, peer.logs, k);
    }
  }

  lemma ElectAllowed(w: World, h: Proto, c: nat, t: int, quorum: set<nat>)
    requires Inv(w, h) && (c, t) in h.bids && Elects(h, c, t, quorum) && t !in h.leaders
    ensures ProtoInv(Elect(h, c, t, quorum)) && Extends(h, Elect(h, c, t, quorum))
  {
    assert Unsealed(ClusterSeal) && Unsealed(ProtocolSeal);
    ElectKeeps(h, c, t, quorum);
  }

  /** A candidate with enough votes takes office. */
  lemma TakeOffice(w: World, h: Proto, c: nat) returns (h': Proto)
    requires Inv(w, h) && c < |w.peers| && w.peers[c].status == Candidate
    requires w.peers[c].grantedVotes > |w.peers| / 2
    ensures Inv(SetPeer(w, c, BecomeLeader(w.peers[c], |w.peers|), []), h') && Extends(h, h')
  {
    var t := w.peers[c].currentTerm;
    Won(w, h, c);
    var quorum := {c} + Counted(w.ballots, |w.peers|, c, t);
    h' := Elect(h, c, t, quorum);
    ElectAllowed(w, h, c, t, quorum);
    NewLeaderOk(w, h, c, quorum);
    LinkHolds(w, h);
    QuietStep(w, h, c, BecomeLeader(w.peers[c], |w.peers|), [], h');
  }

  lemma VoteReplyKeeps(w: World, h: Proto, key: (nat, int, nat)) returns (h': Proto)
    requires Inv(w, h) && key in w.ballots && w.ballots[key].Answered? && IsServer(w, key.0)
    requires w.peers[key.0].status == Candidate && w.peers[key.0].currentTerm == key.1
    ensures Inv(AfterVoteReply(w, key), h') && Extends(h, h')
  {
    var c, peer, reply := key.0, w.peers[key.0], w.ballots[key].reply;
    BallotHolds(w, h, key);
    if reply.term > peer.currentTerm {
      h' := StepDownKeeps(w, h, c, reply.term);
      RefuseKeeps(AfterStepDown(w, c, reply.term), h', key, Closed(false));
    } else {
      var peer1 := peer.(grantedVotes := peer.grantedVotes + if reply.voteGranted then 1 else 0);
      var w1 := AfterCount(w, key, peer1, reply.voteGranted);
      CountKeeps(w, h, key);
      h' := h;
      if peer1.grantedVotes > |w.peers| / 2 {
        h' := TakeOffice(w1, h, c);
        SetTwice(w, c, peer1, [], BecomeLeader(peer1, |w.peers|), []);
        assert SetPeer(w1, c, BecomeLeader(peer1, |w.peers|), []) == AfterVoteReply(w, key);
      } else {
        assert w1 == AfterVoteReply(w, key);
      }
    }
  }
}
