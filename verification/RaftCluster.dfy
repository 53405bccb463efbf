/** A cluster of Raft servers, the network between them and their disks, as a state machine.

    One event is one turn of one server's main loop. Messages may be lost, delayed and
    reordered; append and snapshot messages may even arrive again, while a vote request is
    delivered at most once. A server may crash between events, or inside a handler after any
    of the records it saves there, and restarts from the last record saved. */
module RaftCluster {
  import opened Collections
  import opened RaftProtocol
  import opened RaftPeer

  /** The life of one vote request. */
  datatype Ballot = Requested(args: RequestVoteArgs) | Answered(reply: RequestVoteReply) | Closed(granted: bool)

  datatype AppendMsg = AppendMsg(server: nat, args: AppendEntriesArgs)
  datatype AppendAnswer = AppendAnswer(server: nat, args: AppendEntriesArgs, reply: AppendEntriesReply)
  datatype SnapshotMsg = SnapshotMsg(leader: nat, server: nat, term: int)
  datatype SnapshotAnswer = SnapshotAnswer(leader: nat, term: int)

  /** `ballots` is keyed by candidate, term and voter; `delivered[p]` is what server `p` has
      passed to its service since it started last, in order. */
  datatype World = World(
    peers: seq<Peer>,
    disk: seq<Option<Data>>,
    ballots: map<(nat, int, nat), Ballot>,
    appends: set<AppendMsg>,
    answers: set<AppendAnswer>,
    snapshots: set<SnapshotMsg>,
    snapshotAnswers: set<SnapshotAnswer>,
    delivered: seq<seq<ApplyMsg>>)

  datatype Event =
    | ElectionTimeout(p: nat)
    | ReceiveVoteRequest(c: nat, t: int, v: nat)
    | CrashInVote(c: nat, t: int, v: nat, k: nat)
    | ReceiveVoteReply(c: nat, t: int, v: nat)
    | Start(p: nat, command: Command)
    | SendHeartbeat(p: nat, server: nat)
    | SendEntries(p: nat, server: nat)
    | ReceiveAppend(m: AppendMsg)
    | CrashInAppend(m: AppendMsg, k: nat)
    | ReceiveAppendReply(a: AppendAnswer)
    | ReceiveSnapshot(s: SnapshotMsg)
    | ReceiveSnapshotReply(r: SnapshotAnswer)
    | ApplyTimer(p: nat)
    | Crash(p: nat)

  ghost predicate Init(n: nat, w: World) {
    && |w.peers| == |w.disk| == |w.delivered| == n
    && (forall p | 0 <= p < n :: w.peers[p] == Restart(None, false) && w.disk[p] == None && w.delivered[p] == [])
    && w.ballots == map[] && w.appends == {} && w.answers == {} && w.snapshots == {} && w.snapshotAnswers == {}
  }

  ghost predicate IsServer(w: World, p: nat) {
    p < |w.peers| == |w.disk| == |w.delivered|
  }

  ghost predicate Enabled(w: World, e: Event) {
    match e
    case ElectionTimeout(p) => IsServer(w, p) && w.peers[p].status != Leader
    case ReceiveVoteRequest(c, t, v) => IsServer(w, v) && (c, t, v) in w.ballots && w.ballots[(c, t, v)].Requested?
    case CrashInVote(c, t, v, k) =>
      && IsServer(w, v) && (c, t, v) in w.ballots && w.ballots[(c, t, v)].Requested?
      && k < |HandleRequestVote(w.peers[v], w.ballots[(c, t, v)].args).saves|
    case ReceiveVoteReply(c, t, v) =>
      && IsServer(w, c) && (c, t, v) in w.ballots && w.ballots[(c, t, v)].Answered?
      && w.peers[c].status == Candidate && w.peers[c].currentTerm == t
    case Start(p, _) => IsServer(w, p)
    case SendHeartbeat(p, server) => IsServer(w, p) && server < |w.peers| && server != p && w.peers[p].status == Leader
    case SendEntries(p, server) => IsServer(w, p) && server < |w.peers| && server != p && w.peers[p].status == Leader
    case ReceiveAppend(m) => m in w.appends && IsServer(w, m.server)
    case CrashInAppend(m, k) =>
      m in w.appends && IsServer(w, m.server) && k < |OnAppendEntries(w.peers[m.server], m.args).saves|
    case ReceiveAppendReply(a) =>
      a in w.answers && a.args.leaderId >= 0 && IsServer(w, a.args.leaderId) && w.peers[a.args.leaderId].status == Leader
    case ReceiveSnapshot(s) => s in w.snapshots && IsServer(w, s.server)
    case ReceiveSnapshotReply(r) => r in w.snapshotAnswers && IsServer(w, r.leader) && w.peers[r.leader].status == Leader
    case ApplyTimer(p) => IsServer(w, p)
    case Crash(p) => IsServer(w, p)
  }

  /** The handler's indexing stays in range. */
  ghost predicate InRangeFor(w: World, e: Event)
    requires Enabled(w, e)
  {
    match e
    case SendEntries(p, server) => Addressable(w.peers[p], server)
    case ReceiveAppendReply(a) =>
      var p := w.peers[a.args.leaderId];
      && a.server < |p.nextIndex| == |p.matchIndex| == |w.peers|
      && p.snapshotIndex <= p.commitIndex
    case ApplyTimer(p) => CanApply(w.peers[p])
    case _ => true
  }

  ghost function LastSave(disk: Option<Data>, saves: seq<Data>): Option<Data> {
    if saves == [] then disk else Some(saves[|saves| - 1])
  }

  ghost function SetPeer(w: World, p: nat, peer: Peer, saves: seq<Data>): World
    requires IsServer(w, p)
  {
    w.(peers := w.peers[p := peer], disk := w.disk[p := LastSave(w.disk[p], saves)])
  }

  ghost function Requests(w: World, p: nat, peer: Peer): map<(nat, int, nat), Ballot> {
    map v: nat | v < |w.peers| && v != p :: (p, peer.currentTerm, v) := Requested(VoteRequest(peer, p))
  }

  /** Server `p` saves `data` last and starts again from it. */
  ghost function RestartFrom(w: World, p: nat, data: Data): World
    requires IsServer(w, p)
  {
    SetPeer(w, p, Restart(Some(data), false), [data]).(delivered := w.delivered[p := []])
  }

  // ----- one function per event

  ghost function AfterTimeout(w: World, p: nat): World
    requires IsServer(w, p)
  {
    var peer := StartElection(w.peers[p], p);
    SetPeer(w, p, peer, [Saved(peer)]).(ballots := w.ballots + Requests(w, p, peer))
  }

  ghost function AfterVoteRequest(w: World, key: (nat, int, nat)): World
    requires IsServer(w, key.2) && key in w.ballots && w.ballots[key].Requested?
  {
    var h := HandleRequestVote(w.peers[key.2], w.ballots[key].args);
    SetPeer(w, key.2, h.peer, h.saves).(ballots := w.ballots[key := Answered(h.reply)])
  }

  ghost function AfterCrashInVote(w: World, key: (nat, int, nat), k: nat): World
    requires IsServer(w, key.2) && key in w.ballots && w.ballots[key].Requested?
    requires k < |HandleRequestVote(w.peers[key.2], w.ballots[key].args).saves|
  {
    var data := HandleRequestVote(w.peers[key.2], w.ballots[key].args).saves[k];
    RestartFrom(w, key.2, data).(ballots := w.ballots[key := Closed(false)])
  }

  ghost function AfterVoteReply(w: World, key: (nat, int, nat)): World
    requires IsServer(w, key.0) && key in w.ballots && w.ballots[key].Answered?
  {
    var c, reply := key.0, w.ballots[key].reply;
    SetPeer(w, c, HandleVoteReply(w.peers[c], reply, |w.peers|), StepDownSaves(w.peers[c], reply.term))
    .(ballots := w.ballots[key := Closed(reply.voteGranted)])
  }

  ghost function AfterStart(w: World, p: nat, command: Command): World
    requires IsServer(w, p)
  {
    var h := HandleCommand(w.peers[p], command);
    SetPeer(w, p, h.peer, h.saves)
  }

  ghost function AfterSend(w: World, m: AppendMsg): World {
    w.(appends := w.appends + {m})
  }

  ghost function AfterAppend(w: World, m: AppendMsg): World
    requires IsServer(w, m.server)
  {
    var h := OnAppendEntries(w.peers[m.server], m.args);
    SetPeer(w, m.server, h.peer, h.saves).(answers := w.answers + {AppendAnswer(m.server, m.args, h.reply)})
  }

  ghost function AfterCrashInAppend(w: World, m: AppendMsg, k: nat): World
    requires IsServer(w, m.server) && k < |OnAppendEntries(w.peers[m.server], m.args).saves|
  {
    var data := OnAppendEntries(w.peers[m.server], m.args).saves[k];
    RestartFrom(w, m.server, data)
  }

  ghost function AfterAppendReply(w: World, a: AppendAnswer): World
    requires a.args.leaderId >= 0 && IsServer(w, a.args.leaderId)
    requires a.server < |w.peers[a.args.leaderId].nextIndex| == |w.peers[a.args.leaderId].matchIndex|
  {
    var p := a.args.leaderId;
    var h := HandleAppendReply(w.peers[p], p, a.server, a.args, a.reply);
    SetPeer(w, p, h.peer, h.saves).(snapshots :=
      w.snapshots + if h.reply then {SnapshotMsg(p, a.server, w.peers[p].currentTerm)} else {})
  }

  ghost function AfterSnapshot(w: World, s: SnapshotMsg): World
    requires IsServer(w, s.server)
  {
    var h := HandleEmptySnapshot(w.peers[s.server], s.term);
    SetPeer(w, s.server, h.peer, h.saves).(snapshotAnswers := w.snapshotAnswers + {SnapshotAnswer(s.leader, h.reply)})
  }

  ghost function AfterStepDown(w: World, p: nat, t: int): World
    requires IsServer(w, p)
  {
    SetPeer(w, p, StepDown(w.peers[p], t), StepDownSaves(w.peers[p], t))
  }

  ghost function AfterApply(w: World, p: nat): World
    requires IsServer(w, p) && CanApply(w.peers[p])
  {
    var (peer, msgs) := ApplyToClient(w.peers[p]);
    w.(peers := w.peers[p := peer], delivered := w.delivered[p := w.delivered[p] + msgs])
  }

  ghost function AfterCrash(w: World, p: nat): World
    requires IsServer(w, p)
  {
    w.(peers := w.peers[p := Restart(w.disk[p], false)], delivered := w.delivered[p := []])
  }

  ghost function Do(w: World, e: Event): World
    requires Enabled(w, e) && InRangeFor(w, e)
  {
    match e
    case ElectionTimeout(p) => AfterTimeout(w, p)
    case ReceiveVoteRequest(c, t, v) => AfterVoteRequest(w, (c, t, v))
    case CrashInVote(c, t, v, k) => AfterCrashInVote(w, (c, t, v), k)
    case ReceiveVoteReply(c, t, v) => AfterVoteReply(w, (c, t, v))
    case Start(p, command) => AfterStart(w, p, command)
    case SendHeartbeat(p, server) => AfterSend(w, AppendMsg(server, Heartbeat(w.peers[p], p)))
    case SendEntries(p, server) =>
      var args := Broadcast(w.peers[p], p, server);
      if args.Some? then AfterSend(w, AppendMsg(server, args.value)) else w
    case ReceiveAppend(m) => AfterAppend(w, m)
    case CrashInAppend(m, k) => AfterCrashInAppend(w, m, k)
    case ReceiveAppendReply(a) => AfterAppendReply(w, a)
    case ReceiveSnapshot(s) => AfterSnapshot(w, s)
    case ReceiveSnapshotReply(r) => AfterStepDown(w, r.leader, r.term)
    case ApplyTimer(p) => AfterApply(w, p)
    case Crash(p) => AfterCrash(w, p)
  }

  ghost predicate Next(w: World, w': World) {
    exists e :: Enabled(w, e) && InRangeFor(w, e) && w' == Do(w, e)
  }

  ghost predicate StepsAt(run: seq<World>, k: nat)
    requires k + 1 < |run|
  {
    Next(run[k], run[k + 1])
  }

  /** A run of a cluster of `n` servers. */
  ghost predicate IsRun(n: nat, run: seq<World>) {
    && run != []
    && Init(n, run[0])
    && forall k | 0 <= k < |run| - 1 :: StepsAt(run, k)
  }
}
