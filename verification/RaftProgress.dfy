/** The cluster gets work done: for every number of servers from two on and every sequence of
    commands there is a run, with no more votes and acknowledgements than a majority needs, in
    which every server passes exactly these commands to its service. */
module RaftProgress {
  import opened Collections
  import opened RaftProtocol
  import opened RaftPeer
  import opened RaftCluster
  import opened RaftLogs

  lemma ExtendRun(n: nat, run: seq<World>, e: Event) returns (run': seq<World>)
    requires IsRun(n, run) && Enabled(run[|run| - 1], e) && InRangeFor(run[|run| - 1], e)
    ensures IsRun(n, run') && run'[|run'| - 1] == Do(run[|run| - 1], e)
  {
    var w := run[|run| - 1];
    run' := run + [Do(w, e)];
    forall k | 0 <= k < |run'| - 1 ensures StepsAt(run', k) {
      if k < |run| - 1 {
        assert StepsAt(run, k);
        assert run'[k] == run[k] && run'[k + 1] == run[k + 1];
      } else {
        assert run'[k] == w;
      }
    }
  }

  lemma FirstWorld(n: nat) returns (run: seq<World>)
    ensures IsRun(n, run) && |run| == 1
  {
    run := [World(seq(n, _ => Restart(None, false)), seq(n, _ => None), map[], {}, {}, {}, {}, seq(n, _ => []))];
  }

  lemma ReceiveIn(n: nat, run: seq<World>, m: AppendMsg) returns (run': seq<World>)
    requires IsRun(n, run) && m in run[|run| - 1].appends && IsServer(run[|run| - 1], m.server)
    ensures IsRun(n, run') && run'[|run'| - 1] == AfterAppend(run[|run| - 1], m)
  {
    run' := ExtendRun(n, run, ReceiveAppend(m));
  }

  lemma BeatIn(n: nat, run: seq<World>, v: nat) returns (run': seq<World>)
    requires IsRun(n, run) && Sizes(n, run[|run| - 1]) && 0 < v < n && run[|run| - 1].peers[0].status == Leader
    ensures IsRun(n, run') && run'[|run'| - 1] == AfterSend(run[|run| - 1], AppendMsg(v, Heartbeat(run[|run| - 1].peers[0], 0)))
  {
    run' := ExtendRun(n, run, SendHeartbeat(0, v));
  }

  lemma ApplyIn(n: nat, run: seq<World>, v: nat) returns (run': seq<World>)
    requires IsRun(n, run) && IsServer(run[|run| - 1], v) && CanApply(run[|run| - 1].peers[v])
    ensures IsRun(n, run') && run'[|run'| - 1] == AfterApply(run[|run| - 1], v)
  {
    run' := ExtendRun(n, run, ApplyTimer(v));
  }

  // ----- the servers on the way

  function Asking(votes: int): Peer {
    Peer(Candidate, 1, 0, [], 0, 0, [], [], votes, false, 0, -1)
  }

  /** Server 0 in office: servers 1 to `a` have confirmed its whole log. */
  function InOffice(n: nat, votes: int, log: Log, a: nat, commit: int, applied: int): Peer {
    Peer(Leader, 1, 0, log, commit, applied,
         seq(n, s => if 1 <= s <= a then |log| + 1 else 1), seq(n, s => if 1 <= s <= a then |log| else 0), votes, false, 0, -1)
  }

  function Following(voted: bool, log: Log, commit: int, applied: int): Peer {
    Peer(Follower, 1, if voted then 0 else -1, log, commit, applied, [], [], 0, false, 0, -1)
  }

  /** A server that has voted, or heard nothing yet. */
  function Idle(voted: bool): Peer {
    if voted then Following(true, [], 0, 0) else Restart(None, false)
  }

  ghost predicate Sizes(n: nat, w: World) {
    |w.peers| == |w.disk| == |w.delivered| == n
  }

  const REQUEST := RequestVoteArgs(1, 0, 0, -1)

  // ----- the election

  ghost predicate Standing(n: nat, w: World, a: nat) {
    && Sizes(n, w) && a < n
    && w.peers[0] == Asking(1 + a)
    && (forall v: nat | 1 <= v < n :: w.peers[v] == Idle(v <= a))
    && (forall v: nat | a < v < n :: (0, 1, v) in w.ballots && w.ballots[(0, 1, v)] == Requested(REQUEST))
    && (forall v: nat | v < n :: w.delivered[v] == [])
  }

  ghost predicate Elected(n: nat, w: World) {
    && Sizes(n, w) && n >= 2
    && w.peers[0] == InOffice(n, 1 + n / 2, [], 0, 0, 0)
    && (forall v: nat | 1 <= v < n :: w.peers[v] == Idle(v <= n / 2))
    && (forall v: nat | v < n :: w.delivered[v] == [])
  }

  lemma Stand(n: nat) returns (run: seq<World>)
    requires n >= 2
    ensures IsRun(n, run) && Standing(n, run[|run| - 1], 0)
  {
    run := FirstWorld(n);
    var w := run[0];
    run := ExtendRun(n, run, ElectionTimeout(0));
    var peer := StartElection(w.peers[0], 0);
    forall v: nat | 1 <= v < n ensures (0, 1, v) in Requests(w, 0, peer) {}
  }

  /** Server `a + 1` votes, and its vote is counted. */
  lemma VoteStep(n: nat, run: seq<World>, a: nat) returns (run': seq<World>)
    requires IsRun(n, run) && n >= 2 && a < n / 2 && Standing(n, run[|run| - 1], a)
    ensures IsRun(n, run')
    ensures if a + 1 < n / 2 then Standing(n, run'[|run'| - 1], a + 1) else Elected(n, run'[|run'| - 1])
  {
    var w, v := run[|run| - 1], a + 1;
    Voted(w, v);
    run' := ExtendRun(n, run, ReceiveVoteRequest(0, 1, v));
    var w1 := run'[|run'| - 1];
    Counts(n, 1 + a);
    run' := ExtendRun(n, run', ReceiveVoteReply(0, 1, v));
  }

  lemma Voted(w: World, v: nat)
    requires IsServer(w, v) && w.peers[v] == Idle(false) && (0, 1, v) in w.ballots && w.ballots[(0, 1, v)] == Requested(REQUEST)
    ensures var w' := AfterVoteRequest(w, (0, 1, v));
            && w'.peers == w.peers[v := Idle(true)] && w'.delivered == w.delivered && |w'.disk| == |w.disk|
            && w'.ballots == w.ballots[(0, 1, v) := Answered(RequestVoteReply(1, true))]
  {
  }

  /** Server 0 takes office with the vote that makes a majority, and not before. */
  lemma Counts(n: nat, votes: int)
    requires votes >= 1
    ensures HandleVoteReply(Asking(votes), RequestVoteReply(1, true), n) ==
            if 2 * (votes + 1) > n then InOffice(n, votes + 1, [], 0, 0, 0) else Asking(votes + 1)
  {
  }

  lemma {:induction false} Vote(n: nat, a: nat) returns (run: seq<World>)
    requires n >= 2 && a <= n / 2
    ensures IsRun(n, run)
    ensures if a < n / 2 then Standing(n, run[|run| - 1], a) else Elected(n, run[|run| - 1])
  {
    if a == 0 {
      run := Stand(n);
    } else {
      run := Vote(n, a - 1);
      run := VoteStep(n, run, a - 1);
    }
  }

  /** In every cluster of two or more servers a leader can be elected. */
  lemma LeaderElected(n: nat) returns (run: seq<World>)
    requires n >= 2
    ensures IsRun(n, run) && Elected(n, run[|run| - 1]) && run[|run| - 1].peers[0].status == Leader
  {
    run := Vote(n, n / 2);
  }

  // ----- the commands

  /** The log a leader of term 1 makes of the commands. */
  function LogOf(commands: seq<Command>): Log {
    seq(|commands|, i requires 0 <= i < |commands| => LogEntry(1, i + 1, commands[i]))
  }

  /** Server 0 has the commands, servers 1 to `a` have confirmed them. */
  ghost predicate Spreading(n: nat, w: World, commands: seq<Command>, a: nat) {
    && Sizes(n, w) && n >= 2 && a < n
    && w.peers[0] == InOffice(n, 1 + n / 2, LogOf(commands), a, if a >= n / 2 then |commands| else 0, 0)
    && (forall v: nat | 1 <= v <= a ::
          w.peers[v] == Following(v <= n / 2, LogOf(commands), if v > n / 2 then |commands| else 0, 0))
    && (forall v: nat | a < v < n :: w.peers[v] == Idle(v <= n / 2))
    && (forall v: nat | v < n :: w.delivered[v] == [])
  }

  lemma {:induction false} Take(n: nat, commands: seq<Command>) returns (run: seq<World>)
    requires n >= 2
    ensures IsRun(n, run) && Spreading(n, run[|run| - 1], commands, 0)
  {
    if commands == [] {
      run := LeaderElected(n);
      assert LogOf(commands) == [];
    } else {
      var front := commands[..|commands| - 1];
      run := Take(n, front);
      run := ExtendRun(n, run, Start(0, commands[|commands| - 1]));
      assert LogOf(commands) == LogOf(front) + [LogEntry(1, |front| + 1, commands[|commands| - 1])];
      assert InOffice(n, 1 + n / 2, LogOf(front), 0, 0, 0).(logs := LogOf(commands)) == InOffice(n, 1 + n / 2, LogOf(commands), 0, 0, 0);
    }
  }

  /** The message with the whole log. */
  function Whole(log: Log, commit: int): AppendEntriesArgs {
    AppendEntriesArgs(1, 0, 0, -1, log, commit)
  }

  lemma SendsWhole(n: nat, votes: int, commands: seq<Command>, a: nat, commit: int, v: nat)
    requires commands != [] && a < v < n
    ensures var p := InOffice(n, votes, LogOf(commands), a, commit, 0);
            Addressable(p, v) && Broadcast(p, 0, v) == Some(Whole(LogOf(commands), commit))
  {
    var log := LogOf(commands);
    assert log[0..] == log;
  }

  /** A server without a log takes the whole one. */
  lemma TakesWhole(voted: bool, commands: seq<Command>, commit: int)
    requires commands != [] && 0 <= commit <= |commands| <= MAX_INT
    ensures var h := OnAppendEntries(Idle(voted), Whole(LogOf(commands), commit));
            h.peer == Following(voted, LogOf(commands), commit, 0) && h.reply == AppendEntriesReply(1, true, 0, 0)
  {
    var log := LogOf(commands);
    assert log[0..|log|] == log;
    assert Truncate([], 0, log) == [];
    AppendFills([], log, 0, |log|);
    assert [] + log == log;
  }

  /** The leader hears of it, and commits with the acknowledgement that makes a majority. */
  lemma HearsWhole(n: nat, commands: seq<Command>, a: nat, commit: int)
    requires commands != [] && n >= 2 && a + 1 < n && commit == (if a >= n / 2 then |commands| else 0)
    ensures var p, log := InOffice(n, 1 + n / 2, LogOf(commands), a, commit, 0), LogOf(commands);
            HandleAppendReply(p, 0, a + 1, Whole(log, commit), AppendEntriesReply(1, true, 0, 0)) ==
            Handled(InOffice(n, 1 + n / 2, log, a + 1, if a + 1 >= n / 2 then |commands| else 0, 0), false, [])
  {
    var log := LogOf(commands);
    var p := InOffice(n, 1 + n / 2, log, a, commit, 0);
    var p1 := p.(matchIndex := p.matchIndex[a + 1 := |log|], nextIndex := p.nextIndex[a + 1 := |log| + 1]);
    assert p1 == InOffice(n, 1 + n / 2, log, a + 1, commit, 0);
    CommitsAll(n, commands, a + 1, commit);
  }

  lemma {:induction false} Acknowledged(matchIndex: seq<int>, a: nat, m: int, i: int)
    requires forall s | 0 <= s < |matchIndex| :: matchIndex[s] == if 1 <= s <= a then m else 0
    requires 1 <= i <= m
    ensures CountMatching(matchIndex, 0, i) == if |matchIndex| == 0 then 0 else Min(a, |matchIndex| - 1)
  {
    if matchIndex != [] { Acknowledged(matchIndex[..|matchIndex| - 1], a, m, i); }
  }

  lemma CommitsAll(n: nat, commands: seq<Command>, a: nat, commit: int)
    requires commands != [] && n >= 2 && 0 < a < n
    requires commit == (if a - 1 >= n / 2 then |commands| else 0)
    ensures var p := InOffice(n, 1 + n / 2, LogOf(commands), a, commit, 0);
            UpdateCommit(p, 0) == p.(commitIndex := if a >= n / 2 then |commands| else 0)
  {
    var p := InOffice(n, 1 + n / 2, LogOf(commands), a, commit, 0);
    forall i | 1 <= i <= |commands| ensures Committable(p, 0, i) <==> a >= n / 2 {
      Acknowledged(p.matchIndex, a, |commands|, i);
    }
    Scanned(p, commit + 1, commit, a >= n / 2);
  }

  lemma {:induction false} Scanned(p: Peer, i: int, commit: int, all: bool)
    requires p.snapshotIndex == 0 && 1 <= i <= |p.logs| + 1 && (all ==> commit == i - 1)
    requires forall j | 1 <= j <= |p.logs| :: Committable(p, 0, j) <==> all
    ensures ScanCommit(p, 0, i, commit) == if all then |p.logs| else commit
    decreases |p.logs| + 1 - i
  {
    if i <= |p.logs| { Scanned(p, i + 1, if all then i else commit, all); }
  }

  /** Server `a + 1` gets the log. */
  lemma SpreadSend(n: nat, run: seq<World>, commands: seq<Command>, a: nat, commit: int) returns (run': seq<World>)
    requires IsRun(n, run) && commands != [] && Spreading(n, run[|run| - 1], commands, a) && a + 1 < n
    requires commit == if a >= n / 2 then |commands| else 0
    ensures IsRun(n, run') && run'[|run'| - 1] == AfterSend(run[|run| - 1], AppendMsg(a + 1, Whole(LogOf(commands), commit)))
  {
    SendsWhole(n, 1 + n / 2, commands, a, commit, a + 1);
    run' := ExtendRun(n, run, SendEntries(0, a + 1));
  }

  lemma Taken(w: World, commands: seq<Command>, voted: bool, commit: int, m: AppendMsg)
    requires 0 < |commands| <= MAX_INT && 0 <= commit <= |commands| && m.args == Whole(LogOf(commands), commit)
    requires IsServer(w, m.server) && w.peers[m.server] == Idle(voted)
    ensures var w' := AfterAppend(w, m);
            && w'.peers == w.peers[m.server := Following(voted, LogOf(commands), commit, 0)]
            && w'.delivered == w.delivered && |w'.disk| == |w.disk|
            && AppendAnswer(m.server, m.args, AppendEntriesReply(1, true, 0, 0)) in w'.answers
  {
    TakesWhole(voted, commands, commit);
  }

  lemma Heard(n: nat, w: World, commands: seq<Command>, a: nat, commit: int, answer: AppendAnswer)
    requires commands != [] && n >= 2 && a + 1 < n && commit == (if a >= n / 2 then |commands| else 0)
    requires Sizes(n, w) && w.peers[0] == InOffice(n, 1 + n / 2, LogOf(commands), a, commit, 0)
    requires answer == AppendAnswer(a + 1, Whole(LogOf(commands), commit), AppendEntriesReply(1, true, 0, 0))
    ensures InOffice(n, 1 + n / 2, LogOf(commands), a, commit, 0).snapshotIndex <= commit
    ensures var w' := AfterAppendReply(w, answer);
            && w'.peers == w.peers[0 := InOffice(n, 1 + n / 2, LogOf(commands), a + 1, if a + 1 >= n / 2 then |commands| else 0, 0)]
            && w'.delivered == w.delivered && |w'.disk| == |w.disk|
  {
    HearsWhole(n, commands, a, commit);
  }

  /** And confirms it. */
  lemma SpreadStep(n: nat, run: seq<World>, commands: seq<Command>, a: nat) returns (run': seq<World>)
    requires IsRun(n, run) && 0 < |commands| <= MAX_INT && Spreading(n, run[|run| - 1], commands, a) && a + 1 < n
    ensures IsRun(n, run') && Spreading(n, run'[|run'| - 1], commands, a + 1)
  {
    var v, commit := a + 1, if a >= n / 2 then |commands| else 0;
    var m := AppendMsg(v, Whole(LogOf(commands), commit));
    run' := SpreadSend(n, run, commands, a, commit);
    Taken(run'[|run'| - 1], commands, v <= n / 2, commit, m);
    run' := ReceiveIn(n, run', m);
    var answer := AppendAnswer(v, m.args, AppendEntriesReply(1, true, 0, 0));
    Heard(n, run'[|run'| - 1], commands, a, commit, answer);
    run' := HearIn(n, run', answer);
    SpreadOn(n, run[|run| - 1], run'[|run'| - 1], commands, a, commit);
  }

  lemma HearIn(n: nat, run: seq<World>, a: AppendAnswer) returns (run': seq<World>)
    requires IsRun(n, run) && a in run[|run| - 1].answers && Sizes(n, run[|run| - 1]) && a.args.leaderId == 0 && a.server < n
    requires var p := run[|run| - 1].peers[0];
             p.status == Leader && |p.nextIndex| == |p.matchIndex| == n && p.snapshotIndex <= p.commitIndex
    ensures IsRun(n, run') && run'[|run'| - 1] == AfterAppendReply(run[|run| - 1], a)
  {
    run' := ExtendRun(n, run, ReceiveAppendReply(a));
  }

  lemma SpreadOn(n: nat, w: World, w': World, commands: seq<Command>, a: nat, commit: int)
    requires Spreading(n, w, commands, a) && a + 1 < n && commit == (if a >= n / 2 then |commands| else 0)
    requires Sizes(n, w') && w'.delivered == w.delivered
    requires w'.peers == w.peers[a + 1 := Following(a + 1 <= n / 2, LogOf(commands), commit, 0)]
                                [0 := InOffice(n, 1 + n / 2, LogOf(commands), a + 1, if a + 1 >= n / 2 then |commands| else 0, 0)]
    ensures Spreading(n, w', commands, a + 1)
  {
  }

  lemma {:induction false} Spread(n: nat, commands: seq<Command>, a: nat) returns (run: seq<World>)
    requires n >= 2 && 0 < |commands| <= MAX_INT && a < n
    ensures IsRun(n, run) && Spreading(n, run[|run| - 1], commands, a)
  {
    if a == 0 {
      run := Take(n, commands);
    } else {
      run := Spread(n, commands, a - 1);
      run := SpreadStep(n, run, commands, a - 1);
    }
  }

  // ----- the services

  function Messages(commands: seq<Command>): seq<ApplyMsg> {
    seq(|commands|, i requires 0 <= i < |commands| => ApplyMsg(commands[i], i + 1))
  }

  /** Servers below `a` have passed the commands on. */
  ghost predicate Serving(n: nat, w: World, commands: seq<Command>, a: nat) {
    && Sizes(n, w) && n >= 2 && a <= n
    && w.peers[0] == InOffice(n, 1 + n / 2, LogOf(commands), n - 1, |commands|, if a > 0 then |commands| else 0)
    && (forall v: nat | a <= v < n && v > 0 ::
          w.peers[v] == Following(v <= n / 2, LogOf(commands), if v > n / 2 then |commands| else 0, 0) && w.delivered[v] == [])
    && (a == 0 ==> w.delivered[0] == [])
    && (forall v: nat | v < a :: w.delivered[v] == Messages(commands))
  }

  lemma AppliesAll(p: Peer, commands: seq<Command>)
    requires p.logs == LogOf(commands) && p.commitIndex == |commands| > 0 && p.lastApplied == 0 && p.snapshotIndex == 0
    ensures CanApply(p) && ApplyToClient(p) == (p.(lastApplied := |commands|), Messages(commands))
  {
    assert ApplyToClient(p).1 == Messages(commands);
  }

  /** A heartbeat brings the commit index. */
  lemma HeartbeatCommits(n: nat, voted: bool, commands: seq<Command>, commit: int)
    requires n > 0 && commands != [] && 0 <= commit <= |commands|
    ensures var beat := Heartbeat(InOffice(n, 1 + n / 2, LogOf(commands), n - 1, |commands|, |commands|), 0);
            OnAppendEntries(Following(voted, LogOf(commands), commit, 0), beat).peer == Following(voted, LogOf(commands), |commands|, 0)
  {
  }

  lemma ServeLeader(n: nat, run: seq<World>, commands: seq<Command>) returns (run': seq<World>)
    requires IsRun(n, run) && commands != [] && Serving(n, run[|run| - 1], commands, 0)
    ensures IsRun(n, run') && Serving(n, run'[|run'| - 1], commands, 1)
  {
    AppliesAll(run[|run| - 1].peers[0], commands);
    run' := ExtendRun(n, run, ApplyTimer(0));
    assert [] + Messages(commands) == Messages(commands);
  }

  lemma BeatTaken(n: nat, w: World, commands: seq<Command>, v: nat, voted: bool, commit: int, m: AppendMsg)
    requires n > 0 && commands != [] && 0 <= commit <= |commands| && m.server == v && IsServer(w, v)
    requires m.args == Heartbeat(InOffice(n, 1 + n / 2, LogOf(commands), n - 1, |commands|, |commands|), 0)
    requires w.peers[v] == Following(voted, LogOf(commands), commit, 0)
    ensures var w' := AfterAppend(w, m);
            && w'.peers == w.peers[v := Following(voted, LogOf(commands), |commands|, 0)]
            && w'.delivered == w.delivered && |w'.disk| == |w.disk|
  {
    HeartbeatCommits(n, voted, commands, commit);
  }

  lemma Applied(w: World, commands: seq<Command>, v: nat, p: Peer)
    requires IsServer(w, v) && w.peers[v] == p && w.delivered[v] == []
    requires p.logs == LogOf(commands) && p.commitIndex == |commands| > 0 && p.lastApplied == 0 && p.snapshotIndex == 0
    ensures CanApply(p) && AfterApply(w, v) ==
            w.(peers := w.peers[v := p.(lastApplied := |commands|)], delivered := w.delivered[v := Messages(commands)])
  {
    AppliesAll(p, commands);
    assert [] + Messages(commands) == Messages(commands);
  }

  lemma ServeStep(n: nat, run: seq<World>, commands: seq<Command>, v: nat) returns (run': seq<World>)
    requires IsRun(n, run) && commands != [] && 0 < v < n && Serving(n, run[|run| - 1], commands, v)
    ensures IsRun(n, run') && Serving(n, run'[|run'| - 1], commands, v + 1)
  {
    var w := run[|run| - 1];
    var m := AppendMsg(v, Heartbeat(w.peers[0], 0));
    run' := BeatIn(n, run, v);
    BeatTaken(n, run'[|run'| - 1], commands, v, v <= n / 2, w.peers[v].commitIndex, m);
    run' := ReceiveIn(n, run', m);
    Applied(run'[|run'| - 1], commands, v, Following(v <= n / 2, LogOf(commands), |commands|, 0));
    run' := ApplyIn(n, run', v);
    ServeOn(n, w, run'[|run'| - 1], commands, v);
  }

  lemma ServeOn(n: nat, w: World, w': World, commands: seq<Command>, v: nat)
    requires Serving(n, w, commands, v) && 0 < v < n && Sizes(n, w')
    requires w'.delivered == w.delivered[v := Messages(commands)] && forall u: nat | u < n && u != v :: w'.peers[u] == w.peers[u]
    ensures Serving(n, w', commands, v + 1)
  {
  }

  lemma {:induction false} Serve(n: nat, commands: seq<Command>, a: nat) returns (run: seq<World>)
    requires n >= 2 && 0 < |commands| <= MAX_INT && a <= n
    ensures IsRun(n, run) && Serving(n, run[|run| - 1], commands, a)
  {
    if a == 0 {
      run := Spread(n, commands, n - 1);
    } else {
      run := Serve(n, commands, a - 1);
      if a == 1 { run := ServeLeader(n, run, commands); } else { run := ServeStep(n, run, commands, a - 1); }
    }
  }

  /** From the initial state, for every sequence of commands: a run at whose end every server
      has passed on exactly these commands, in order. */
  lemma CommandsReachAll(n: nat, commands: seq<Command>) returns (run: seq<World>)
    requires n >= 2 && |commands| <= MAX_INT
    ensures IsRun(n, run)
    ensures var w := run[|run| - 1];
            |w.peers| == |w.delivered| == n && forall p: nat | p < n :: w.delivered[p] == Messages(commands)
  {
    if commands == [] {
      run := FirstWorld(n);
      assert Init(n, run[0]);
    } else {
      run := Serve(n, commands, n);
    }
  }

  /** Server `p` stands for election once more. */
  lemma StandIn(n: nat, run: seq<World>, p: nat) returns (run': seq<World>)
    requires IsRun(n, run) && Sizes(n, run[|run| - 1]) && p < n && run[|run| - 1].peers[p].status != Leader
    ensures IsRun(n, run') && run'[|run'| - 1] == AfterTimeout(run[|run| - 1], p)
  {
    run' := ExtendRun(n, run, ElectionTimeout(p));
  }

  lemma Restarted(n: nat) returns (run: seq<World>)
    requires n >= 2
    ensures IsRun(n, run) && Sizes(n, run[|run| - 1])
    ensures var w := run[|run| - 1];
            w.peers[0] == Restart(None, false) && w.peers[1] == Peer(Follower, 1, 1, [], 0, 0, [], [], 0, false, 0, 0)
  {
    run := FirstWorld(n);
    assert Init(n, run[0]);
    run := StandIn(n, run, 1);
    run := ExtendRun(n, run, Crash(1));
  }

  /** Not every vote on equal logs is granted: server 1 restarts with an empty log and remembers
      snapshot term 0, so that server 0, which never did and remembers -1, is refused in a new
      term although the two logs are the same. */
  lemma EqualLogRefused(n: nat) returns (run: seq<World>)
    requires n >= 2
    ensures IsRun(n, run)
    ensures var w := run[|run| - 1];
            && Enabled(w, ReceiveVoteRequest(0, 2, 1)) && Sizes(n, w)
            && w.peers[0].logs == w.peers[1].logs == [] && w.peers[1].currentTerm < 2
            && !HandleRequestVote(w.peers[1], w.ballots[(0, 2, 1)].args).reply.voteGranted
  {
    run := Restarted(n);
    run := StandIn(n, run, 0);
    var w := run[|run| - 1];
    run := StandIn(n, run, 0);
    assert (0, 2, 1) in Requests(w, 0, StartElection(w.peers[0], 0));
  }
}
