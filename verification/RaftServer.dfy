/** The server itself: fields changed in place by the handlers of its main loop. Each handler
    is tied to the function of the same name on the server's state. */
module RaftServer {
  import opened Collections
  import opened RaftProtocol
  import opened RaftPeer

  lemma {:induction false} AppendedAfter(logs: Log, base: int, a: Log, b: Log)
    ensures AppendNew(logs, base, a + b) == AppendNew(AppendNew(logs, base, a), base, b)
    ensures AppendStages(logs, base, a + b) == AppendStages(logs, base, a) + AppendStages(AppendNew(logs, base, a), base, b)
    decreases |a|
  {
    if a == [] {
      assert a + b == b;
    } else {
      assert (a + b)[1..] == a[1..] + b;
      AppendedAfter(if a[0].index > |logs| + base then logs + [a[0]] else logs, base, a[1..], b);
    }
  }

  /** Appending one more entry saves what appending it alone to the log so far saves. */
  lemma AppendedNext(p: Peer, logs: Log, base: int, entries: Log, k: nat)
    requires k < |entries|
    ensures var log := AppendNew(logs, base, entries[..k]);
            && AppendNew(logs, base, entries[..k + 1]) == AppendNew(log, base, [entries[k]])
            && SavedStages(p, AppendStages(logs, base, entries[..k + 1]))
            == SavedStages(p, AppendStages(logs, base, entries[..k])) + SavedStages(p, AppendStages(log, base, [entries[k]]))
  {
    assert entries[..k + 1] == entries[..k] + [entries[k]];
    AppendedAfter(logs, base, entries[..k], [entries[k]]);
  }

  class Raft {
    const me: nat
    const peers: nat

    var status: Status
    var currentTerm: int
    var votedFor: int
    var logs: Log
    var commitIndex: int
    var lastApplied: int
    var nextIndex: seq<int>
    var matchIndex: seq<int>
    var grantedVotes: int
    var hasSnapshot: bool
    var snapshotIndex: int
    var snapshotTerm: int
    /** Every record handed to the persister, oldest first. */
    var saves: seq<Data>

    ghost function View(): Peer
      reads this
    {
      Peer(status, currentTerm, votedFor, logs, commitIndex, lastApplied, nextIndex, matchIndex, grantedVotes,
           hasSnapshot, snapshotIndex, snapshotTerm)
    }

    /** Start from the last record saved, if there is one. */
    constructor Make(me: nat, peers: nat, disk: Option<Data>, hasSnapshot: bool)
      ensures View() == Restart(disk, hasSnapshot) && saves == []
      ensures this.me == me && this.peers == peers
    {
      this.me, this.peers := me, peers;
      status := Follower;
      grantedVotes, nextIndex, matchIndex, saves := 0, [], [], [];
      this.hasSnapshot := hasSnapshot;
      if disk.None? {
        currentTerm, votedFor, logs := 0, -1, [];
        snapshotIndex, snapshotTerm := 0, -1;
        commitIndex, lastApplied := 0, 0;
      } else {
        currentTerm, votedFor, logs := disk.value.currentTerm, disk.value.votedFor, disk.value.logs;
        snapshotIndex, snapshotTerm := disk.value.snapshotIndex, disk.value.snapshotTerm;
        commitIndex, lastApplied := disk.value.snapshotIndex, disk.value.snapshotIndex;
      }
    }

    method Persist()
      modifies this`saves
      ensures saves == old(saves) + [Saved(View())]
    {
      if hasSnapshot {
        saves := saves + [Data(votedFor, currentTerm, logs, snapshotIndex, snapshotTerm)];
      } else {
        saves := saves + [Data(votedFor, currentTerm, logs, 0, 0)];
      }
    }

    method HandleHigherTermFound(term: int)
      modifies this
      ensures View() == HigherTerm(old(View()), term)
      ensures saves == old(saves) + [Saved(View())]
    {
      currentTerm, status := term, Follower;
      votedFor := -1;
      Persist();
    }

    // ----- elections

    method StartElection() returns (req: RequestVoteArgs)
      modifies this
      ensures View() == RaftPeer.StartElection(old(View()), me)
      ensures saves == old(saves) + [Saved(View())]
      ensures req == VoteRequest(View(), me)
    {
      status, grantedVotes := Candidate, 1;
      currentTerm := currentTerm + 1;
      votedFor := me;
      Persist();
      var lastLogIndex, lastLogTerm := snapshotIndex, snapshotTerm;
      if |logs| != 0 {
        lastLogIndex, lastLogTerm := logs[|logs| - 1].index, logs[|logs| - 1].term;
      }
      req := RequestVoteArgs(currentTerm, me, lastLogIndex, lastLogTerm);
    }

    method HandleRequestVote(args: RequestVoteArgs) returns (reply: RequestVoteReply)
      modifies this
      ensures var h := RaftPeer.HandleRequestVote(old(View()), args);
              View() == h.peer && reply == h.reply && saves == old(saves) + h.saves
    {
      reply := RequestVoteReply(0, false);
      if args.term > currentTerm {
        HandleHigherTermFound(args.term);
      }
      if args.term < currentTerm {
        return RequestVoteReply(currentTerm, false);
      }
      if votedFor == -1 || votedFor == args.candidateId {
        var lastLogIndex, lastLogTerm := snapshotIndex, snapshotTerm;
        if |logs| != 0 {
          lastLogIndex, lastLogTerm := logs[|logs| - 1].index, logs[|logs| - 1].term;
        }
        if args.lastLogTerm > lastLogTerm || (args.lastLogTerm == lastLogTerm && args.lastLogIndex >= lastLogIndex) {
          reply := RequestVoteReply(currentTerm, true);
          votedFor := args.candidateId;
          Persist();
        } else {
          reply := RequestVoteReply(currentTerm, false);
          votedFor := -1;
          Persist();
        }
      }
    }

    /** A candidate reads one reply to its requests. */
    method ReceiveVote(vote: RequestVoteReply)
      modifies this
      ensures View() == HandleVoteReply(old(View()), vote, peers)
      ensures saves == old(saves) + StepDownSaves(old(View()), vote.term)
    {
      if vote.term > currentTerm {
        HandleHigherTermFound(vote.term);
        return;
      }
      if vote.voteGranted {
        grantedVotes := grantedVotes + 1;
      }
      if grantedVotes > peers / 2 {
        status := Leader;
        InitLeader();
      }
    }

    /** What a new leader sets up before its loop. */
    method InitLeader()
      modifies this`nextIndex, this`matchIndex
      ensures nextIndex == seq(peers, _ => LastLogIndex(old(View())) + 1)
      ensures matchIndex == seq(peers, _ => 0)
    {
      var leaderLastIndex := if |logs| == 0 then snapshotIndex else logs[|logs| - 1].index;
      nextIndex := [];
      for idx := 0 to peers
        invariant nextIndex == seq(idx, _ => leaderLastIndex + 1)
      {
        nextIndex := nextIndex + [leaderLastIndex + 1];
      }
      matchIndex := seq(peers, _ => 0);
    }

    // ----- replication, follower's side

    /** The first entry of the conflicting term. */
    method FindFirst(term: int) returns (index: int)
      ensures index == FirstIndexOf(logs, term)
    {
      index := 0;
      var k := 0;
      assert logs[0..] == logs;
      while k < |logs|
        invariant 0 <= k <= |logs|
        invariant FirstIndexOf(logs, term) == FirstIndexOf(logs[k..], term)
      {
        if logs[k].term == term {
          return logs[k].index;
        }
        assert logs[k..][1..] == logs[k + 1..];
        k := k + 1;
      }
    }

    /** Delete the first conflicting entry and all that follow it. */
    method TruncateConflicts(entries: Log)
      modifies this`logs, this`saves
      ensures logs == Truncate(old(logs), snapshotIndex, entries)
      ensures saves == old(saves) + if |logs| < |old(logs)| then [Saved(View())] else []
    {
      var k := 0;
      assert entries[0..] == entries;
      while k < |entries|
        invariant 0 <= k <= |entries|
        invariant logs == old(logs) && saves == old(saves)
        invariant Truncate(logs, snapshotIndex, entries) == Truncate(logs, snapshotIndex, entries[k..])
      {
        var i := entries[k].index - snapshotIndex - 1;
        if i < 0 || i >= |logs| {
          break;
        }
        if logs[i].term != entries[k].term {
          logs := logs[..i];
          Persist();
          break;
        }
        assert entries[k..][1..] == entries[k + 1..];
        k := k + 1;
      }
    }

    /** Append one entry unless the log already reaches its index, and save. */
    method AppendOne(entry: LogEntry)
      modifies this`logs, this`saves
      ensures var stages := AppendStages(old(logs), snapshotIndex, [entry]);
              && logs == AppendNew(old(logs), snapshotIndex, [entry])
              && saves == old(saves) + SavedStages(old(View()), stages)
    {
      if entry.index > |logs| + snapshotIndex {
        logs := logs + [entry];
        Persist();
      }
    }

    method AppendEntriesBeyond(entries: Log)
      modifies this`logs, this`saves
      ensures logs == AppendNew(old(logs), snapshotIndex, entries)
      ensures saves == old(saves) + SavedStages(old(View()), AppendStages(old(logs), snapshotIndex, entries))
    {
      for k := 0 to |entries|
        invariant View() == old(View()).(logs := logs)
        invariant logs == AppendNew(old(logs), snapshotIndex, entries[..k])
        invariant saves == old(saves) + SavedStages(old(View()), AppendStages(old(logs), snapshotIndex, entries[..k]))
      {
        AppendedNext(old(View()), old(logs), snapshotIndex, entries, k);
        ghost var before, log := saves, logs;
        AppendOne(entries[k]);
        assert SavedStages(old(View()).(logs := log), AppendStages(log, snapshotIndex, [entries[k]]))
            == SavedStages(old(View()), AppendStages(log, snapshotIndex, [entries[k]]));
      }
      assert entries[..|entries|] == entries;
    }

    /** The part of the handler that changes the log. */
    method AcceptEntries(args: AppendEntriesArgs)
      modifies this
      ensures var h := Accept(old(View()), args); View() == h.peer && saves == old(saves) + h.saves
    {
      ghost var p, before := View(), saves;
      TruncateConflicts(args.entries);
      ghost var cut, cutSaves := logs, saves[|before|..];
      var lastNewEntryIndex := MAX_INT;
      if |logs| > 0 {
        lastNewEntryIndex := logs[|logs| - 1].index;
      }
      AppendEntriesBeyond(args.entries);
      ghost var stages := AppendStages(cut, snapshotIndex, args.entries);
      assert SavedStages(p.(logs := cut), stages) == SavedStages(p, stages);
      assert saves == before + (cutSaves + SavedStages(p, stages));
      assert cutSaves + SavedStages(p, stages) == Accept(p, args).saves;
      if args.leaderCommit > 0 && args.leaderCommit > commitIndex {
        commitIndex := Min(args.leaderCommit, lastNewEntryIndex);
      }
      assert View() == Accept(p, args).peer;
    }

    method HandleAppendEntries(args: AppendEntriesArgs) returns (reply: AppendEntriesReply)
      modifies this
      ensures var h := RaftPeer.HandleAppendEntries(old(View()), args);
              View() == h.peer && reply == h.reply && saves == old(saves) + h.saves
    {
      if args.term > currentTerm {
        HandleHigherTermFound(args.term);
      }
      reply := AppendEntriesReply(currentTerm, false, 0, 0);
      if args.term < currentTerm {
        return;
      }
      if args.prevLogIndex > |logs| + snapshotIndex {
        return;
      }
      if args.prevLogIndex > snapshotIndex && logs[args.prevLogIndex - snapshotIndex - 1].term != args.prevLogTerm {
        var conflicting := logs[args.prevLogIndex - snapshotIndex - 1].term;
        var first := FindFirst(conflicting);
        reply := reply.(conflictingTerm := conflicting, firstConflictingIndex := first);
        return;
      }
      reply := reply.(success := true);
      AcceptEntries(args);
    }

    /** What the main loop does with an append: a candidate that hears from a leader of its
        term or a later one also becomes a follower. */
    method OnAppendEntries(args: AppendEntriesArgs) returns (reply: AppendEntriesReply)
      modifies this
      ensures var h := RaftPeer.OnAppendEntries(old(View()), args);
              View() == h.peer && reply == h.reply && saves == old(saves) + h.saves
    {
      var candidate := status == Candidate;
      reply := HandleAppendEntries(args);
      if candidate && args.term >= currentTerm {
        status := Follower;
      }
    }

    // ----- replication, leader's side

    method HandleCommand(command: Command) returns (index: int, term: int, isLeader: bool)
      modifies this
      ensures var h := RaftPeer.HandleCommand(old(View()), command);
              View() == h.peer && (index, term, isLeader) == h.reply && saves == old(saves) + h.saves
    {
      index := |logs| + snapshotIndex + 1;
      term, isLeader := currentTerm, status == Leader;
      if !isLeader {
        return;
      }
      logs := logs + [LogEntry(term, index, command)];
      Persist();
    }

    /** `appendEntries` up to the sending. */
    method MakeAppend(server: nat, entries: Log) returns (req: AppendEntriesArgs)
      requires Addressable(View(), server)
      ensures entries == [] ==> req == Heartbeat(View(), me)
      ensures entries != [] ==>
                var k := nextIndex[server] - snapshotIndex - 2;
                var (index, term) := if k < 0 then (snapshotIndex, snapshotTerm) else (logs[k].index, logs[k].term);
                req == AppendEntriesArgs(currentTerm, me, index, term, entries, commitIndex)
    {
      var prevLogIndex, prevLogTerm := snapshotIndex, snapshotTerm;
      if |entries| == 0 {
        if |logs| != 0 {
          prevLogIndex, prevLogTerm := logs[|logs| - 1].index, logs[|logs| - 1].term;
        }
      } else {
        var next := nextIndex[server];
        if next - snapshotIndex > 1 {
          prevLogIndex, prevLogTerm := logs[next - snapshotIndex - 2].index, logs[next - snapshotIndex - 2].term;
        }
      }
      req := AppendEntriesArgs(currentTerm, me, prevLogIndex, prevLogTerm, entries, commitIndex);
    }

    /** One server's turn in `broadcastAppendEntries`. */
    method BroadcastTo(server: nat) returns (req: Option<AppendEntriesArgs>)
      requires Addressable(View(), server)
      ensures req == Broadcast(View(), me, server)
    {
      req := None;
      var lastLogIndex := if |logs| == 0 then snapshotIndex else logs[|logs| - 1].index;
      if lastLogIndex >= nextIndex[server] {
        var next := nextIndex[server];
        if next - snapshotIndex >= 1 {
          var args := MakeAppend(server, logs[next - 1 - snapshotIndex..]);
          req := Some(args);
        }
      }
    }

    method UpdateCommitIndex()
      requires |matchIndex| == peers && snapshotIndex <= commitIndex
      modifies this`commitIndex
      ensures View() == UpdateCommit(old(View()), me)
    {
      var n := commitIndex + 1;
      ghost var p := View();
      while n <= |logs| + snapshotIndex
        invariant old(commitIndex) < n
        invariant ScanCommit(p, me, old(commitIndex) + 1, old(commitIndex)) == ScanCommit(p, me, n, commitIndex)
        decreases |logs| + snapshotIndex + 1 - n
      {
        var count := 1;
        for idx := 0 to peers
          invariant count == 1 + CountMatching(matchIndex[..idx], me, n)
        {
          assert matchIndex[..idx + 1][..idx] == matchIndex[..idx];
          if idx != me && matchIndex[idx] >= n {
            count := count + 1;
          }
        }
        assert matchIndex[..peers] == matchIndex;
        if count > peers / 2 && logs[n - 1 - snapshotIndex].term == currentTerm {
          commitIndex := n;
        }
        n := n + 1;
      }
    }

    /** The last entry of the conflicting term, or `default`. */
    method FindLast(term: int, default: int) returns (x: int)
      ensures x == LastIndexOf(logs, term, default)
    {
      x := default;
      for k := 0 to |logs|
        invariant x == LastIndexOf(logs[..k], term, default)
      {
        assert logs[..k + 1][..k] == logs[..k];
        if logs[k].term == term {
          x := logs[k].index;
        }
      }
      assert logs[..|logs|] == logs;
    }

    /** A leader reads one reply; true when it goes on to send a snapshot. */
    method ReceiveAppendReply(server: nat, req: AppendEntriesArgs, reply: AppendEntriesReply) returns (sendSnapshot: bool)
      requires server < |nextIndex| == |matchIndex| == peers && snapshotIndex <= commitIndex
      modifies this
      ensures var h := HandleAppendReply(old(View()), me, server, req, reply);
              View() == h.peer && sendSnapshot == h.reply && saves == old(saves) + h.saves
    {
      sendSnapshot := false;
      if currentTerm > reply.term || currentTerm > req.term {
        return;
      }
      if reply.term > currentTerm {
        HandleHigherTermFound(reply.term);
        return;
      }
      if reply.success {
        if |req.entries| != 0 {
          if req.prevLogIndex + |req.entries| > matchIndex[server] {
            matchIndex := matchIndex[server := req.prevLogIndex + |req.entries|];
            nextIndex := nextIndex[server := matchIndex[server] + 1];
          }
        }
        UpdateCommitIndex();
      } else {
        var x := FindLast(reply.conflictingTerm, snapshotIndex + 1);
        nextIndex := nextIndex[server := Max(x, reply.firstConflictingIndex)];
        sendSnapshot := |logs| > 0 && nextIndex[server] <= logs[0].index;
      }
    }

    // ----- applying and snapshots

    method ApplyToClient() returns (msgs: seq<ApplyMsg>)
      requires CanApply(View())
      modifies this`lastApplied
      ensures (View(), msgs) == RaftPeer.ApplyToClient(old(View()))
    {
      msgs := [];
      if |logs| == 0 {
        return;
      }
      while commitIndex > lastApplied
        invariant old(lastApplied) <= lastApplied && (lastApplied <= commitIndex || lastApplied == old(lastApplied))
        invariant |msgs| == lastApplied - old(lastApplied)
        invariant forall k | 0 <= k < |msgs| ::
                    var l := logs[old(lastApplied) + k - snapshotIndex]; msgs[k] == ApplyMsg(l.command, l.index)
      {
        lastApplied := lastApplied + 1;
        var l := logs[lastApplied - 1 - snapshotIndex];
        msgs := msgs + [ApplyMsg(l.command, l.index)];
      }
      ghost var expected := RaftPeer.ApplyToClient(old(View()));
      assert View() == expected.0;
      assert msgs == expected.1;
    }

    method TakeSnapshot(index: int, hasData: bool)
      requires snapshotIndex <= index <= snapshotIndex + |logs|
      modifies this
      ensures View() == HandleSnapshot(old(View()), index, hasData) && saves == old(saves)
    {
      ghost var p := View();
      var term := TermAt(index);
      var drop := index + 1 - snapshotIndex - 1;
      assert drop == index - p.snapshotIndex;
      hasSnapshot, snapshotTerm := hasData, term;
      logs := logs[drop..];
      snapshotIndex := index;
      assert View() == p.(hasSnapshot := hasData, snapshotTerm := term, logs := p.logs[drop..], snapshotIndex := index);
    }

    /** The term to remember for a snapshot up to `index`. */
    method TermAt(index: int) returns (term: int)
      requires snapshotIndex <= index <= snapshotIndex + |logs|
      ensures term == if index == snapshotIndex then -1 else logs[index - 1 - snapshotIndex].term
    {
      if index - 1 - snapshotIndex < 0 || |logs| < index - 1 - snapshotIndex {
        term := -1;
      } else {
        term := logs[index - 1 - snapshotIndex].term;
      }
    }

    /** `handleInstallSnapshot` for a request without data. */
    method HandleInstallEmpty(term: int) returns (replyTerm: int)
      modifies this
      ensures var h := HandleEmptySnapshot(old(View()), term);
              View() == h.peer && replyTerm == h.reply && saves == old(saves) + h.saves
    {
      replyTerm := currentTerm;
      if term < currentTerm {
        return;
      }
      if term > currentTerm {
        HandleHigherTermFound(term);
      }
      hasSnapshot := false;
      saves := saves + [Data(votedFor, currentTerm, logs, 0, 0)];
    }
  }
}
