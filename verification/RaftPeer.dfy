/** What one Raft server does with each event, as functions of its state. */
module RaftPeer {
  import opened Collections
  import opened RaftProtocol

  const MAX_INT: int := 0x7FFF_FFFF_FFFF_FFFF

  datatype Status = Follower | Candidate | Leader

  /** A server's fields. `logs[k]` is the entry at index `snapshotIndex + 1 + k`; `-1` in
      `votedFor` is no vote; `grantedVotes` counts the votes of the current candidacy. */
  datatype Peer = Peer(
    status: Status,
    currentTerm: int,
    votedFor: int,
    logs: Log,
    commitIndex: int,
    lastApplied: int,
    nextIndex: seq<int>,
    matchIndex: seq<int>,
    grantedVotes: int,
    hasSnapshot: bool,
    snapshotIndex: int,
    snapshotTerm: int)

  /** What `persist` saves. */
  datatype Data = Data(votedFor: int, currentTerm: int, logs: Log, snapshotIndex: int, snapshotTerm: int)

  datatype RequestVoteArgs = RequestVoteArgs(term: int, candidateId: int, lastLogIndex: int, lastLogTerm: int)
  datatype RequestVoteReply = RequestVoteReply(term: int, voteGranted: bool)
  datatype AppendEntriesArgs = AppendEntriesArgs(
    term: int, leaderId: int, prevLogIndex: int, prevLogTerm: int, entries: Log, leaderCommit: int)
  datatype AppendEntriesReply = AppendEntriesReply(term: int, success: bool, firstConflictingIndex: int, conflictingTerm: int)
  datatype ApplyMsg = ApplyMsg(command: Command, commandIndex: int)

  /** The outcome of handling a request: the new state, the reply, and the records saved to
      stable storage on the way, in order. */
  datatype Handled<+R> = Handled(peer: Peer, reply: R, saves: seq<Data>)

  // ----- shared pieces

  function Min(x: int, y: int): int {
    if x < y then x else y
  }

  function Max(x: int, y: int): int {
    if x > y then x else y
  }

  /** The entries are numbered on from the snapshot. */
  ghost predicate Numbered(logs: Log, base: int) {
    forall k | 0 <= k < |logs| :: logs[k].index == base + 1 + k
  }

  function LastLogIndex(p: Peer): int {
    if p.logs == [] then p.snapshotIndex else p.logs[|p.logs| - 1].index
  }

  function LastLogTerm(p: Peer): int {
    if p.logs == [] then p.snapshotTerm else p.logs[|p.logs| - 1].term
  }

  function Saved(p: Peer): Data {
    if p.hasSnapshot
    then Data(p.votedFor, p.currentTerm, p.logs, p.snapshotIndex, p.snapshotTerm)
    else Data(p.votedFor, p.currentTerm, p.logs, 0, 0)
  }

  /** A server starting up, from what was saved last if anything was. */
  function Restart(disk: Option<Data>, hasSnapshot: bool): Peer {
    match disk
    case None => Peer(Follower, 0, -1, [], 0, 0, [], [], 0, hasSnapshot, 0, -1)
    case Some(d) =>
      Peer(Follower, d.currentTerm, d.votedFor, d.logs, d.snapshotIndex, d.snapshotIndex, [], [], 0, hasSnapshot,
           d.snapshotIndex, d.snapshotTerm)
  }

  function HigherTerm(p: Peer, term: int): Peer {
    p.(currentTerm := term, status := Follower, votedFor := -1)
  }

  /** Give way to a later term, if it is one. */
  function StepDown(p: Peer, term: int): Peer {
    if term > p.currentTerm then HigherTerm(p, term) else p
  }

  function StepDownSaves(p: Peer, term: int): seq<Data> {
    if term > p.currentTerm then [Saved(HigherTerm(p, term))] else []
  }

  // ----- elections

  function StartElection(p: Peer, me: nat): Peer {
    p.(status := Candidate, currentTerm := p.currentTerm + 1, votedFor := me, grantedVotes := 1)
  }

  function VoteRequest(p: Peer, me: nat): RequestVoteArgs {
    RequestVoteArgs(p.currentTerm, me, LastLogIndex(p), LastLogTerm(p))
  }

  predicate AtLeastAsUpToDate(args: RequestVoteArgs, p: Peer) {
    args.lastLogTerm > LastLogTerm(p) || (args.lastLogTerm == LastLogTerm(p) && args.lastLogIndex >= LastLogIndex(p))
  }

  function HandleRequestVote(p: Peer, args: RequestVoteArgs): Handled<RequestVoteReply> {
    var p1, saves := StepDown(p, args.term), StepDownSaves(p, args.term);
    if args.term < p1.currentTerm then
      Handled(p1, RequestVoteReply(p1.currentTerm, false), saves)
    else if p1.votedFor == -1 || p1.votedFor == args.candidateId then
      var granted := AtLeastAsUpToDate(args, p1);
      var p2 := p1.(votedFor := if granted then args.candidateId else -1);
      Handled(p2, RequestVoteReply(p1.currentTerm, granted), saves + [Saved(p2)])
    else
      Handled(p1, RequestVoteReply(0, false), saves)
  }

  function BecomeLeader(p: Peer, peers: nat): Peer {
    p.(status := Leader,
       nextIndex := seq(peers, _ => LastLogIndex(p) + 1),
       matchIndex := seq(peers, _ => 0))
  }

  /** A candidate receives the reply to one of its vote requests. */
  function HandleVoteReply(p: Peer, reply: RequestVoteReply, peers: nat): Peer {
    if reply.term > p.currentTerm then
      HigherTerm(p, reply.term)
    else
      var p1 := p.(grantedVotes := if reply.voteGranted then p.grantedVotes + 1 else p.grantedVotes);
      if p1.grantedVotes > peers / 2 then BecomeLeader(p1, peers) else p1
  }

  // ----- replication, follower's side

  /** Cut the log before the first entry whose term differs from that of the entry sent for
      the same index. */
  function Truncate(logs: Log, base: int, entries: Log): Log {
    if entries == [] then logs
    else
      var i := entries[0].index - base - 1;
      if i < 0 || i >= |logs| then logs
      else if logs[i].term != entries[0].term then logs[..i]
      else Truncate(logs, base, entries[1..])
  }

  /** Append the entries that lie beyond the log's end. */
  function AppendNew(logs: Log, base: int, entries: Log): Log
    decreases entries
  {
    if entries == [] then logs
    else if entries[0].index > |logs| + base then AppendNew(logs + [entries[0]], base, entries[1..])
    else AppendNew(logs, base, entries[1..])
  }

  /** The log after each entry appended. */
  function AppendStages(logs: Log, base: int, entries: Log): seq<Log>
    decreases entries
  {
    if entries == [] then []
    else if entries[0].index > |logs| + base then
      [logs + [entries[0]]] + AppendStages(logs + [entries[0]], base, entries[1..])
    else AppendStages(logs, base, entries[1..])
  }

  function SavedStages(p: Peer, stages: seq<Log>): seq<Data> {
    seq(|stages|, k requires 0 <= k < |stages| => Saved(p.(logs := stages[k])))
  }

  function FirstIndexOf(logs: Log, term: int): int {
    if logs == [] then 0
    else if logs[0].term == term then logs[0].index
    else FirstIndexOf(logs[1..], term)
  }

  /** The follower's log does not match the leader's at the index before the entries sent. */
  predicate Mismatch(p: Peer, args: AppendEntriesArgs) {
    || args.prevLogIndex > |p.logs| + p.snapshotIndex
    || (args.prevLogIndex > p.snapshotIndex && p.logs[args.prevLogIndex - p.snapshotIndex - 1].term != args.prevLogTerm)
  }

  function Rejection(p: Peer, args: AppendEntriesArgs): AppendEntriesReply
    requires Mismatch(p, args)
  {
    if args.prevLogIndex > |p.logs| + p.snapshotIndex then
      AppendEntriesReply(p.currentTerm, false, 0, 0)
    else
      var conflicting := p.logs[args.prevLogIndex - p.snapshotIndex - 1].term;
      AppendEntriesReply(p.currentTerm, false, FirstIndexOf(p.logs, conflicting), conflicting)
  }

  /** The commit index a follower takes over; the bound is the end of the log as it stands
      after truncation and before the new entries. */
  function CommitFrom(p: Peer, cut: Log, leaderCommit: int): int {
    var lastNewEntryIndex := if cut == [] then MAX_INT else cut[|cut| - 1].index;
    if leaderCommit > 0 && leaderCommit > p.commitIndex then Min(leaderCommit, lastNewEntryIndex) else p.commitIndex
  }

  /** The log of a follower that accepts the entries. */
  function Accept(p: Peer, args: AppendEntriesArgs): Handled<AppendEntriesReply> {
    var cut := Truncate(p.logs, p.snapshotIndex, args.entries);
    var cutSaves := if |cut| < |p.logs| then [Saved(p.(logs := cut))] else [];
    Handled(p.(logs := AppendNew(cut, p.snapshotIndex, args.entries), commitIndex := CommitFrom(p, cut, args.leaderCommit)),
            AppendEntriesReply(p.currentTerm, true, 0, 0),
            cutSaves + SavedStages(p, AppendStages(cut, p.snapshotIndex, args.entries)))
  }

  function HandleAppendEntries(p: Peer, args: AppendEntriesArgs): Handled<AppendEntriesReply> {
    var p1, saves := StepDown(p, args.term), StepDownSaves(p, args.term);
    if args.term < p1.currentTerm then
      Handled(p1, AppendEntriesReply(p1.currentTerm, false, 0, 0), saves)
    else if Mismatch(p1, args) then
      Handled(p1, Rejection(p1, args), saves)
    else
      var h := Accept(p1, args);
      h.(saves := saves + h.saves)
  }

  /** A candidate that hears from a leader of its term or later also becomes a follower. */
  function OnAppendEntries(p: Peer, args: AppendEntriesArgs): Handled<AppendEntriesReply> {
    var h := HandleAppendEntries(p, args);
    if p.status == Candidate && args.term >= h.peer.currentTerm then h.(peer := h.peer.(status := Follower)) else h
  }

  // ----- replication, leader's side

  function HandleCommand(p: Peer, command: Command): Handled<(int, int, bool)> {
    var index := |p.logs| + p.snapshotIndex + 1;
    if p.status != Leader then Handled(p, (index, p.currentTerm, false), [])
    else
      var p1 := p.(logs := p.logs + [LogEntry(p.currentTerm, index, command)]);
      Handled(p1, (index, p.currentTerm, true), [Saved(p1)])
  }

  /** A leader can address `server`: its next index lies in or just behind the log. */
  ghost predicate Addressable(p: Peer, server: nat) {
    && server < |p.nextIndex|
    && Numbered(p.logs, p.snapshotIndex)
    && p.nextIndex[server] <= p.snapshotIndex + |p.logs| + 1
  }

  function Heartbeat(p: Peer, me: nat): AppendEntriesArgs {
    AppendEntriesArgs(p.currentTerm, me, LastLogIndex(p), LastLogTerm(p), [], p.commitIndex)
  }

  /** The entries from the server's next index to the end of the log, if there are any. */
  function Broadcast(p: Peer, me: nat, server: nat): Option<AppendEntriesArgs>
    requires Addressable(p, server)
  {
    var next := p.nextIndex[server];
    if LastLogIndex(p) >= next && next - p.snapshotIndex >= 1 then
      var entries := p.logs[next - 1 - p.snapshotIndex..];
      if next - p.snapshotIndex <= 1 then
        Some(AppendEntriesArgs(p.currentTerm, me, p.snapshotIndex, p.snapshotTerm, entries, p.commitIndex))
      else
        var prev := p.logs[next - p.snapshotIndex - 2];
        Some(AppendEntriesArgs(p.currentTerm, me, prev.index, prev.term, entries, p.commitIndex))
    else None
  }

  /** How many servers other than `me` are known to hold index `n`. */
  function CountMatching(matchIndex: seq<int>, me: nat, n: int): nat {
    if matchIndex == [] then 0
    else
      var idx := |matchIndex| - 1;
      CountMatching(matchIndex[..idx], me, n) + if idx != me && matchIndex[idx] >= n then 1 else 0
  }

  /** Index `n` is held by a majority and was written in the current term. */
  predicate Committable(p: Peer, me: nat, n: int) {
    && p.snapshotIndex < n <= p.snapshotIndex + |p.logs|
    && 1 + CountMatching(p.matchIndex, me, n) > |p.matchIndex| / 2
    && p.logs[n - 1 - p.snapshotIndex].term == p.currentTerm
  }

  /** The largest committable index from `n` on, or `commit`. */
  function ScanCommit(p: Peer, me: nat, n: int, commit: int): int
    decreases p.snapshotIndex + |p.logs| + 1 - n
  {
    if n > p.snapshotIndex + |p.logs| then commit
    else ScanCommit(p, me, n + 1, if Committable(p, me, n) then n else commit)
  }

  function UpdateCommit(p: Peer, me: nat): Peer {
    p.(commitIndex := ScanCommit(p, me, p.commitIndex + 1, p.commitIndex))
  }

  function LastIndexOf(logs: Log, term: int, default: int): int {
    if logs == [] then default
    else if logs[|logs| - 1].term == term then logs[|logs| - 1].index
    else LastIndexOf(logs[..|logs| - 1], term, default)
  }

  /** Where to continue after a rejection. */
  function BackUp(p: Peer, reply: AppendEntriesReply): int {
    Max(LastIndexOf(p.logs, reply.conflictingTerm, p.snapshotIndex + 1), reply.firstConflictingIndex)
  }

  /** A leader receives the reply to `req`; true when it goes on to send a snapshot. */
  function HandleAppendReply(p: Peer, me: nat, server: nat, req: AppendEntriesArgs, reply: AppendEntriesReply): Handled<bool>
    requires server < |p.nextIndex| == |p.matchIndex|
  {
    if p.currentTerm > reply.term || p.currentTerm > req.term then Handled(p, false, [])
    else if reply.term > p.currentTerm then
      Handled(HigherTerm(p, reply.term), false, [Saved(HigherTerm(p, reply.term))])
    else if reply.success then
      var m := req.prevLogIndex + |req.entries|;
      var p1 := if req.entries != [] && m > p.matchIndex[server]
                then p.(matchIndex := p.matchIndex[server := m], nextIndex := p.nextIndex[server := m + 1])
                else p;
      Handled(UpdateCommit(p1, me), false, [])
    else
      var next := BackUp(p, reply);
      Handled(p.(nextIndex := p.nextIndex[server := next]), p.logs != [] && next <= p.logs[0].index, [])
  }

  // ----- applying

  ghost predicate CanApply(p: Peer) {
    p.logs != [] ==> p.snapshotIndex <= p.lastApplied && p.commitIndex <= p.snapshotIndex + |p.logs|
  }

  function ApplyToClient(p: Peer): (Peer, seq<ApplyMsg>)
    requires CanApply(p)
  {
    if p.logs == [] || p.commitIndex <= p.lastApplied then (p, [])
    else
      (p.(lastApplied := p.commitIndex),
       seq(p.commitIndex - p.lastApplied, k requires 0 <= k < p.commitIndex - p.lastApplied =>
         var l := p.logs[p.lastApplied + k - p.snapshotIndex]; ApplyMsg(l.command, l.index)))
  }

  // ----- snapshots

  /** An `InstallSnapshot` without data affects only the term and what is saved. */
  function HandleEmptySnapshot(p: Peer, term: int): Handled<int> {
    if term < p.currentTerm then Handled(p, p.currentTerm, [])
    else
      var p1 := StepDown(p, term).(hasSnapshot := false);
      Handled(p1, p.currentTerm, StepDownSaves(p, term) + [Data(p1.votedFor, p1.currentTerm, p1.logs, 0, 0)])
  }

  /** The service has a snapshot up to `index`: drop the log up to there. */
  function HandleSnapshot(p: Peer, index: int, hasData: bool): Peer
    requires p.snapshotIndex <= index <= p.snapshotIndex + |p.logs|
  {
    p.(hasSnapshot := hasData,
       snapshotTerm := if index == p.snapshotIndex then -1 else p.logs[index - 1 - p.snapshotIndex].term,
       logs := p.logs[index - p.snapshotIndex..],
       snapshotIndex := index)
  }
}
