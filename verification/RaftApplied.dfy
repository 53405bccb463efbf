/** What servers pass to their services, over every run: the committed commands in the order of
    their indices, from the first on. */
module RaftApplied {
  import opened RaftProtocol
  import opened RaftPeer
  import opened RaftCluster
  import opened RaftInvariant
  import opened RaftElections
  import opened RaftReplication
  import opened RaftSafety

  /** The commands of the first entries, in order, each with its index. */
  ghost predicate InOrder(msgs: seq<ApplyMsg>, log: Log) {
    && |msgs| <= |log|
    && forall k | 0 <= k < |msgs| :: msgs[k] == ApplyMsg(log[k].command, k + 1)
  }

  /** One turn delivers exactly what is committed and was not delivered before, one message per
      index, in order. */
  lemma ApplyExact(p: Peer)
    requires Numbered(p.logs, p.snapshotIndex) && CanApply(p) && p.snapshotIndex <= p.lastApplied
    ensures var (p', msgs) := ApplyToClient(p);
            && |msgs| == (if p.logs == [] then 0 else Max(p.commitIndex - p.lastApplied, 0))
            && p' == p.(lastApplied := p.lastApplied + |msgs|)
            && forall k | 0 <= k < |msgs| ::
                 && msgs[k].commandIndex == p.lastApplied + 1 + k
                 && exists i :: 0 <= i < |p.logs| && p.logs[i].index == msgs[k].commandIndex && p.logs[i].command == msgs[k].command
  {
    var (p', msgs) := ApplyToClient(p);
    forall k | 0 <= k < |msgs|
      ensures msgs[k].commandIndex == p.lastApplied + 1 + k
      ensures exists i :: 0 <= i < |p.logs| && p.logs[i].index == msgs[k].commandIndex && p.logs[i].command == msgs[k].command
    {
      var i := p.lastApplied + k - p.snapshotIndex;
      assert p.logs[i].index == msgs[k].commandIndex && p.logs[i].command == msgs[k].command;
    }
  }

  /** What a service has been given since its server started is the commands of indices 1 to
      lastApplied. */
  ghost predicate AppliedOk(w: World, p: nat)
    requires p < |w.peers| == |w.delivered|
  {
    |w.delivered[p]| == w.peers[p].lastApplied && InOrder(w.delivered[p], w.peers[p].logs)
  }

  lemma ApplyExtends(w: World, h: Proto, p: nat)
    requires Inv(w, h) && p < |w.peers| && AppliedOk(w, p) && CanApply(w.peers[p])
    ensures AppliedOk(AfterApply(w, p), p)
  {
    LastIndexIsLength(w, h, p);
    CommitHolds(w, h, p);
    ServerLog(w, h, p);
  }

  /** What was committed stays where it is while the server is up. */
  lemma CommittedStays(n: nat, run: seq<World>, k: nat, e: Event, p: nat)
    requires IsRun(n, run) && k < |run| && p < |run[k].peers|
    requires Enabled(run[k], e) && InRangeFor(run[k], e) && !Crashes(e, p)
    ensures var w', c := Do(run[k], e), run[k].peers[p].commitIndex;
            && p < |w'.peers| && 0 <= c <= |run[k].peers[p].logs| && c <= |w'.peers[p].logs|
            && w'.peers[p].logs[..c] == run[k].peers[p].logs[..c]
  {
    var w, w' := run[k], Do(run[k], e);
    var h := HistoryAt(n, run, k);
    var h' := EventKeeps(w, h, e);
    CommitNeverBack(n, run, k, e, p);
    CommitHolds(w, h, p);
    CommitHolds(w', h', p);
    ProtoHolds(w', h');
    var peer, peer' := w.peers[p], w'.peers[p];
    var c := peer.commitIndex;
    CommitOkGrows(h, h', peer.logs, peer.logs, peer.currentTerm, peer.currentTerm, c);
    SameCommitted(h', peer.logs, peer.currentTerm, c, peer'.logs, peer'.currentTerm, peer'.commitIndex);
  }

  /** Two logs agree as far as both are committed. */
  lemma SameCommitted(h: Proto, a: Log, ta: int, ca: int, b: Log, tb: int, cb: int)
    requires ProtoInv(h) && CommitOk(h, a, ta, ca) && CommitOk(h, b, tb, cb)
    requires 0 <= ca <= |a| && 0 <= cb <= |b|
    ensures forall i | 0 <= i < ca && i < cb :: a[i] == b[i]
  {
    if ca > 0 && cb > 0 {
      var t1, i1 :| CommitsTo(h, a, ta, ca, t1, i1);
      var t2, i2 :| CommitsTo(h, b, tb, cb, t2, i2);
      forall i | 0 <= i < ca && i < cb ensures a[i] == b[i] {
        if t1 <= t2 { CommittedAgree(h, t1, i1, t2, i2, i + 1); } else { CommittedAgree(h, t2, i2, t1, i1, i + 1); }
        assert a[..ca][i] == h.leaders[t1].log[..ca][i] && b[..cb][i] == h.leaders[t2].log[..cb][i];
      }
    }
  }

  lemma CrashResets(w: World, e: Event, p: nat)
    requires Enabled(w, e) && InRangeFor(w, e) && Crashes(e, p) && p < |w.peers| == |w.delivered|
    ensures var w' := Do(w, e);
            p < |w'.peers| == |w'.delivered| && w'.delivered[p] == [] && w'.peers[p].lastApplied == w'.peers[p].snapshotIndex
  {
  }

  /** A server that neither crashes nor applies has applied what it had. */
  lemma OtherApplied(w: World, e: Event, p: nat)
    requires Enabled(w, e) && InRangeFor(w, e) && !Crashes(e, p) && e != ApplyTimer(p) && p < |w.peers| == |w.delivered|
    ensures var w' := Do(w, e);
            && p < |w'.peers| == |w'.delivered|
            && w'.delivered[p] == w.delivered[p] && w'.peers[p].lastApplied == w.peers[p].lastApplied
  {
  }

  /** In every run, what a server has passed on since it started is the commands of its log at
      indices 1 to lastApplied, in order, none twice and none left out. */
  lemma {:induction false} DeliveredInOrder(n: nat, run: seq<World>, k: nat, p: nat)
    requires IsRun(n, run) && k < |run| && p < n
    ensures p < |run[k].peers| == |run[k].delivered| && AppliedOk(run[k], p)
  {
    if k > 0 {
      DeliveredInOrder(n, run, k - 1, p);
      assert StepsAt(run, k - 1);
      var e :| Enabled(run[k - 1], e) && InRangeFor(run[k - 1], e) && run[k] == Do(run[k - 1], e);
      DeliveredNext(n, run, k - 1, e, p);
    }
  }

  lemma DeliveredNext(n: nat, run: seq<World>, k: nat, e: Event, p: nat)
    requires IsRun(n, run) && k < |run| && Enabled(run[k], e) && InRangeFor(run[k], e)
    requires p < |run[k].peers| == |run[k].delivered| && AppliedOk(run[k], p)
    ensures var w' := Do(run[k], e); p < |w'.peers| == |w'.delivered| && AppliedOk(w', p)
  {
    var w := run[k];
    var h := HistoryAt(n, run, k);
    if Crashes(e, p) {
      var h' := EventKeeps(w, h, e);
      CrashResets(w, e, p);
      ServerLog(Do(w, e), h', p);
    } else if e == ApplyTimer(p) {
      ApplyExtends(w, h, p);
    } else {
      OtherApplied(w, e, p);
      CommittedStays(n, run, k, e, p);
      CommitHolds(w, h, p);
      OrderStays(w.delivered[p], w.peers[p].logs, Do(w, e).peers[p].logs, w.peers[p].commitIndex);
    }
  }

  lemma OrderStays(msgs: seq<ApplyMsg>, log: Log, log': Log, c: int)
    requires InOrder(msgs, log) && |msgs| <= c <= |log| && c <= |log'| && log'[..c] == log[..c]
    ensures InOrder(msgs, log')
  {
    forall k | 0 <= k < |msgs| ensures msgs[k] == ApplyMsg(log'[k].command, k + 1) {
      assert log'[..c][k] == log[..c][k];
    }
  }

  /** State Machine Safety: what any two servers have passed on, at any two moments of a run, is
      one sequence of commands, as far as each of them got. */
  lemma StateMachineSafety(n: nat, run: seq<World>, j: nat, k: nat, p: nat, q: nat)
    requires IsRun(n, run) && j <= k < |run| && p < n && q < n
    ensures p < |run[j].delivered| && q < |run[k].delivered|
    ensures run[j].delivered[p] <= run[k].delivered[q] || run[k].delivered[q] <= run[j].delivered[p]
  {
    DeliveredInOrder(n, run, j, p);
    DeliveredInOrder(n, run, k, q);
    var hj, hk := Histories(n, run, j, k);
    ProtoHolds(run[k], hk);
    CommitHolds(run[j], hj, p);
    CommitHolds(run[k], hk, q);
    var a, b := run[j].peers[p], run[k].peers[q];
    CommitOkGrows(hj, hk, a.logs, a.logs, a.currentTerm, a.currentTerm, a.commitIndex);
    SameCommitted(hk, a.logs, a.currentTerm, a.commitIndex, b.logs, b.currentTerm, b.commitIndex);
    OnePrefix(run[j].delivered[p], a.logs, a.commitIndex, run[k].delivered[q], b.logs, b.commitIndex);
  }

  lemma OnePrefix(x: seq<ApplyMsg>, a: Log, ca: int, y: seq<ApplyMsg>, b: Log, cb: int)
    requires InOrder(x, a) && |x| <= ca <= |a| && InOrder(y, b) && |y| <= cb <= |b|
    requires forall i | 0 <= i < ca && i < cb :: a[i] == b[i]
    ensures x <= y || y <= x
  {
    if |x| <= |y| { assert y[..|x|] == x; } else { assert x[..|y|] == y; }
  }
}
