/** The protocol behind the servers, on its own state: what servers have promised, and what
    leaders have written. Servers act on it in seven ways; every way keeps the invariant from
    which the safety properties of Raft follow. */
module RaftProtocol {
  import opened Sealing

  type Command = string

  datatype LogEntry = LogEntry(term: int, index: int, command: Command)

  type Log = seq<LogEntry>

  /** A vote; `early` when no leader of that term had been elected yet. */
  datatype Vote = Vote(candidate: nat, early: bool)

  /** A term's leader: who elected it, its log so far, and how much of that log it started with. */
  datatype Reign = Reign(leader: nat, quorum: set<nat>, log: Log, start: nat)

  /** `terms` and `logs` are the servers' own; the rest is history: every vote ever cast,
      every candidate's log when it stood, every reign, and `(v, t, i)` for each server `v`
      that, in term `t`, stored the leader's log up to an entry `i` of that term. */
  datatype Proto = Proto(
    terms: seq<int>,
    logs: seq<Log>,
    votes: map<(nat, int), Vote>,
    bids: map<(nat, int), Log>,
    leaders: map<int, Reign>,
    acks: set<(nat, int, int)>)

  // ----- logs

  /** Up to each entry, the log is that entry's leader's log. */
  ghost predicate EntryOk(leaders: map<int, Reign>, log: Log, k: int)
    requires 0 <= k < |log|
  {
    && log[k].index == k + 1
    && log[k].term in leaders
    && k < |leaders[log[k].term].log|
    && log[..k + 1] == leaders[log[k].term].log[..k + 1]
  }

  ghost predicate LogOk(leaders: map<int, Reign>, log: Log) {
    forall k | 0 <= k < |log| :: EntryOk(leaders, log, k)
  }

  ghost predicate TermsBelow(log: Log, bound: int) {
    forall k | 0 <= k < |log| :: log[k].term < bound
  }

  function LastTerm(log: Log): int {
    if log == [] then 0 else log[|log| - 1].term
  }

  /** What a voter checks of a candidate's log. */
  predicate UpToDate(candidate: Log, voter: Log) {
    LastTerm(candidate) > LastTerm(voter) || (LastTerm(candidate) == LastTerm(voter) && |candidate| >= |voter|)
  }

  // ----- the invariant

  ghost predicate ReignOk(s: Proto, t: int)
    requires t in s.leaders
  {
    var r := s.leaders[t];
    && t >= 1
    && r.leader < |s.terms|
    && t <= s.terms[r.leader]
    && (r.leader, t) in s.bids
    && r.start <= |r.log|
    && r.log[..r.start] == s.bids[(r.leader, t)]
    && (forall k | r.start <= k < |r.log| :: r.log[k].term == t && (r.leader, t, k + 1) in s.acks)
    && LogOk(s.leaders, r.log)
    && Majority(|s.terms|, r.quorum)
    && (forall v | v in r.quorum :: (v, t) in s.votes && s.votes[(v, t)] == Vote(r.leader, true))
  }

  ghost predicate Majority(n: nat, q: set<nat>) {
    (forall v | v in q :: v < n) && 2 * |q| > n
  }

  ghost predicate BidOk(s: Proto, key: (nat, int))
    requires key in s.bids
  {
    && key.0 < |s.terms|
    && 1 <= key.1 <= s.terms[key.0]
    && LogOk(s.leaders, s.bids[key])
    && TermsBelow(s.bids[key], key.1)
  }

  ghost predicate VoteOk(s: Proto, key: (nat, int))
    requires key in s.votes
  {
    && key.0 < |s.terms|
    && 1 <= key.1 <= s.terms[key.0]
    && (s.votes[key].candidate, key.1) in s.bids
    && (!s.votes[key].early ==> key.1 in s.leaders)
  }

  ghost predicate IsLeaderEntry(s: Proto, t: int, i: int) {
    t in s.leaders && 1 <= i <= |s.leaders[t].log| && s.leaders[t].log[i - 1].term == t
  }

  /** The leader of `t2` started without the first `i` entries of the log of term `t`. */
  ghost predicate Lacks(s: Proto, t2: int, t: int, i: int)
    requires IsLeaderEntry(s, t, i)
  {
    && t2 in s.leaders
    && s.leaders[t2].start <= |s.leaders[t2].log|
    && !(s.leaders[t].log[..i] <= s.leaders[t2].log[..s.leaders[t2].start])
  }

  ghost predicate LackingIn(s: Proto, lo: int, hi: int, t: int, i: int)
    requires IsLeaderEntry(s, t, i)
  {
    exists t2 :: lo < t2 < hi && Lacks(s, t2, t, i)
  }

  /** A server that stored an entry still has it, unless some later leader up to its term
      started without it. */
  ghost predicate Retains(s: Proto, v: nat, t: int, i: int)
    requires IsLeaderEntry(s, t, i) && v < |s.terms| == |s.logs|
  {
    s.leaders[t].log[..i] <= s.logs[v] || LackingIn(s, t, s.terms[v] + 1, t, i)
  }

  ghost predicate AckOk(s: Proto, a: (nat, int, int)) {
    && a.0 < |s.terms| == |s.logs|
    && IsLeaderEntry(s, a.1, a.2)
    && a.1 <= s.terms[a.0]
    && Retains(s, a.0, a.1, a.2)
  }

  /** Whoever a server that stored an entry votes for later has it, unless a leader in
      between started without it. */
  ghost predicate VoteCarries(s: Proto, key: (nat, int), a: (nat, int, int))
    requires key in s.votes && IsLeaderEntry(s, a.1, a.2)
  {
    && (s.votes[key].candidate, key.1) in s.bids
    && (key.0 == a.0 && a.1 < key.1 && s.votes[key].early ==>
          || s.leaders[a.1].log[..a.2] <= s.bids[(s.votes[key].candidate, key.1)]
          || LackingIn(s, a.1, key.1, a.1, a.2))
  }

  ghost predicate ProtoInv(s: Proto) {
    && |s.terms| == |s.logs|
    && forall seal {:trigger Unsealed(seal)} :: seal == ProtocolSeal ==> ProtoFacts(s)
  }

  ghost predicate ProtoFacts(s: Proto) {
    && |s.terms| == |s.logs|
    && (forall p | 0 <= p < |s.logs| :: LogOk(s.leaders, s.logs[p]) && TermsBelow(s.logs[p], s.terms[p] + 1))
    && (forall t | t in s.leaders :: ReignOk(s, t))
    && (forall key | key in s.bids :: BidOk(s, key))
    && (forall key | key in s.votes :: VoteOk(s, key))
    && (forall a | a in s.acks :: AckOk(s, a))
    && (forall key, a | key in s.votes && a in s.acks :: VoteCarries(s, key, a))
  }

  // ----- consequences: Log Matching, Election Safety, Leader Completeness

  /** Log Matching: two logs with the same term at an index agree up to that index. */
  lemma LogMatching(leaders: map<int, Reign>, a: Log, b: Log, k: nat)
    requires LogOk(leaders, a) && LogOk(leaders, b)
    requires k < |a| && k < |b| && a[k].term == b[k].term
    ensures a[..k + 1] == b[..k + 1]
  {
    assert EntryOk(leaders, a, k) && EntryOk(leaders, b, k);
  }

  lemma PrefixAt(a: Log, b: Log, n: nat, m: nat)
    requires m <= n <= |a| && n <= |b| && a[..n] == b[..n]
    ensures a[..m] == b[..m]
  {
    assert a[..n][..m] == a[..m] && b[..n][..m] == b[..m];
  }

  /** Terms in a leader's log do not exceed its own. */
  lemma ReignTerms(s: Proto, t: int)
    requires ProtoFacts(s) && t in s.leaders
    ensures TermsBelow(s.leaders[t].log, t + 1)
    ensures TermsBelow(s.leaders[t].log[..s.leaders[t].start], t)
  {
    var r := s.leaders[t];
    assert ReignOk(s, t) && BidOk(s, (r.leader, t));
    forall k | 0 <= k < r.start ensures r.log[k].term < t {
      assert r.log[..r.start][k] == r.log[k];
    }
  }

  /** Terms never decrease along a log. */
  lemma TermsRise(s: Proto, log: Log, j: nat, k: nat)
    requires ProtoFacts(s) && LogOk(s.leaders, log) && j <= k < |log|
    ensures log[j].term <= log[k].term
  {
    assert EntryOk(s.leaders, log, k);
    var t := log[k].term;
    ReignTerms(s, t);
    assert log[..k + 1][j] == s.leaders[t].log[..k + 1][j];
  }

  lemma {:induction false} Overlap(n: nat, a: set<nat>, b: set<nat>) returns (v: nat)
    requires Majority(n, a) && Majority(n, b)
    ensures v in a && v in b
  {
    CardinalityBound(n, a + b);
    assert |a + b| + |a * b| == |a| + |b|;
    assert a * b != {};
    v :| v in a * b;
  }

  lemma {:induction false} CardinalityBound(n: nat, q: set<nat>)
    requires forall v | v in q :: v < n
    ensures |q| <= n
  {
    if n == 0 {
      assert q == {};
    } else {
      CardinalityBound(n - 1, q - {n - 1});
    }
  }

  /** A leader has stored every entry of its own term. */
  lemma LeaderAcks(s: Proto, t: int, i: int)
    requires ProtoFacts(s) && IsLeaderEntry(s, t, i)
    ensures (s.leaders[t].leader, t, i) in s.acks
  {
    var r := s.leaders[t];
    assert ReignOk(s, t);
    ReignTerms(s, t);
  }

  /** Entries `i` of term `t` that a majority stored while in that term. */
  ghost predicate CommittedBy(s: Proto, t: int, i: int, q: set<nat>) {
    IsLeaderEntry(s, t, i) && Majority(|s.terms|, q) && forall v | v in q :: (v, t, i) in s.acks
  }

  ghost predicate Committed(s: Proto, t: int, i: int) {
    exists q :: CommittedBy(s, t, i, q)
  }

  /** Leader Completeness: every leader of a later term starts with all of the committed prefix. */
  lemma {:induction false} LeaderCompleteness(s: Proto, t: int, i: int, t2: int)
    requires ProtoFacts(s) && Committed(s, t, i) && t2 in s.leaders && t < t2
    ensures s.leaders[t2].start <= |s.leaders[t2].log|
    ensures s.leaders[t].log[..i] <= s.leaders[t2].log[..s.leaders[t2].start]
    decreases t2 - t
  {
    var q :| CommittedBy(s, t, i, q);
    var r := s.leaders[t2];
    assert ReignOk(s, t2);
    var v := Overlap(|s.terms|, q, r.quorum);
    assert VoteCarries(s, (v, t2), (v, t, i));
    if t3 :| t < t3 < t2 && Lacks(s, t3, t, i) {
      LeaderCompleteness(s, t, i, t3);
    }
  }

  // ----- growth: what a step leaves as it was

  /** Reigns only appear and grow. */
  ghost predicate Grows(a: map<int, Reign>, b: map<int, Reign>) {
    forall t | t in a :: t in b && ReignGrows(a[t], b[t])
  }

  ghost predicate ReignGrows(a: Reign, b: Reign) {
    b.leader == a.leader && b.quorum == a.quorum && b.start == a.start && a.log <= b.log
  }

  lemma LogOkGrows(a: map<int, Reign>, b: map<int, Reign>, log: Log)
    requires Grows(a, b) && LogOk(a, log)
    ensures LogOk(b, log)
  {
    forall k | 0 <= k < |log| ensures EntryOk(b, log, k) {
      assert EntryOk(a, log, k);
      var t := log[k].term;
      assert ReignGrows(a[t], b[t]);
      assert a[t].log[..k + 1] == b[t].log[..k + 1];
    }
  }

  lemma LogOkPrefix(leaders: map<int, Reign>, log: Log, n: nat)
    requires LogOk(leaders, log) && n <= |log|
    ensures LogOk(leaders, log[..n])
  {
    forall k | 0 <= k < n ensures EntryOk(leaders, log[..n], k) {
      assert EntryOk(leaders, log, k);
      assert log[..n][..k + 1] == log[..k + 1];
    }
  }

  ghost predicate Extends(s: Proto, s': Proto) {
    && |s.terms| == |s.logs| == |s'.terms| == |s'.logs|
    && Grows(s.leaders, s'.leaders)
    && (forall p | 0 <= p < |s.terms| :: s.terms[p] <= s'.terms[p])
    && (forall key | key in s.votes :: key in s'.votes && s'.votes[key] == s.votes[key])
    && (forall key | key in s.bids :: key in s'.bids && s'.bids[key] == s.bids[key])
    && s.acks <= s'.acks
  }

  lemma ExtendsTransitive(a: Proto, b: Proto, c: Proto)
    requires Extends(a, b) && Extends(b, c)
    ensures Extends(a, c)
  {
    forall t | t in a.leaders ensures t in c.leaders && ReignGrows(a.leaders[t], c.leaders[t]) {
      assert ReignGrows(a.leaders[t], b.leaders[t]) && ReignGrows(b.leaders[t], c.leaders[t]);
    }
  }

  lemma LeaderEntryGrows(s: Proto, s': Proto, t: int, i: int)
    requires Grows(s.leaders, s'.leaders) && IsLeaderEntry(s, t, i)
    ensures IsLeaderEntry(s', t, i)
    ensures s.leaders[t].log[..i] == s'.leaders[t].log[..i]
  {
    assert ReignGrows(s.leaders[t], s'.leaders[t]);
  }

  lemma LackingGrows(s: Proto, s': Proto, lo: int, hi: int, hi': int, t: int, i: int)
    requires Grows(s.leaders, s'.leaders) && IsLeaderEntry(s, t, i)
    requires hi <= hi' && LackingIn(s, lo, hi, t, i)
    ensures IsLeaderEntry(s', t, i) && LackingIn(s', lo, hi', t, i)
  {
    LeaderEntryGrows(s, s', t, i);
    var t2 :| lo < t2 < hi && Lacks(s, t2, t, i);
    assert ReignGrows(s.leaders[t2], s'.leaders[t2]);
    var start := s.leaders[t2].start;
    assert s.leaders[t2].log[..start] == s'.leaders[t2].log[..start];
    assert Lacks(s', t2, t, i);
  }

  lemma ReignKept(s: Proto, s': Proto, t: int)
    requires Extends(s, s') && t in s.leaders && ReignOk(s, t)
    requires s'.leaders[t] == s.leaders[t]
    ensures ReignOk(s', t)
  {
    LogOkGrows(s.leaders, s'.leaders, s.leaders[t].log);
  }

  lemma BidKept(s: Proto, s': Proto, key: (nat, int))
    requires Extends(s, s') && key in s.bids && BidOk(s, key)
    ensures BidOk(s', key)
  {
    LogOkGrows(s.leaders, s'.leaders, s.bids[key]);
  }

  lemma AckKept(s: Proto, s': Proto, a: (nat, int, int))
    requires Extends(s, s') && AckOk(s, a)
    requires s.leaders[a.1].log[..a.2] <= s.logs[a.0] ==> s.leaders[a.1].log[..a.2] <= s'.logs[a.0]
    ensures AckOk(s', a)
  {
    LeaderEntryGrows(s, s', a.1, a.2);
    if !(s.leaders[a.1].log[..a.2] <= s.logs[a.0]) {
      LackingGrows(s, s', a.1, s.terms[a.0] + 1, s'.terms[a.0] + 1, a.1, a.2);
    }
  }

  lemma CarriesKept(s: Proto, s': Proto, key: (nat, int), a: (nat, int, int))
    requires Extends(s, s') && key in s.votes && IsLeaderEntry(s, a.1, a.2) && VoteCarries(s, key, a)
    ensures IsLeaderEntry(s', a.1, a.2) && VoteCarries(s', key, a)
  {
    LeaderEntryGrows(s, s', a.1, a.2);
    if key.0 == a.0 && a.1 < key.1 && s.votes[key].early
       && !(s.leaders[a.1].log[..a.2] <= s.bids[(s.votes[key].candidate, key.1)]) {
      LackingGrows(s, s', a.1, key.1, key.1, a.1, a.2);
    }
  }

  /** The parts of the invariant about what was there before a step and is kept by it. */
  lemma OldKept(s: Proto, s': Proto)
    requires ProtoFacts(s) && Extends(s, s')
    requires forall t | t in s.leaders :: s'.leaders[t] == s.leaders[t]
    requires forall v, t, i | (v, t, i) in s.acks && s.leaders[t].log[..i] <= s.logs[v] :: s.leaders[t].log[..i] <= s'.logs[v]
    ensures forall t | t in s.leaders :: ReignOk(s', t)
    ensures forall key | key in s.bids :: BidOk(s', key)
    ensures forall key | key in s.votes :: VoteOk(s', key)
    ensures forall a | a in s.acks :: AckOk(s', a)
    ensures forall key, a | key in s.votes && a in s.acks :: VoteCarries(s', key, a)
  {
    forall t | t in s.leaders ensures ReignOk(s', t) { ReignKept(s, s', t); }
    forall key | key in s.bids ensures BidOk(s', key) { BidKept(s, s', key); }
    forall key | key in s.votes ensures VoteOk(s', key) { assert VoteOk(s, key); }
    forall a | a in s.acks ensures AckOk(s', a) {
      assert AckOk(s, a);
      assert (a.0, a.1, a.2) == a;
      AckKept(s, s', a);
    }
    forall key, a | key in s.votes && a in s.acks ensures VoteCarries(s', key, a) {
      assert AckOk(s, a);
      CarriesKept(s, s', key, a);
    }
  }

  // ----- the seven steps

  /** A server hears of a later term. */
  ghost function Advance(s: Proto, p: nat, t: int): Proto
    requires p < |s.terms|
  {
    s.(terms := s.terms[p := t])
  }

  lemma AdvanceKeeps(s: Proto, p: nat, t: int)
    requires ProtoFacts(s) && p < |s.terms| && s.terms[p] <= t
    ensures ProtoFacts(Advance(s, p, t)) && Extends(s, Advance(s, p, t))
  {
    var s' := Advance(s, p, t);
    OldKept(s, s');
  }

  /** A server stands for election in the next term, voting for itself. */
  ghost function Campaign(s: Proto, p: nat): Proto
    requires p < |s.terms| == |s.logs|
  {
    var t := s.terms[p] + 1;
    s.(terms := s.terms[p := t],
       bids := s.bids[(p, t) := s.logs[p]],
       votes := s.votes[(p, t) := Vote(p, t !in s.leaders)])
  }

  lemma CampaignKeeps(s: Proto, p: nat)
    requires ProtoFacts(s) && p < |s.terms| && s.terms[p] >= 0
    ensures ProtoFacts(Campaign(s, p)) && Extends(s, Campaign(s, p))
  {
    var s', t := Campaign(s, p), s.terms[p] + 1;
    assert (p, t) in s.bids ==> BidOk(s, (p, t));
    assert (p, t) in s.votes ==> VoteOk(s, (p, t));
    assert Extends(s, s');
    OldKept(s, s');
    forall a | a in s'.acks ensures VoteCarries(s', (p, t), a) {
      assert AckOk(s, a);
      if a.0 == p && !(s.leaders[a.1].log[..a.2] <= s.logs[p]) {
        LackingGrows(s, s', a.1, s.terms[p] + 1, t, a.1, a.2);
      }
    }
  }

  /** A server votes for a candidate whose log is at least as up to date as its own. */
  ghost function CastVote(s: Proto, v: nat, c: nat): Proto
    requires v < |s.terms|
  {
    var t := s.terms[v];
    s.(votes := s.votes[(v, t) := Vote(c, t !in s.leaders)])
  }

  /** Logs that end in the same term: the longer one contains the other. */
  lemma SameLastTerm(s: Proto, bid: Log, log: Log)
    requires LogOk(s.leaders, bid) && LogOk(s.leaders, log)
    requires log != [] && LastTerm(bid) == LastTerm(log) && |bid| >= |log|
    ensures log <= bid
  {
    assert EntryOk(s.leaders, bid, |bid| - 1) && EntryOk(s.leaders, log, |log| - 1);
    PrefixAt(bid, s.leaders[LastTerm(bid)].log, |bid|, |log|);
    assert log[..|log|] == log;
  }

  /** A log that ends in term `t2` reaches beyond what that term's leader started with. */
  lemma BeyondStart(s: Proto, bid: Log, prefix: Log)
    requires ProtoFacts(s) && LogOk(s.leaders, bid) && bid != []
    requires EntryOk(s.leaders, bid, |bid| - 1)
    requires var r := s.leaders[LastTerm(bid)]; r.start <= |r.log| && prefix <= r.log[..r.start]
    ensures prefix <= bid
  {
    var t2, k := LastTerm(bid), |bid| - 1;
    var r := s.leaders[t2];
    ReignTerms(s, t2);
    assert r.log[..k + 1][k] == r.log[k] && bid[..k + 1][k] == bid[k];
    if k >= r.start {
      assert r.log[..k + 1][..|prefix|] == r.log[..r.start][..|prefix|];
      assert bid[..|prefix|] == bid[..k + 1][..|prefix|];
    }
  }

  /** The heart of the election restriction: an up-to-date log has what the voter has, or
      the leader who wrote its end started without it. */
  lemma UpToDateCarries(s: Proto, v: nat, c: nat, t: int, i: int)
    requires ProtoFacts(s) && v < |s.terms| && (c, s.terms[v]) in s.bids
    requires UpToDate(s.bids[(c, s.terms[v])], s.logs[v])
    requires IsLeaderEntry(s, t, i) && t < s.terms[v] && s.leaders[t].log[..i] <= s.logs[v]
    ensures s.leaders[t].log[..i] <= s.bids[(c, s.terms[v])] || LackingIn(s, t, s.terms[v], t, i)
  {
    var bid, log := s.bids[(c, s.terms[v])], s.logs[v];
    assert BidOk(s, (c, s.terms[v]));
    assert log[i - 1] == s.leaders[t].log[..i][i - 1];
    assert ReignOk(s, t);
    TermsRise(s, log, i - 1, |log| - 1);
    assert bid != [];
    if LastTerm(bid) == LastTerm(log) {
      SameLastTerm(s, bid, log);
    } else {
      var t2 := LastTerm(bid);
      assert EntryOk(s.leaders, bid, |bid| - 1) && ReignOk(s, t2);
      if s.leaders[t].log[..i] <= s.leaders[t2].log[..s.leaders[t2].start] {
        BeyondStart(s, bid, s.leaders[t].log[..i]);
      } else {
        assert Lacks(s, t2, t, i);
      }
    }
  }

  /** So a committed entry the voter has is in every log it may vote for. */
  lemma CommittedCarries(s: Proto, v: nat, c: nat, t: int, i: int)
    requires ProtoFacts(s) && v < |s.terms| && (c, s.terms[v]) in s.bids
    requires UpToDate(s.bids[(c, s.terms[v])], s.logs[v])
    requires Committed(s, t, i) && t < s.terms[v] && s.leaders[t].log[..i] <= s.logs[v]
    ensures s.leaders[t].log[..i] <= s.bids[(c, s.terms[v])]
  {
    UpToDateCarries(s, v, c, t, i);
    if t2 :| t < t2 < s.terms[v] && Lacks(s, t2, t, i) {
      LeaderCompleteness(s, t, i, t2);
    }
  }

  lemma CastVoteKeeps(s: Proto, v: nat, c: nat)
    requires ProtoFacts(s) && v < |s.terms| && s.terms[v] >= 1
    requires (v, s.terms[v]) !in s.votes
    requires (c, s.terms[v]) in s.bids && UpToDate(s.bids[(c, s.terms[v])], s.logs[v])
    ensures ProtoFacts(CastVote(s, v, c)) && Extends(s, CastVote(s, v, c))
  {
    var s', t := CastVote(s, v, c), s.terms[v];
    assert Extends(s, s');
    OldKept(s, s');
    forall a | a in s'.acks ensures VoteCarries(s', (v, t), a) {
      assert AckOk(s, a);
      if a.0 == v && a.1 < t && t !in s.leaders {
        if s.leaders[a.1].log[..a.2] <= s.logs[v] {
          UpToDateCarries(s, v, c, a.1, a.2);
        } else {
          var t2 :| a.1 < t2 < t + 1 && Lacks(s, t2, a.1, a.2);
          assert t2 != t;
          assert LackingIn(s, a.1, t, a.1, a.2);
        }
        if LackingIn(s, a.1, t, a.1, a.2) {
          LackingGrows(s, s', a.1, t, t, a.1, a.2);
        }
      }
    }
  }

  /** A candidate with a majority of votes becomes the leader of its term. */
  ghost function Elect(s: Proto, c: nat, t: int, quorum: set<nat>): Proto
    requires (c, t) in s.bids
  {
    s.(leaders := s.leaders[t := Reign(c, quorum, s.bids[(c, t)], |s.bids[(c, t)]|)])
  }

  /** Everyone in the quorum voted for `c` in term `t`. */
  ghost predicate Elects(s: Proto, c: nat, t: int, quorum: set<nat>) {
    Majority(|s.terms|, quorum) && forall v | v in quorum :: (v, t) in s.votes && s.votes[(v, t)].candidate == c
  }

  /** Election Safety: two majorities of one term voted for the same candidate. */
  lemma OneWinner(s: Proto, c: nat, t: int, quorum: set<nat>)
    requires ProtoFacts(s) && t in s.leaders && Elects(s, c, t, quorum)
    ensures s.leaders[t].leader == c
  {
    assert ReignOk(s, t);
    var v := Overlap(|s.terms|, quorum, s.leaders[t].quorum);
  }

  lemma ElectKeeps(s: Proto, c: nat, t: int, quorum: set<nat>)
    requires ProtoFacts(s) && (c, t) in s.bids && Elects(s, c, t, quorum) && t !in s.leaders
    ensures ProtoFacts(Elect(s, c, t, quorum)) && Extends(s, Elect(s, c, t, quorum))
  {
    var s' := Elect(s, c, t, quorum);
    assert Extends(s, s');
    OldKept(s, s');
    forall p | 0 <= p < |s'.logs| ensures LogOk(s'.leaders, s'.logs[p]) {
      LogOkGrows(s.leaders, s'.leaders, s.logs[p]);
    }
    assert BidOk(s, (c, t));
    LogOkGrows(s.leaders, s'.leaders, s.bids[(c, t)]);
    forall v | v in quorum ensures s'.votes[(v, t)] == Vote(c, true) {
      assert VoteOk(s, (v, t));
    }
    assert ReignOk(s', t);
  }

  /** A leader appends a new entry of its term to its own log. */
  ghost function Write(s: Proto, t: int, command: Command): Proto
    requires t in s.leaders && s.leaders[t].leader < |s.logs|
  {
    var r := s.leaders[t];
    var log := r.log + [LogEntry(t, |r.log| + 1, command)];
    s.(logs := s.logs[r.leader := log], leaders := s.leaders[t := r.(log := log)],
       acks := s.acks + {(r.leader, t, |log|)})
  }

  lemma WriteKeeps(s: Proto, t: int, command: Command)
    requires ProtoFacts(s) && t in s.leaders
    requires var l := s.leaders[t].leader; s.terms[l] == t && s.logs[l] == s.leaders[t].log
    ensures ProtoFacts(Write(s, t, command)) && Extends(s, Write(s, t, command))
  {
    var s', r := Write(s, t, command), s.leaders[t];
    WrittenExtends(s, t, command);
    WrittenLogOk(s, t, command);
    forall p | 0 <= p < |s'.logs| ensures LogOk(s'.leaders, s'.logs[p]) {
      if p != r.leader { LogOkGrows(s.leaders, s'.leaders, s.logs[p]); }
    }
    forall t2 | t2 in s'.leaders ensures ReignOk(s', t2) { WrittenReign(s, t, command, t2); }
    forall key | key in s'.bids ensures BidOk(s', key) { BidKept(s, s', key); }
    forall key | key in s'.votes ensures VoteOk(s', key) { assert VoteOk(s, key); }
    WrittenAcks(s, t, command);
  }

  lemma WrittenReign(s: Proto, t: int, command: Command, t2: int)
    requires ProtoFacts(s) && t in s.leaders && t2 in s.leaders
    requires var l := s.leaders[t].leader; s.terms[l] == t && s.logs[l] == s.leaders[t].log
    ensures ReignOk(Write(s, t, command), t2)
  {
    var s', r := Write(s, t, command), s.leaders[t];
    WrittenExtends(s, t, command);
    WrittenLogOk(s, t, command);
    assert ReignOk(s, t2);
    if t2 == t {
      var log := s'.leaders[t].log;
      assert log[..r.start] == r.log[..r.start];
      forall k | r.start <= k < |log| ensures log[k].term == t && (r.leader, t, k + 1) in s'.acks {
        if k < |r.log| { assert log[k] == r.log[k] && r.log[k].term == t; }
      }
    } else {
      ReignKept(s, s', t2);
    }
  }

  lemma WrittenExtends(s: Proto, t: int, command: Command)
    requires ProtoFacts(s) && t in s.leaders && s.leaders[t].leader < |s.logs|
    ensures Extends(s, Write(s, t, command))
  {
    assert ReignGrows(s.leaders[t], Write(s, t, command).leaders[t]);
  }

  lemma WrittenAcks(s: Proto, t: int, command: Command)
    requires ProtoFacts(s) && t in s.leaders
    requires var l := s.leaders[t].leader; l < |s.logs| && s.terms[l] == t && s.logs[l] == s.leaders[t].log
    ensures var s' := Write(s, t, command);
            && (forall a | a in s'.acks :: AckOk(s', a))
            && (forall key, a | key in s'.votes && a in s'.acks :: VoteCarries(s', key, a))
  {
    var s' := Write(s, t, command);
    WrittenExtends(s, t, command);
    forall a | a in s'.acks ensures AckOk(s', a) {
      if a in s.acks {
        assert AckOk(s, a);
        AckKept(s, s', a);
      }
    }
    forall key, a | key in s'.votes && a in s'.acks ensures VoteCarries(s', key, a) {
      assert VoteOk(s, key);
      if a in s.acks {
        assert AckOk(s, a);
        CarriesKept(s, s', key, a);
      }
    }
  }

  lemma WrittenLogOk(s: Proto, t: int, command: Command)
    requires ProtoFacts(s) && t in s.leaders && s.leaders[t].leader < |s.logs|
    ensures var s' := Write(s, t, command); LogOk(s'.leaders, s'.leaders[t].log)
    ensures TermsBelow(Write(s, t, command).leaders[t].log, t + 1)
  {
    var s', r := Write(s, t, command), s.leaders[t];
    var log := s'.leaders[t].log;
    assert ReignOk(s, t);
    ReignTerms(s, t);
    assert ReignGrows(r, s'.leaders[t]);
    LogOkGrows(s.leaders, s'.leaders, r.log);
    forall k | 0 <= k < |log| ensures EntryOk(s'.leaders, log, k) {
      if k < |r.log| {
        assert EntryOk(s'.leaders, r.log, k);
        assert log[..k + 1] == r.log[..k + 1];
      }
    }
  }

  /** `log'` replaces `log` on the way to the leader's log: it is a part of one or the other
      and keeps all on which they agree. */
  ghost predicate Between(log: Log, leaderLog: Log, log': Log) {
    && (log' <= log || log' <= leaderLog)
    && forall n | 0 <= n <= |log| && n <= |leaderLog| && log[..n] == leaderLog[..n] ::
         n <= |log'| && log'[..n] == leaderLog[..n]
  }

  /** A server in the leader's term moves its log towards the leader's. */
  ghost function Follow(s: Proto, v: nat, log': Log): Proto
    requires v < |s.logs|
  {
    s.(logs := s.logs[v := log'])
  }

  lemma FollowKeeps(s: Proto, v: nat, log': Log)
    requires ProtoFacts(s) && v < |s.logs| && s.terms[v] in s.leaders
    requires Between(s.logs[v], s.leaders[s.terms[v]].log, log')
    ensures ProtoFacts(Follow(s, v, log')) && Extends(s, Follow(s, v, log'))
  {
    var s', t := Follow(s, v, log'), s.terms[v];
    var log, leaderLog := s.logs[v], s.leaders[t].log;
    assert ReignOk(s, t);
    ReignTerms(s, t);
    if log' <= log {
      assert log' == log[..|log'|];
      LogOkPrefix(s.leaders, log, |log'|);
    } else {
      assert log' == leaderLog[..|log'|];
      LogOkPrefix(s.leaders, leaderLog, |log'|);
    }
    forall w, t0, i | (w, t0, i) in s.acks && s.leaders[t0].log[..i] <= s.logs[w]
      ensures s.leaders[t0].log[..i] <= s'.logs[w] || (w == v && t0 < t && Lacks(s, t, t0, i))
    {
      assert AckOk(s, (w, t0, i));
      if w == v { StoredIsKept(s, v, t0, i, log'); }
    }
    FollowOthers(s, v, log');
  }

  /** What the server stored of an earlier term stays, unless the leader started without it. */
  lemma StoredIsKept(s: Proto, v: nat, t0: int, i: int, log': Log)
    requires ProtoFacts(s) && v < |s.logs| && s.terms[v] in s.leaders
    requires Between(s.logs[v], s.leaders[s.terms[v]].log, log')
    requires IsLeaderEntry(s, t0, i) && t0 <= s.terms[v] && s.leaders[t0].log[..i] <= s.logs[v]
    ensures s.leaders[t0].log[..i] <= log' || (t0 < s.terms[v] && Lacks(s, s.terms[v], t0, i))
  {
    var t := s.terms[v];
    var r, prefix := s.leaders[t], s.leaders[t0].log[..i];
    assert ReignOk(s, t);
    if t0 == t || prefix <= r.log[..r.start] {
      assert i <= |r.log| && r.log[..i] == prefix;
      assert s.logs[v][..i] == prefix;
      assert log'[..i] == r.log[..i];
    }
  }

  lemma FollowOthers(s: Proto, v: nat, log': Log)
    requires ProtoFacts(s) && v < |s.logs|
    requires LogOk(s.leaders, log') && TermsBelow(log', s.terms[v] + 1)
    requires forall w, t0, i | (w, t0, i) in s.acks && s.leaders[t0].log[..i] <= s.logs[w] ::
               s.leaders[t0].log[..i] <= Follow(s, v, log').logs[w] || (w == v && t0 < s.terms[v] && Lacks(s, s.terms[v], t0, i))
    ensures ProtoFacts(Follow(s, v, log')) && Extends(s, Follow(s, v, log'))
  {
    var s' := Follow(s, v, log');
    assert Extends(s, s');
    forall t | t in s'.leaders ensures ReignOk(s', t) { ReignKept(s, s', t); }
    forall key | key in s'.bids ensures BidOk(s', key) { BidKept(s, s', key); }
    forall key | key in s'.votes ensures VoteOk(s', key) { assert VoteOk(s, key); }
    forall a | a in s'.acks ensures AckOk(s', a) {
      assert AckOk(s, a);
      var (w, t0, i) := a;
      if s.leaders[t0].log[..i] <= s.logs[w] && !(s.leaders[t0].log[..i] <= s'.logs[w]) {
        assert Lacks(s', s.terms[v], t0, i);
        assert LackingIn(s', t0, s'.terms[v] + 1, t0, i);
      } else {
        AckKept(s, s', a);
      }
    }
    forall key, a | key in s'.votes && a in s'.acks ensures VoteCarries(s', key, a) {
      assert AckOk(s, a);
      CarriesKept(s, s', key, a);
    }
  }

  /** A server in the leader's term acknowledges the first `m` entries of the leader's log. */
  ghost function Acknowledge(s: Proto, v: nat, m: int): Proto
    requires v < |s.terms| && s.terms[v] in s.leaders && m <= |s.leaders[s.terms[v]].log|
  {
    var t := s.terms[v];
    s.(acks := s.acks + set i | 1 <= i <= m && s.leaders[t].log[i - 1].term == t :: (v, t, i))
  }

  lemma AcknowledgeKeeps(s: Proto, v: nat, m: nat)
    requires ProtoFacts(s) && v < |s.terms| && s.terms[v] in s.leaders
    requires m <= |s.leaders[s.terms[v]].log| && s.leaders[s.terms[v]].log[..m] <= s.logs[v]
    ensures ProtoFacts(Acknowledge(s, v, m)) && Extends(s, Acknowledge(s, v, m))
    ensures forall i | 1 <= i <= m && s.leaders[s.terms[v]].log[i - 1].term == s.terms[v] ::
              (v, s.terms[v], i) in Acknowledge(s, v, m).acks
  {
    var s' := Acknowledge(s, v, m);
    assert Extends(s, s');
    OldKept(s, s');
    forall a | a in s'.acks ensures AckOk(s', a) { AcknowledgedOk(s, v, m, a); }
    forall key, a | key in s'.votes && a in s'.acks ensures VoteCarries(s', key, a) {
      assert VoteOk(s, key);
    }
  }

  lemma AcknowledgedOk(s: Proto, v: nat, m: nat, a: (nat, int, int))
    requires ProtoFacts(s) && v < |s.terms| && s.terms[v] in s.leaders
    requires m <= |s.leaders[s.terms[v]].log| && s.leaders[s.terms[v]].log[..m] <= s.logs[v]
    requires a in Acknowledge(s, v, m).acks
    ensures AckOk(Acknowledge(s, v, m), a)
  {
    if a in s.acks {
      assert AckOk(s, a);
      AckKept(s, Acknowledge(s, v, m), a);
    } else {
      var log := s.leaders[s.terms[v]].log;
      assert log[..m][..a.2] == log[..a.2];
    }
  }
}
