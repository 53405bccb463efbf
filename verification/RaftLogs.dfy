/** What a follower's log becomes when it accepts a stretch of the leader's. */
module RaftLogs {
  import opened RaftProtocol
  import opened RaftPeer

  /** The log and the leader's carry the same terms from `from` up to `to`. */
  ghost predicate SameTerms(log: Log, leaderLog: Log, from: int, to: int)
    requires 0 <= from && to <= |log| && to <= |leaderLog|
  {
    forall j | from <= j < to :: log[j].term == leaderLog[j].term
  }

  /** Truncation cuts at the first differing term within the stretch, if there is one. */
  ghost predicate CutAt(log: Log, leaderLog: Log, prev: nat, end: nat, cut: Log) {
    && cut <= log
    && end <= |leaderLog|
    && if |cut| == |log|
       then SameTerms(log, leaderLog, prev, Min(|log|, end))
       else prev <= |cut| < end && SameTerms(log, leaderLog, prev, |cut|) && log[|cut|].term != leaderLog[|cut|].term
  }

  lemma {:induction false} CutIsPrefix(logs: Log, base: int, entries: Log)
    ensures Truncate(logs, base, entries) <= logs
    decreases entries
  {
    if entries != [] { CutIsPrefix(logs, base, entries[1..]); }
  }

  lemma {:induction false} TruncateCuts(log: Log, leaderLog: Log, prev: nat, end: nat)
    requires Numbered(leaderLog, 0) && prev <= end <= |leaderLog|
    ensures CutAt(log, leaderLog, prev, end, Truncate(log, 0, leaderLog[prev..end]))
    decreases end - prev
  {
    var entries := leaderLog[prev..end];
    if prev < end && prev < |log| && log[prev].term == leaderLog[prev].term {
      assert entries[1..] == leaderLog[prev + 1..end];
      TruncateCuts(log, leaderLog, prev + 1, end);
    }
  }

  /** Appending fills up from the leader's log. */
  lemma {:induction false} AppendFills(log: Log, leaderLog: Log, prev: nat, end: nat)
    requires Numbered(leaderLog, 0) && prev <= end <= |leaderLog| && prev <= |log|
    ensures AppendNew(log, 0, leaderLog[prev..end]) == if |log| >= end then log else log + leaderLog[|log|..end]
    decreases end - prev
  {
    var entries := leaderLog[prev..end];
    if prev < end {
      assert entries[1..] == leaderLog[prev + 1..end];
      if |log| == prev {
        var log' := log + [leaderLog[prev]];
        AppendFills(log', leaderLog, prev + 1, end);
        assert log' + leaderLog[prev + 1..end] == log + leaderLog[prev..end];
      } else {
        AppendFills(log, leaderLog, prev + 1, end);
      }
    }
  }

  /** The logs on the way, each one entry longer. */
  lemma {:induction false} StagesFill(log: Log, leaderLog: Log, prev: nat, end: nat)
    requires Numbered(leaderLog, 0) && prev <= end <= |leaderLog| && prev <= |log|
    ensures var stages := AppendStages(log, 0, leaderLog[prev..end]);
            && |stages| == (if |log| >= end then 0 else end - |log|)
            && forall k | 0 <= k < |stages| :: stages[k] == log + leaderLog[|log|..|log| + k + 1]
    decreases end - prev
  {
    var entries := leaderLog[prev..end];
    if prev < end {
      assert entries[1..] == leaderLog[prev + 1..end];
      if |log| == prev {
        var log' := log + [leaderLog[prev]];
        StagesFill(log', leaderLog, prev + 1, end);
        var stages, rest := AppendStages(log, 0, entries), AppendStages(log', 0, entries[1..]);
        assert stages == [log'] + rest;
        forall k | 0 <= k < |stages| ensures stages[k] == log + leaderLog[prev..prev + k + 1] {
          StageShift(log, leaderLog, prev, k);
          if k > 0 { assert stages[k] == rest[k - 1]; }
        }
      } else {
        StagesFill(log, leaderLog, prev + 1, end);
      }
    }
  }

  lemma StageShift(log: Log, leaderLog: Log, prev: nat, k: nat)
    requires |log| == prev && prev + k < |leaderLog|
    ensures (log + [leaderLog[prev]]) + leaderLog[prev + 1..prev + 1 + k] == log + leaderLog[prev..prev + k + 1]
  {
  }

  /** Same terms over a stretch, after agreement, is agreement. */
  lemma {:induction false} TermsToEntries(leaders: map<int, Reign>, log: Log, leaderLog: Log, from: nat, to: nat)
    requires LogOk(leaders, log) && LogOk(leaders, leaderLog)
    requires from <= to <= |log| && to <= |leaderLog|
    requires log[..from] == leaderLog[..from] && SameTerms(log, leaderLog, from, to)
    ensures log[..to] == leaderLog[..to]
  {
    if from < to {
      LogMatching(leaders, log, leaderLog, to - 1);
    }
  }

  lemma PrefixIndex(a: Log, b: Log, n: nat, k: nat)
    requires n <= |a| && n <= |b| && a[..n] == b[..n] && k < n
    ensures a[k] == b[k]
  {
    assert a[..n][k] == b[..n][k];
  }

  /** A log that extends the agreed part of the follower's log by leader's entries. */
  lemma FillsBetween(log: Log, leaderLog: Log, cut: Log, j: nat)
    requires cut <= log && |cut| <= j <= |leaderLog| && cut == leaderLog[..|cut|]
    requires |cut| < |log| ==> |cut| < |leaderLog| && log[|cut|] != leaderLog[|cut|]
    ensures Between(log, leaderLog, cut + leaderLog[|cut|..j])
    ensures cut + leaderLog[|cut|..j] == leaderLog[..j]
  {
    assert cut + leaderLog[|cut|..j] == leaderLog[..j];
    forall n | 0 <= n <= |log| && n <= |leaderLog| && log[..n] == leaderLog[..n]
      ensures n <= j && leaderLog[..j][..n] == leaderLog[..n]
    {
      if n > |cut| {
        PrefixIndex(log, leaderLog, n, |cut|);
      }
    }
  }

  /** What is left after truncation agrees with the leader as far as the stretch goes. */
  lemma CutAgrees(leaders: map<int, Reign>, log: Log, leaderLog: Log, prev: nat, end: nat)
    requires LogOk(leaders, log) && LogOk(leaders, leaderLog) && Numbered(leaderLog, 0)
    requires prev <= end <= |leaderLog| && prev <= |log| && log[..prev] == leaderLog[..prev]
    ensures var cut := Truncate(log, 0, leaderLog[prev..end]);
            && prev <= |cut| && cut <= log
            && cut[..Min(|cut|, end)] == leaderLog[..Min(|cut|, end)]
            && (|cut| < |log| ==> |cut| < end && log[|cut|] != leaderLog[|cut|])
  {
    var cut := Truncate(log, 0, leaderLog[prev..end]);
    TruncateCuts(log, leaderLog, prev, end);
    var m := Min(|cut|, end);
    TermsToEntries(leaders, log, leaderLog, prev, m);
    assert cut[..m] == log[..m];
  }

  ghost predicate StagesBetween(log: Log, leaderLog: Log, stages: seq<Log>) {
    forall k | 0 <= k < |stages| :: Between(log, leaderLog, stages[k])
  }

  /** The case where the log ends, or is cut, before the end of the stretch. */
  lemma FilledLog(log: Log, leaderLog: Log, cut: Log, prev: nat, end: nat)
    requires Numbered(leaderLog, 0) && prev <= |cut| < end <= |leaderLog|
    requires cut <= log && cut == leaderLog[..|cut|]
    requires |cut| < |log| ==> log[|cut|] != leaderLog[|cut|]
    ensures var log', stages := AppendNew(cut, 0, leaderLog[prev..end]), AppendStages(cut, 0, leaderLog[prev..end]);
            && log' == leaderLog[..end]
            && Between(log, leaderLog, cut) && Between(log, leaderLog, log')
            && StagesBetween(log, leaderLog, stages)
            && stages != [] && log' == stages[|stages| - 1]
  {
    AppendFills(cut, leaderLog, prev, end);
    StagesFill(cut, leaderLog, prev, end);
    var stages := AppendStages(cut, 0, leaderLog[prev..end]);
    FillsBetween(log, leaderLog, cut, |cut|);
    assert cut + leaderLog[|cut|..|cut|] == cut;
    forall k | 0 <= k < |stages| ensures Between(log, leaderLog, stages[k]) {
      FillsBetween(log, leaderLog, cut, |cut| + k + 1);
    }
    FillsBetween(log, leaderLog, cut, end);
  }

  ghost predicate Accepted(log: Log, leaderLog: Log, entries: Log, end: nat) {
    var cut := Truncate(log, 0, entries);
    var log', stages := AppendNew(cut, 0, entries), AppendStages(cut, 0, entries);
    && end <= |log'| && end <= |leaderLog| && log'[..end] == leaderLog[..end]
    && Between(log, leaderLog, cut) && Between(log, leaderLog, log')
    && StagesBetween(log, leaderLog, stages)
    && log' == if stages == [] then cut else stages[|stages| - 1]
  }

  /** Accepting `leaderLog[prev..end]` on a log that matches the leader's at `prev`: the
      result holds the leader's first `end` entries, and it and every log saved on the way
      keep all on which follower and leader agree. */
  lemma AcceptedLog(leaders: map<int, Reign>, log: Log, leaderLog: Log, prev: nat, end: nat)
    requires LogOk(leaders, log) && LogOk(leaders, leaderLog) && Numbered(leaderLog, 0)
    requires prev <= end <= |leaderLog| && prev <= |log| && log[..prev] == leaderLog[..prev]
    ensures Accepted(log, leaderLog, leaderLog[prev..end], end)
  {
    var entries := leaderLog[prev..end];
    var cut := Truncate(log, 0, entries);
    CutAgrees(leaders, log, leaderLog, prev, end);
    if |cut| >= end {
      AppendFills(cut, leaderLog, prev, end);
      StagesFill(cut, leaderLog, prev, end);
    } else {
      assert cut[..|cut|] == cut;
      FilledLog(log, leaderLog, cut, prev, end);
      assert leaderLog[..end][..end] == leaderLog[..end];
    }
  }
}
