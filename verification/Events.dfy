/** Histories as streams of call and return events, under ids of the client's choosing. */
module Events {
  import opened Collections
  import opened Linearizability
  import opened Histories
  import opened Locality
  import opened Parallel

  datatype Event<+I, +O> =
    | CallEvent(clientId: int, input: I, id: int)
    | ReturnEvent(clientId: int, output: O, id: int)

  // ----- what a stream means

  ghost predicate IsCallOf<I, O>(events: seq<Event<I, O>>, k: int, id: int) {
    0 <= k < |events| && events[k].CallEvent? && events[k].id == id
  }

  ghost predicate IsReturnOf<I, O>(events: seq<Event<I, O>>, k: int, id: int) {
    0 <= k < |events| && events[k].ReturnEvent? && events[k].id == id
  }

  ghost predicate Happens<I, O>(events: seq<Event<I, O>>, id: int) {
    (exists c :: IsCallOf(events, c, id)) && (exists r :: IsReturnOf(events, r, id))
  }

  /** Each id that occurs has one call and, later, one return. */
  ghost predicate CompleteEvents<I, O>(events: seq<Event<I, O>>) {
    && (forall j, k | 0 <= j < k < |events| && events[j].id == events[k].id :: events[j].CallEvent? && events[k].ReturnEvent?)
    && (forall k | 0 <= k < |events| :: Happens(events, events[k].id))
  }

  ghost function CallAt<I, O>(events: seq<Event<I, O>>, id: int): (c: int)
    requires Happens(events, id)
    ensures IsCallOf(events, c, id)
  {
    var c :| IsCallOf(events, c, id);
    c
  }

  ghost function ReturnAt<I, O>(events: seq<Event<I, O>>, id: int): (r: int)
    requires Happens(events, id)
    ensures IsReturnOf(events, r, id)
  {
    var r :| IsReturnOf(events, r, id);
    r
  }

  lemma OnlyAt<I, O>(events: seq<Event<I, O>>, k: int)
    requires CompleteEvents(events) && 0 <= k < |events|
    ensures Happens(events, events[k].id)
    ensures k == if events[k].CallEvent? then CallAt(events, events[k].id) else ReturnAt(events, events[k].id)
  {
    var id := events[k].id;
    var c, r := CallAt(events, id), ReturnAt(events, id);
    assert events[c].id == events[r].id == events[k].id;
  }

  /** `names` lists the ids that occur, each once. */
  ghost predicate IsNumbering<I, O>(events: seq<Event<I, O>>, names: seq<int>) {
    && Distinct(names)
    && (forall i | 0 <= i < |names| :: Happens(events, names[i]))
    && (forall k | 0 <= k < |events| :: events[k].id in names)
  }

  /** The operations so numbered, with positions in the stream as times. */
  ghost function OperationsOf<I, O>(events: seq<Event<I, O>>, names: seq<int>): (ops: seq<Operation<I, O>>)
    requires IsNumbering(events, names)
    ensures |ops| == |names|
  {
    seq(|names|, i requires 0 <= i < |names| =>
      var c, r := CallAt(events, names[i]), ReturnAt(events, names[i]);
      Operation(events[c].clientId, events[c].input, c, events[r].output, r))
  }

  ghost function EventsProblem<S, I, O>(model: Model<S, I, O>, events: seq<Event<I, O>>, names: seq<int>): Problem<S, I, O>
    requires IsNumbering(events, names)
  {
    OperationsProblem(model, OperationsOf(events, names))
  }

  ghost predicate EventsLinearizable<S, I, O>(model: Model<S, I, O>, events: seq<Event<I, O>>) {
    exists names :: IsNumbering(events, names) && Linearizable(EventsProblem(model, events, names))
  }

  // ----- the numbering does not matter

  ghost function IndexOf(names: seq<int>, id: int): (i: nat)
    requires id in names
    ensures i < |names| && names[i] == id
  {
    var i :| 0 <= i < |names| && names[i] == id;
    i
  }

  lemma NameOccurs<I, O>(events: seq<Event<I, O>>, names: seq<int>, names': seq<int>, i: nat)
    requires IsNumbering(events, names) && IsNumbering(events, names') && i < |names|
    ensures names[i] in names'
  {
    assert Happens(events, names[i]);
    assert events[CallAt(events, names[i])].id in names';
  }

  ghost function Translation<I, O>(events: seq<Event<I, O>>, names: seq<int>, names': seq<int>): (f: seq<nat>)
    requires IsNumbering(events, names) && IsNumbering(events, names')
    ensures |f| == |names| && forall i | 0 <= i < |names| :: f[i] < |names'| && names'[f[i]] == names[i]
  {
    seq(|names|, i requires 0 <= i < |names| => NameOccurs(events, names, names', i); IndexOf(names', names[i]))
  }

  lemma TranslationCovers<I, O>(events: seq<Event<I, O>>, names: seq<int>, names': seq<int>)
    requires IsNumbering(events, names) && IsNumbering(events, names')
    ensures var f := Translation(events, names, names'); Distinct(f) && IdSet(f) == AllIds(|names'|)
  {
    var f := Translation(events, names, names');
    forall j: nat | j < |names'| ensures j in f {
      NameOccurs(events, names', names, j);
      var i := IndexOf(names, names'[j]);
      assert names'[f[i]] == names'[j];
      assert f[i] == j;
    }
    forall i, j | 0 <= i < j < |f| ensures f[i] != f[j] {
      assert names[i] != names[j];
    }
  }

  lemma SameOperation<I, O>(events: seq<Event<I, O>>, names: seq<int>, names': seq<int>, i: nat)
    requires IsNumbering(events, names) && IsNumbering(events, names') && i < |names|
    ensures var f := Translation(events, names, names');
            OperationsOf(events, names')[f[i]] == OperationsOf(events, names)[i]
  {
    assert names'[Translation(events, names, names')[i]] == names[i];
  }

  lemma TranslationEmbeds<S, I, O>(model: Model<S, I, O>, events: seq<Event<I, O>>, names: seq<int>, names': seq<int>)
    requires IsNumbering(events, names) && IsNumbering(events, names')
    ensures Embeds(EventsProblem(model, events, names), EventsProblem(model, events, names'), Translation(events, names, names'))
  {
    TranslationCovers(events, names, names');
    forall i | 0 <= i < |names|
      ensures OperationsOf(events, names')[Translation(events, names, names')[i]] == OperationsOf(events, names)[i]
    {
      SameOperation(events, names, names', i);
    }
    OperationsEmbed(model, OperationsOf(events, names), OperationsOf(events, names'), Translation(events, names, names'));
  }

  lemma OperationsEmbed<S, I, O>(model: Model<S, I, O>, ops: seq<Operation<I, O>>, ops': seq<Operation<I, O>>, f: seq<nat>)
    requires |f| == |ops| && Distinct(f) && forall i | 0 <= i < |f| :: f[i] < |ops'| && ops'[f[i]] == ops[i]
    ensures Embeds(OperationsProblem(model, ops), OperationsProblem(model, ops'), f)
  {
  }

  lemma EmbeddedLinearizable<S, I, O>(p: Problem<S, I, O>, q: Problem<S, I, O>, f: seq<nat>)
    requires Embeds(p, q, f) && IdSet(f) == AllIds(|q.ops|) && Linearizable(p)
    ensures Linearizable(q)
  {
    var order :| IsLinearization(p, order);
    LinearizationOut(p, q, f, order);
    forall id | 0 <= id < |q.ops| ensures id in Renamed(f, order) { assert id in AllIds(|q.ops|); }
    assert IsLinearization(q, Renamed(f, order));
  }

  lemma Renumbering<S, I, O>(model: Model<S, I, O>, events: seq<Event<I, O>>, names: seq<int>, names': seq<int>)
    requires IsNumbering(events, names) && IsNumbering(events, names')
    requires Linearizable(EventsProblem(model, events, names))
    ensures Linearizable(EventsProblem(model, events, names'))
  {
    TranslationEmbeds(model, events, names, names');
    TranslationCovers(events, names, names');
    EmbeddedLinearizable(EventsProblem(model, events, names), EventsProblem(model, events, names'),
                         Translation(events, names, names'));
  }

  lemma AnyNumbering<S, I, O>(model: Model<S, I, O>, events: seq<Event<I, O>>, names: seq<int>)
    requires IsNumbering(events, names)
    ensures EventsLinearizable(model, events) <==> Linearizable(EventsProblem(model, events, names))
  {
    if EventsLinearizable(model, events) {
      var names0 :| IsNumbering(events, names0) && Linearizable(EventsProblem(model, events, names0));
      Renumbering(model, events, names0, names);
    }
  }

  // ----- renumbering and conversion

  ghost predicate Occurs<I, O>(events: seq<Event<I, O>>, id: int) {
    exists k :: 0 <= k < |events| && events[k].id == id
  }

  /** `e` is `events` with the i-th of the distinct `names` written as i. */
  ghost predicate Renumbered<I, O>(events: seq<Event<I, O>>, names: seq<int>, e: seq<Event<I, O>>) {
    && |e| == |events|
    && Distinct(names)
    && (forall i | 0 <= i < |names| :: Occurs(events, names[i]))
    && (forall k | 0 <= k < |events| ::
          && 0 <= e[k].id < |names|
          && names[e[k].id] == events[k].id
          && e[k] == events[k].(id := e[k].id))
  }

  /** Ids are replaced by 0, 1, 2, ... in order of first occurrence. */
  method Renumber<I, O>(events: seq<Event<I, O>>) returns (e: seq<Event<I, O>>, ghost names: seq<int>)
    ensures Renumbered(events, names, e)
    ensures exists ns :: Renumbered(events, ns, e)
  {
    e, names := [], [];
    var m: map<int, nat> := map[];
    var id := 0;
    for k := 0 to |events|
      invariant id == |names|
      invariant forall x | x in m :: m[x] < |names| && names[m[x]] == x
      invariant forall i | 0 <= i < |names| :: names[i] in m && m[names[i]] == i
      invariant Renumbered(events[..k], names, e)
    {
      var v := events[k];
      ghost var names0 := names;
      var number := id;
      if v.id in m {
        number := m[v.id];
      } else {
        m := m[v.id := id];
        names := names + [v.id];
        id := id + 1;
      }
      RenumberNext(events, k, names0, names, e, number);
      e := e + [v.(id := number)];
    }
    assert events[..|events|] == events;
  }

  lemma RenumberNext<I, O>(events: seq<Event<I, O>>, k: nat, names: seq<int>, names': seq<int>, e: seq<Event<I, O>>, number: nat)
    requires k < |events| && Renumbered(events[..k], names, e)
    requires names' == names || (names' == names + [events[k].id] && events[k].id !in names)
    requires number < |names'| && names'[number] == events[k].id
    ensures Renumbered(events[..k + 1], names', e + [events[k].(id := number)])
  {
    forall i | 0 <= i < |names'| ensures Occurs(events[..k + 1], names'[i]) {
      if i < |names| {
        assert Occurs(events[..k], names[i]);
        var j :| 0 <= j < k && events[..k][j].id == names[i];
        assert events[..k + 1][j].id == names[i];
      } else {
        assert events[..k + 1][k].id == names'[i];
      }
    }
  }

  function EntryOf<I, O>(event: Event<I, O>, i: nat): Entry<I, O>
    requires event.id >= 0
  {
    match event
    case CallEvent(client, input, id) => Call(id, input, i, client)
    case ReturnEvent(client, output, id) => Return(id, output, i, client)
  }

  /** The position in the stream serves as time. */
  method ConvertEntries<I, O>(events: seq<Event<I, O>>) returns (entries: seq<Entry<I, O>>)
    requires forall k | 0 <= k < |events| :: events[k].id >= 0
    ensures |entries| == |events| && forall k | 0 <= k < |events| :: entries[k] == EntryOf(events[k], k)
  {
    entries := [];
    for i := 0 to |events|
      invariant |entries| == i && forall k | 0 <= k < i :: entries[k] == EntryOf(events[k], k)
    {
      entries := entries + [EntryOf(events[i], i)];
    }
  }

  /** The entries come from the stream, renumbered. */
  ghost predicate EntriesFrom<I, O>(events: seq<Event<I, O>>, names: seq<int>, h: seq<Entry<I, O>>) {
    && |h| == |events|
    && IsNumbering(events, names)
    && forall k | 0 <= k < |h| ::
         h[k].id < |names| && names[h[k].id] == events[k].id && h[k] == EntryOf(events[k].(id := h[k].id), k)
  }

  method MakeEventEntries<I, O>(events: seq<Event<I, O>>) returns (h: seq<Entry<I, O>>, ghost names: seq<int>)
    requires CompleteEvents(events)
    ensures EntriesFrom(events, names, h)
    ensures WellFormed(h) && |h| == |events|
  {
    var e;
    e, names := Renumber(events);
    h := ConvertEntries(e);
    forall i | 0 <= i < |names| ensures Happens(events, names[i]) {
      assert Occurs(events, names[i]);
    }
    forall k | 0 <= k < |events| ensures events[k].id in names {
      assert names[e[k].id] == events[k].id;
    }
    EntriesWellFormed(events, names, h);
  }

  // ----- the entries pose the stream's problem

  ghost function Places<I, O>(events: seq<Event<I, O>>, names: seq<int>): (places: seq<nat>)
    requires IsNumbering(events, names)
    ensures |places| == 2 * |names|
    ensures forall i | 0 <= i < |names| ::
              places[i] == CallAt(events, names[i]) && places[|names| + i] == ReturnAt(events, names[i])
  {
    seq(|names|, i requires 0 <= i < |names| => CallAt(events, names[i]))
    + seq(|names|, i requires 0 <= i < |names| => ReturnAt(events, names[i]))
  }

  lemma PlacesDistinct<I, O>(events: seq<Event<I, O>>, names: seq<int>)
    requires IsNumbering(events, names)
    ensures Distinct(Places(events, names))
  {
    var places, n := Places(events, names), |names|;
    forall i, j | 0 <= i < j < |places| ensures places[i] != places[j] {
      var a, b := if i < n then i else i - n, if j < n then j else j - n;
      assert events[places[i]].id == names[a] && events[places[j]].id == names[b];
      assert events[places[i]].CallEvent? <==> i < n;
      assert events[places[j]].CallEvent? <==> j < n;
      assert i < n && j < n ==> names[a] != names[b];
      assert i >= n && j >= n ==> names[a] != names[b];
    }
  }

  /** Two events for each operation. */
  lemma TwoEach<I, O>(events: seq<Event<I, O>>, names: seq<int>)
    requires CompleteEvents(events) && IsNumbering(events, names)
    ensures |events| == 2 * |names|
  {
    var places, n := Places(events, names), |names|;
    PlacesDistinct(events, names);
    forall k: nat | k < |events| ensures k in places {
      OnlyAt(events, k);
      var i := IndexOf(names, events[k].id);
      assert k == if events[k].CallEvent? then places[i] else places[n + i];
    }
    forall j | 0 <= j < |places| ensures places[j] < |events| {
      assert places[j] == if j < n then CallAt(events, names[j]) else ReturnAt(events, names[j - n]);
    }
    AllCount(|events|, places);
  }

  lemma EntriesWellFormed<I, O>(events: seq<Event<I, O>>, names: seq<int>, h: seq<Entry<I, O>>)
    requires CompleteEvents(events) && EntriesFrom(events, names, h)
    ensures WellFormed(h) && Count(h) == |names|
  {
    TwoEach(events, names);
    forall id: nat | id < |names| ensures Complete(h, id) {
      SameNumber(events, names, h, CallAt(events, names[id]), id);
      SameNumber(events, names, h, ReturnAt(events, names[id]), id);
      assert IsCall(h, CallAt(events, names[id]), id) && IsReturn(h, ReturnAt(events, names[id]), id);
    }
    forall j, k | 0 <= j < k < |h| && h[j].id == h[k].id ensures h[j].Call? && h[k].Return? {
      assert events[j].id == events[k].id;
    }
  }

  lemma SameNumber<I, O>(events: seq<Event<I, O>>, names: seq<int>, h: seq<Entry<I, O>>, k: int, id: nat)
    requires EntriesFrom(events, names, h) && 0 <= k < |events| && id < |names| && events[k].id == names[id]
    ensures h[k].id == id
  {
    assert names[h[k].id] == names[id];
  }

  lemma SamePlaces<I, O>(events: seq<Event<I, O>>, names: seq<int>, h: seq<Entry<I, O>>, id: nat)
    requires CompleteEvents(events) && EntriesFrom(events, names, h) && WellFormed(h) && id < |names| == Count(h)
    ensures CallPos(h, id) == CallAt(events, names[id]) && ReturnPos(h, id) == ReturnAt(events, names[id])
  {
    OnlyAt(events, CallPos(h, id));
    OnlyAt(events, ReturnPos(h, id));
  }

  /** The search is given the problem the stream poses. */
  lemma SameEvents<S, I, O>(model: Model<S, I, O>, events: seq<Event<I, O>>, names: seq<int>, h: seq<Entry<I, O>>)
    requires CompleteEvents(events) && EntriesFrom(events, names, h) && WellFormed(h)
    ensures SameProblem(ProblemOf(model, h), EventsProblem(model, events, names))
    ensures Linearizable(ProblemOf(model, h)) <==> EventsLinearizable(model, events)
  {
    EntriesWellFormed(events, names, h);
    var p, q := ProblemOf(model, h), EventsProblem(model, events, names);
    forall id: nat | id < |names| ensures p.ops[id] == q.ops[id] { SamePlaces(events, names, h, id); }
    assert p.ops == q.ops;
    forall a: nat, b: nat | a < |p.ops| && b < |p.ops| ensures p.before(a, b) == q.before(a, b) {
      SamePlaces(events, names, h, a);
      SamePlaces(events, names, h, b);
    }
    SameLinearizations(p, q);
    AnyNumbering(model, events, names);
  }

  // ----- checking

  method MakeAllEntries<I, O>(partitions: seq<seq<Event<I, O>>>) returns (l: seq<seq<Entry<I, O>>>, ghost names: seq<seq<int>>)
    requires forall i | 0 <= i < |partitions| :: CompleteEvents(partitions[i])
    ensures |l| == |partitions| == |names|
    ensures forall i | 0 <= i < |l| :: EntriesFrom(partitions[i], names[i], l[i]) && WellFormed(l[i])
  {
    l, names := [], [];
    for i := 0 to |partitions|
      invariant |l| == i == |names|
      invariant forall j | 0 <= j < i :: EntriesFrom(partitions[j], names[j], l[j]) && WellFormed(l[j])
    {
      var h;
      ghost var ns;
      h, ns := MakeEventEntries(partitions[i]);
      l, names := l + [h], names + [ns];
    }
  }

  ghost function StreamsTruth<S(!new), I(!new), O(!new)>(model: Model<S, I, O>, partitions: seq<seq<Event<I, O>>>): (lin: seq<bool>)
    requires forall i | 0 <= i < |partitions| :: CompleteEvents(partitions[i])
    ensures |lin| == |partitions|
    ensures forall i | 0 <= i < |partitions| :: lin[i] == EventsLinearizable(model, partitions[i])
  {
    seq(|partitions|, i requires 0 <= i < |partitions| => EventsLinearizable(model, partitions[i]))
  }

  /** Check the parts of a stream that a model's `PartitionEvent` made. */
  method CheckEventPartitions<S(!new), I(!new), O(!new)>(
      model: Model<S, I, O>, partitions: seq<seq<Event<I, O>>>, verbose: bool, timer: nat -> bool, late: nat -> nat -> bool)
    returns (result: CheckResult, ghost heard: set<nat>, ghost timedOut: bool)
    requires Coherent(model) && (partitions == [] ==> timer(0))
    requires forall i | 0 <= i < |partitions| :: CompleteEvents(partitions[i])
    ensures Answers(result, StreamsTruth(model, partitions), verbose, timer, heard, timedOut)
    ensures result == Ok ==> forall i | 0 <= i < |partitions| :: EventsLinearizable(model, partitions[i])
    ensures result == Illegal ==> exists i :: 0 <= i < |partitions| && !EventsLinearizable(model, partitions[i])
    ensures NoTimeout(timer) ==> result != Unknown
  {
    var l, longest;
    ghost var names;
    l, names := MakeAllEntries(partitions);
    result, longest, heard, timedOut := CheckParallel(model, l, verbose, timer, late);
    forall i | 0 <= i < |l| ensures Truth(model, l)[i] == EventsLinearizable(model, partitions[i]) {
      SameEvents(model, partitions[i], names[i], l[i]);
    }
    assert Truth(model, l) == StreamsTruth(model, partitions);
  }

  /** `CheckEvents` for a model without `PartitionEvent`: the stream is its only part. */
  method CheckEvents<S(!new), I(!new), O(!new)>(model: Model<S, I, O>, events: seq<Event<I, O>>) returns (ok: bool)
    requires Coherent(model) && CompleteEvents(events)
    ensures ok <==> EventsLinearizable(model, events)
  {
    var result, _, _ := CheckEventPartitions(model, [events], false, (c: nat) => false, (i: nat) => (t: nat) => false);
    assert [events][0] == events;
    ok := result == Ok;
  }
}
