/**
 * The versioned-summary store: an ordered list of generated summaries plus a
 * set of change listeners that are all called after every add and delete.
 *
 * Listener callbacks are modelled by identities; calling a listener is
 * recorded by incrementing its entry in a call-count map. The unique id that
 * the source draws from a UUID generator is drawn here from a counter kept in
 * the store, and the creation time is passed in by the caller.
 */
module SummaryStore {

  type Id = nat
  type ListenerId = nat
  /** Creation time as supplied by the host clock. */
  type Timestamp = int

  datatype Summary = Summary(content: string, timestamp: Timestamp, id: Id)

  datatype Store = Store(
    summaries: seq<Summary>,
    listeners: set<ListenerId>,
    calls: map<ListenerId, nat>,
    nextId: Id)

  /** What `addSummary` hands back: the new store and the record it appended. */
  datatype Added = Added(store: Store, summary: Summary)

  /** What the disposer returned by `subscribe` hands back: the new store and
      whether the listener was still registered (the result of `Set.delete`). */
  datatype Removed = Removed(store: Store, wasRegistered: bool)

  /** Mutating operations, for reasoning about runs of calls. */
  datatype Op =
    | AddOp(content: string, now: Timestamp)
    | DeleteOp(id: Id)
    | SubscribeOp(listener: ListenerId)
    | DisposeOp(listener: ListenerId)

  function Empty(): (r: Store)
    ensures Valid(r)
    ensures r.summaries == [] && r.listeners == {}
  {
    Store([], {}, map[], 0)
  }

  /** How many times listener `l` has been called so far. */
  function Calls(st: Store, l: ListenerId): nat
  {
    if l in st.calls then st.calls[l] else 0
  }

  predicate UniqueIds(s: seq<Summary>)
  {
    forall i, j | 0 <= i < j < |s| :: s[i].id != s[j].id
  }

  predicate HasId(s: seq<Summary>, id: Id)
  {
    exists i | 0 <= i < |s| :: s[i].id == id
  }

  /** Store invariant: ids are pairwise distinct and all below the id counter,
      so the next id handed out is fresh. */
  predicate Valid(st: Store)
  {
    && UniqueIds(st.summaries)
    && forall i | 0 <= i < |st.summaries| :: st.summaries[i].id < st.nextId
  }

  /** `notifyListeners`: every registered listener is called exactly once;
      nothing else changes. */
  function Notify(st: Store): (r: Store)
    ensures r.summaries == st.summaries
    ensures r.listeners == st.listeners
    ensures r.nextId == st.nextId
    ensures forall l :: Calls(r, l) == Calls(st, l) + (if l in st.listeners then 1 else 0)
  {
    st.(calls := map l | l in st.calls.Keys + st.listeners ::
                   if l in st.listeners then Calls(st, l) + 1 else st.calls[l])
  }

  /** `addSummary`: append one fresh record holding `content`, notify, and
      return the appended record. */
  function AddSummary(st: Store, content: string, now: Timestamp): (r: Added)
    ensures r.store.summaries == st.summaries + [r.summary]
    ensures r.summary.content == content && r.summary.timestamp == now
    ensures r.summary == r.store.summaries[|r.store.summaries| - 1]
    ensures Valid(st) ==> !HasId(st.summaries, r.summary.id) && Valid(r.store)
    ensures r.store.listeners == st.listeners
    ensures forall l :: Calls(r.store, l) == Calls(st, l) + (if l in st.listeners then 1 else 0)
  {
    var s := Summary(content, now, st.nextId);
    var st' := st.(summaries := st.summaries + [s], nextId := st.nextId + 1);
    Added(Notify(st'), s)
  }

  /** The list without the records whose id is `id`, in the original order
      (the `filter` of `deleteSummary`). */
  function Without(s: seq<Summary>, id: Id): (r: seq<Summary>)
    ensures |r| <= |s|
    ensures forall x :: x in r <==> x in s && x.id != id
  {
    if s == [] then []
    else if s[0].id == id then Without(s[1..], id)
    else [s[0]] + Without(s[1..], id)
  }

  /** `deleteSummary`: drop every record with id `id` and notify, even when
      no record had that id. */
  function DeleteSummary(st: Store, id: Id): (r: Store)
    ensures forall x :: x in r.summaries <==> x in st.summaries && x.id != id
    ensures !HasId(st.summaries, id) ==> r.summaries == st.summaries
    ensures Valid(st) ==> Valid(r)
    ensures r.listeners == st.listeners
    ensures forall l :: Calls(r, l) == Calls(st, l) + (if l in st.listeners then 1 else 0)
  {
    var r := Notify(st.(summaries := Without(st.summaries, id)));
    assert !HasId(st.summaries, id) ==> r.summaries == st.summaries by {
      if !HasId(st.summaries, id) {
        WithoutAbsent(st.summaries, id);
      }
    }
    assert Valid(st) ==> Valid(r) by {
      if Valid(st) {
        WithoutKeepsValid(st.summaries, id, st.nextId);
      }
    }
    r
  }

  /** `getSummaries`: a snapshot of the list, in insertion order. */
  function GetSummaries(st: Store): (r: seq<Summary>)
    ensures |r| == |st.summaries|
    ensures forall i | 0 <= i < |r| :: r[i] == st.summaries[i]
  {
    st.summaries
  }

  /** `subscribe`: add the listener to the set. The disposer it returns is
      `Unsubscribe`. */
  function Subscribe(st: Store, l: ListenerId): (r: Store)
    ensures r.listeners == st.listeners + {l}
    ensures l in r.listeners
    ensures r.summaries == st.summaries && r.calls == st.calls && r.nextId == st.nextId
  {
    st.(listeners := st.listeners + {l})
  }

  /** The disposer returned by `subscribe`: remove the listener and report
      whether it was registered. */
  function Unsubscribe(st: Store, l: ListenerId): (r: Removed)
    ensures r.wasRegistered <==> l in st.listeners
    ensures r.store.listeners == st.listeners - {l}
    ensures l !in r.store.listeners
    ensures r.store.summaries == st.summaries && r.store.calls == st.calls
    ensures r.store.nextId == st.nextId
  {
    Removed(st.(listeners := st.listeners - {l}), l in st.listeners)
  }

  function Apply(st: Store, op: Op): Store
  {
    match op
    case AddOp(c, now) => AddSummary(st, c, now).store
    case DeleteOp(id) => DeleteSummary(st, id)
    case SubscribeOp(l) => Subscribe(st, l)
    case DisposeOp(l) => Unsubscribe(st, l).store
  }

  function Run(st: Store, ops: seq<Op>): Store
    decreases |ops|
  {
    if ops == [] then st else Run(Apply(st, ops[0]), ops[1..])
  }

  /** Number of operations in `ops` that notify listeners. */
  function Mutations(ops: seq<Op>): nat
  {
    if ops == [] then 0
    else (if ops[0].AddOp? || ops[0].DeleteOp? then 1 else 0) + Mutations(ops[1..])
  }

  // ---------------------------------------------------------------- lemmas

  lemma WithoutAbsent(s: seq<Summary>, id: Id)
    requires !HasId(s, id)
    ensures Without(s, id) == s
  {
    if s != [] {
      assert !HasId(s[1..], id) by {
        forall i | 0 <= i < |s[1..]| ensures s[1..][i].id != id {
          assert s[1..][i] == s[i + 1];
        }
      }
      WithoutAbsent(s[1..], id);
      assert s == [s[0]] + s[1..];
    }
  }

  lemma WithoutKeepsValid(s: seq<Summary>, id: Id, bound: Id)
    requires UniqueIds(s)
    requires forall i | 0 <= i < |s| :: s[i].id < bound
    ensures UniqueIds(Without(s, id))
    ensures forall i | 0 <= i < |Without(s, id)| :: Without(s, id)[i].id < bound
  {
    var r := Without(s, id);
    forall i | 0 <= i < |r| ensures r[i].id < bound {
      assert r[i] in s;
    }
    if s != [] {
      assert UniqueIds(s[1..]) by {
        forall i, j | 0 <= i < j < |s[1..]| ensures s[1..][i].id != s[1..][j].id {
          assert s[1..][i] == s[i + 1] && s[1..][j] == s[j + 1];
        }
      }
      WithoutKeepsValid(s[1..], id, bound);
      if s[0].id != id {
        var t := Without(s[1..], id);
        forall k | 0 <= k < |t| ensures t[k].id != s[0].id {
          assert t[k] in s[1..];
          var m :| 0 <= m < |s[1..]| && s[1..][m] == t[k];
          assert s[m + 1] == t[k];
        }
      }
    }
  }

  /** Filtering distributes over concatenation: deleting keeps the relative
      order of every surviving record. */
  lemma {:induction false} WithoutAppend(a: seq<Summary>, b: seq<Summary>, id: Id)
    ensures Without(a + b, id) == Without(a, id) + Without(b, id)
  {
    if a == [] {
      assert a + b == b;
    } else {
      assert (a + b)[1..] == a[1..] + b;
      WithoutAppend(a[1..], b, id);
    }
  }

  /** With unique ids, deleting an id that is present removes exactly the one
      record at its index and keeps everything else in order. */
  lemma DeleteRemovesAtIndex(st: Store, k: nat)
    requires Valid(st)
    requires k < |st.summaries|
    ensures DeleteSummary(st, st.summaries[k].id).summaries
            == st.summaries[..k] + st.summaries[k + 1..]
  {
    var s := st.summaries;
    var id := s[k].id;
    var head, tail := s[..k], s[k + 1..];
    assert s == head + [s[k]] + tail;
    assert !HasId(head, id) by {
      forall i | 0 <= i < |head| ensures head[i].id != id {
        assert head[i] == s[i];
      }
    }
    assert !HasId(tail, id) by {
      forall i | 0 <= i < |tail| ensures tail[i].id != id {
        assert tail[i] == s[k + 1 + i];
      }
    }
    WithoutOneMatch(head, s[k], tail, id);
  }

  /** Filtering a list whose only record with `id` sits between `head` and
      `tail` leaves `head + tail`. */
  lemma WithoutOneMatch(head: seq<Summary>, x: Summary, tail: seq<Summary>, id: Id)
    requires !HasId(head, id) && !HasId(tail, id) && x.id == id
    ensures Without(head + [x] + tail, id) == head + tail
  {
    var hx := head + [x];
    assert Without([x], id) == [] by {
      assert [x][1..] == [];
    }
    WithoutAppend(head, [x], id);
    WithoutAbsent(head, id);
    assert Without(hx, id) == head by {
      assert head + [] == head;
    }
    WithoutAppend(hx, tail, id);
    WithoutAbsent(tail, id);
  }

  /** Deleting the record that `addSummary` just returned restores the list
      that was there before. */
  lemma AddThenDeleteRestores(st: Store, content: string, now: Timestamp)
    requires Valid(st)
    ensures var a := AddSummary(st, content, now);
            GetSummaries(DeleteSummary(a.store, a.summary.id)) == GetSummaries(st)
  {
    var a := AddSummary(st, content, now);
    DeleteRemovesAtIndex(a.store, |st.summaries|);
    assert a.store.summaries[..|st.summaries|] == st.summaries;
  }

  /** Registering the same listener twice keeps a single entry. */
  lemma SubscribeIdempotent(st: Store, l: ListenerId)
    ensures Subscribe(Subscribe(st, l), l) == Subscribe(st, l)
  {
  }

  /** Every operation keeps ids unique and fresh. */
  lemma {:induction false} RunKeepsValid(st: Store, ops: seq<Op>)
    requires Valid(st)
    ensures Valid(Run(st, ops))
    decreases |ops|
  {
    if ops != [] {
      var st' := Apply(st, ops[0]);
      assert Valid(st');
      RunKeepsValid(st', ops[1..]);
    }
  }

  /** A listener that stays registered through a run is called exactly once
      per add and per delete in it. */
  lemma {:induction false} RegisteredListenerCalledPerMutation(st: Store, ops: seq<Op>, l: ListenerId)
    requires l in st.listeners
    requires forall i | 0 <= i < |ops| :: ops[i] != DisposeOp(l)
    ensures Calls(Run(st, ops), l) == Calls(st, l) + Mutations(ops)
    decreases |ops|
  {
    if ops != [] {
      var st' := Apply(st, ops[0]);
      assert l in st'.listeners;
      assert forall i | 0 <= i < |ops[1..]| :: ops[1..][i] == ops[i + 1];
      RegisteredListenerCalledPerMutation(st', ops[1..], l);
    }
  }

  /** A listener that is not registered, and is not registered during the
      run, is never called: in particular one removed by its disposer. */
  lemma {:induction false} UnregisteredListenerNotCalled(st: Store, ops: seq<Op>, l: ListenerId)
    requires l !in st.listeners
    requires forall i | 0 <= i < |ops| :: ops[i] != SubscribeOp(l)
    ensures Calls(Run(st, ops), l) == Calls(st, l)
    decreases |ops|
  {
    if ops != [] {
      var st' := Apply(st, ops[0]);
      assert l !in st'.listeners;
      assert forall i | 0 <= i < |ops[1..]| :: ops[1..][i] == ops[i + 1];
      UnregisteredListenerNotCalled(st', ops[1..], l);
    }
  }

  /** Adding drafts A and B and then deleting A leaves exactly [B]. */
  lemma DraftsExample(now: Timestamp)
    ensures var a := AddSummary(Empty(), "draft A", now);
            var b := AddSummary(a.store, "draft B", now);
            var st := DeleteSummary(b.store, a.summary.id);
            GetSummaries(st) == [b.summary] && b.summary.content == "draft B"
  {
    var a := AddSummary(Empty(), "draft A", now);
    var b := AddSummary(a.store, "draft B", now);
    DeleteRemovesAtIndex(b.store, 0);
  }

  /** Two listeners registered, one disposed before a third add: only the
      remaining one is called by that add. */
  lemma DisposedListenerExample(l1: ListenerId, l2: ListenerId, now: Timestamp)
    requires l1 != l2
    ensures var st0 := Subscribe(Subscribe(Empty(), l1), l2);
            var st1 := AddSummary(AddSummary(st0, "one", now).store, "two", now).store;
            var st2 := Unsubscribe(st1, l1).store;
            var st3 := AddSummary(st2, "three", now).store;
            Calls(st3, l1) == 2 && Calls(st3, l2) == 3
  {
  }
}
