/** pydantic_graph/state/memory.py: the in-memory state persistences. A graph's
    state is a mutable object, here a `StateCell`, so whether a snapshot holds a
    copy of it or the object itself can be observed. Nodes and end data are
    values, so their `deep_copy()` is the value itself. */
module GraphMemory {
  import opened Wrappers
  import opened Exceptions
  import opened Messages
  import opened GraphState

  /** A mutable graph state object. */
  class StateCell<V> {
    var value: V

    constructor(value: V)
      ensures this.value == value
    {
      this.value := value;
    }
  }

  /** A snapshot whose state is a state object or `None` (`null`). */
  type MemorySnapshot<V, N, E> = Snapshot<StateCell?<V>, N, E>

  /** What `prep_state` returns: the state object itself, or a distinct object with equal contents. */
  predicate Prepped<V(==)>(deepCopy: bool, state: StateCell?<V>, r: StateCell?<V>)
    reads state, r
  {
    if !deepCopy || state == null then r == state
    else r != null && r != state && r.value == state.value
  }

  /** Keeps only the latest snapshot. */
  class SimpleStatePersistence<V(==), N, E> {
    const deepCopy: bool
    var lastSnapshot: Option<MemorySnapshot<V, N, E>>

    constructor(deepCopy: bool)
      ensures this.deepCopy == deepCopy && lastSnapshot == None
    {
      this.deepCopy := deepCopy;
      lastSnapshot := None;
    }

    /** `prep_state`: the state itself when `deep_copy` is off or there is no
        state, otherwise a fresh copy. */
    method PrepState(state: StateCell?<V>) returns (r: StateCell?<V>)
      ensures Prepped(deepCopy, state, r)
      ensures deepCopy && state != null ==> fresh(r)
    {
      if !deepCopy || state == null {
        r := state;
      } else {
        r := new StateCell(state.value);
      }
    }

    /** `snapshot_node`: the latest snapshot becomes a new node snapshot. */
    method SnapshotNode(state: StateCell?<V>, node: N)
      modifies this
      ensures lastSnapshot.Some? && lastSnapshot.value == NewNodeSnapshot(lastSnapshot.value.state, node)
      ensures Prepped(deepCopy, state, lastSnapshot.value.state)
      ensures deepCopy && state != null ==> fresh(lastSnapshot.value.state)
    {
      var prepped := PrepState(state);
      lastSnapshot := Some(NewNodeSnapshot(prepped, node));
    }

    /** `snapshot_end`: the latest snapshot becomes an end snapshot stamped `now`. */
    method SnapshotEnd(state: StateCell?<V>, end: End<E>, now: Timestamp)
      modifies this
      ensures lastSnapshot.Some? && lastSnapshot.value == NewEndSnapshot(lastSnapshot.value.state, end, now)
      ensures Prepped(deepCopy, state, lastSnapshot.value.state)
      ensures deepCopy && state != null ==> fresh(lastSnapshot.value.state)
    {
      var prepped := PrepState(state);
      lastSnapshot := Some(NewEndSnapshot(prepped, end, now));
    }

    /** `restore`: the latest snapshot, if any. */
    function Restore(): (r: Option<MemorySnapshot<V, N, E>>)
      reads this
      ensures r == lastSnapshot
    {
      lastSnapshot
    }

    /** `record_run` around a body that ends with `body` (an exception or none),
        started at `now` and lasting `elapsed` seconds: a latest node snapshot gets
        both, even when the body raises; otherwise nothing changes. */
    method RecordRun(now: Timestamp, elapsed: real, body: Option<Error>) returns (raised: Option<Error>)
      modifies this
      ensures raised == body
      ensures old(lastSnapshot).Some? ==> lastSnapshot == Some(Timed(old(lastSnapshot).value, now, elapsed))
      ensures old(lastSnapshot).None? ==> lastSnapshot == None
    {
      var last := Restore();
      if last.None? || !last.value.NodeSnapshot? {
        return body;
      }
      lastSnapshot := Some(last.value.(startTs := Some(now)));
      raised := body;
      lastSnapshot := Some(lastSnapshot.value.(duration := Some(elapsed)));
    }

    /** `restore_node_snapshot` */
    method RestoreNodeSnapshot() returns (r: Result<MemorySnapshot<V, N, E>, Error>)
      ensures r == GraphState.RestoreNodeSnapshot(lastSnapshot)
    {
      r := GraphState.RestoreNodeSnapshot(Restore());
    }
  }

  /** The type adapter `build_snapshots_type_adapter(state_t, run_end_t)` builds. */
  datatype SnapshotsAdapter = SnapshotsAdapter(stateType: string, endType: string)

  /** `dump_json` output: the adapter's encoding of these snapshots, which is
      not part of this model. */
  datatype Dumped<V, N, E> = Dumped(adapter: SnapshotsAdapter, history: seq<MemorySnapshot<V, N, E>>, indent: Option<int>)

  const DumpNeedsAdapter := "type adapter must be set to use `dump_json`"
  const LoadNeedsAdapter := "type adapter must be set to use `load_json`"

  /** Keeps every snapshot, oldest first. */
  class FullStatePersistence<V(==), N, E> {
    const deepCopy: bool
    var history: seq<MemorySnapshot<V, N, E>>
    var snapshotsAdapter: Option<SnapshotsAdapter>

    constructor(deepCopy: bool)
      ensures this.deepCopy == deepCopy && history == [] && snapshotsAdapter == None
    {
      this.deepCopy := deepCopy;
      history := [];
      snapshotsAdapter := None;
    }

    /** `prep_state` */
    method PrepState(state: StateCell?<V>) returns (r: StateCell?<V>)
      ensures Prepped(deepCopy, state, r)
      ensures deepCopy && state != null ==> fresh(r)
    {
      if !deepCopy || state == null {
        r := state;
      } else {
        r := new StateCell(state.value);
      }
    }

    /** `snapshot_node`: one node snapshot appended, earlier ones untouched. */
    method SnapshotNode(state: StateCell?<V>, node: N)
      modifies this
      ensures |history| == |old(history)| + 1 && history[..|old(history)|] == old(history)
      ensures history[|history| - 1] == NewNodeSnapshot(history[|history| - 1].state, node)
      ensures Prepped(deepCopy, state, history[|history| - 1].state)
      ensures deepCopy && state != null ==> fresh(history[|history| - 1].state)
      ensures snapshotsAdapter == old(snapshotsAdapter)
    {
      var prepped := PrepState(state);
      history := history + [NewNodeSnapshot(prepped, node)];
    }

    /** `snapshot_end`: one end snapshot appended, earlier ones untouched. */
    method SnapshotEnd(state: StateCell?<V>, end: End<E>, now: Timestamp)
      modifies this
      ensures |history| == |old(history)| + 1 && history[..|old(history)|] == old(history)
      ensures history[|history| - 1] == NewEndSnapshot(history[|history| - 1].state, end, now)
      ensures Prepped(deepCopy, state, history[|history| - 1].state)
      ensures deepCopy && state != null ==> fresh(history[|history| - 1].state)
      ensures snapshotsAdapter == old(snapshotsAdapter)
    {
      var prepped := PrepState(state);
      history := history + [NewEndSnapshot(prepped, end, now)];
    }

    /** `restore`: the last snapshot, `None` for an empty history. */
    function Restore(): (r: Option<MemorySnapshot<V, N, E>>)
      reads this
      ensures r.None? <==> history == []
      ensures r.Some? ==> r.value == history[|history| - 1]
    {
      if history != [] then Some(history[|history| - 1]) else None
    }

    /** `record_run`: times the last snapshot when it is a node snapshot, even
        when the body raises; every earlier entry is untouched. */
    method RecordRun(now: Timestamp, elapsed: real, body: Option<Error>) returns (raised: Option<Error>)
      modifies this
      ensures raised == body
      ensures |history| == |old(history)| && snapshotsAdapter == old(snapshotsAdapter)
      ensures history != [] ==>
        history[..|history| - 1] == old(history)[..|history| - 1]
        && history[|history| - 1] == Timed(old(history)[|history| - 1], now, elapsed)
    {
      var last := Restore();
      if last.None? || !last.value.NodeSnapshot? {
        return body;
      }
      var n := |history| - 1;
      history := history[n := last.value.(startTs := Some(now))];
      raised := body;
      history := history[n := history[n].(duration := Some(elapsed))];
    }

    /** `restore_node_snapshot` */
    method RestoreNodeSnapshot() returns (r: Result<MemorySnapshot<V, N, E>, Error>)
      ensures r == GraphState.RestoreNodeSnapshot(if history == [] then None else Some(history[|history| - 1]))
    {
      r := GraphState.RestoreNodeSnapshot(Restore());
    }

    /** `set_types`: the adapter is built from `types` (what `get_types()`
        returns) the first time only. */
    method SetTypes(types: (string, string))
      modifies this
      ensures old(snapshotsAdapter).Some? ==> snapshotsAdapter == old(snapshotsAdapter)
      ensures old(snapshotsAdapter).None? ==> snapshotsAdapter == Some(SnapshotsAdapter(types.0, types.1))
      ensures history == old(history)
    {
      if snapshotsAdapter.None? {
        snapshotsAdapter := Some(SnapshotsAdapter(types.0, types.1));
      }
    }

    /** `dump_json`: needs the adapter. */
    function DumpJson(indent: Option<int>): (r: Result<Dumped<V, N, E>, Error>)
      reads this
      ensures r.Failure? <==> snapshotsAdapter.None?
      ensures r.Failure? ==> r.error == AssertionError(DumpNeedsAdapter)
      ensures r.Success? ==>
        r.value.history == history && r.value.adapter == snapshotsAdapter.value && r.value.indent == indent
    {
      if snapshotsAdapter.None? then Failure(AssertionError(DumpNeedsAdapter))
      else Success(Dumped(snapshotsAdapter.value, history, indent))
    }

    /** `load_json`: needs the adapter; `parsed` is what its `validate_json`
        makes of the data, and replaces the history when it succeeds. */
    method LoadJson(parsed: Result<seq<MemorySnapshot<V, N, E>>, Error>) returns (r: Outcome<Error>)
      modifies this
      ensures snapshotsAdapter.None? ==> r == Fail(AssertionError(LoadNeedsAdapter)) && history == old(history)
      ensures snapshotsAdapter.Some? && parsed.Failure? ==> r == Fail(parsed.error) && history == old(history)
      ensures snapshotsAdapter.Some? && parsed.Success? ==> r == Pass && history == parsed.value
      ensures snapshotsAdapter == old(snapshotsAdapter)
    {
      if snapshotsAdapter.None? {
        return Fail(AssertionError(LoadNeedsAdapter));
      }
      if parsed.Failure? {
        return Fail(parsed.error);
      }
      history := parsed.value;
      r := Pass;
    }
  }

  // ---------------------------------------------------------------------------
  // The two-node run of the graph tests

  datatype MyState = MyState(x: int, y: string)

  datatype DemoNode = Foo | Bar

  /** The number a string of decimal digits denotes. */
  function DigitsValue(s: string): int {
    if s == [] then 0 else 10 * DigitsValue(s[..|s| - 1]) + (s[|s| - 1] as int - '0' as int)
  }

  /** The decimal digits of a natural number, without leading zeros. */
  function Digits(n: nat): (s: string)
    ensures |s| >= 1 && forall i | 0 <= i < |s| :: '0' <= s[i] <= '9'
    ensures DigitsValue(s) == n
    ensures s[0] == '0' ==> s == "0"
  {
    var digit := ['0' + (n % 10) as char];
    if n < 10 then digit
    else
      var high := Digits(n / 10);
      assert (high + digit)[..|high + digit| - 1] == high;
      high + digit
  }

  /** `str(n)` (and so `f'{n}'`) for an `int`: a minus sign for negatives, then
      the digits of the magnitude. */
  function Decimal(n: int): (s: string)
    ensures |s| >= 1 && (s[0] == '-' <==> n < 0)
    ensures var magnitude := if n < 0 then s[1..] else s;
      && |magnitude| >= 1 && (forall i | 0 <= i < |magnitude| :: '0' <= magnitude[i] <= '9')
      && DigitsValue(magnitude) == (if n < 0 then -n else n)
      && (magnitude[0] == '0' ==> n == 0)
  {
    if n < 0 then "-" + Digits(-n) else Digits(n)
  }

  /** A run of `Foo` (which increments `x`) then `Bar` (which appends `'y'` to `y`
      and ends with `f'x={x} y={y}'`), driven as the graph does: snapshot the
      next node, record its run, and snapshot the end. The times are inputs. */
  method RunFooBar(sp: FullStatePersistence<MyState, DemoNode, string>, state: StateCell<MyState>,
                   t0: Timestamp, d0: real, t1: Timestamp, d1: real, t2: Timestamp)
    returns (result: string)
    requires sp.history == [] && state.value == MyState(1, "")
    modifies sp, state
    ensures result == "x=2 y=y" && state.value == MyState(2, "y")
    ensures |sp.history| == 3
    ensures sp.history[0] == NodeSnapshot(sp.history[0].state, Foo, Some(t0), Some(d0))
    ensures sp.history[1] == NodeSnapshot(sp.history[1].state, Bar, Some(t1), Some(d1))
    ensures sp.history[2] == EndSnapshot(sp.history[2].state, End("x=2 y=y"), t2)
    ensures sp.deepCopy ==>
      && sp.history[0].state != null && sp.history[0].state.value == MyState(1, "")
      && sp.history[1].state != null && sp.history[1].state.value == MyState(2, "")
      && sp.history[2].state != null && sp.history[2].state.value == MyState(2, "y")
    ensures !sp.deepCopy ==> forall i | 0 <= i < 3 :: sp.history[i].state == state
  {
    sp.SnapshotNode(state, Foo);
    var raised := sp.RecordRun(t0, d0, None);
    state.value := state.value.(x := state.value.x + 1);
    sp.SnapshotNode(state, Bar);
    raised := sp.RecordRun(t1, d1, None);
    state.value := state.value.(y := state.value.y + "y");
    assert Digits(2) == "2";
    result := "x=" + Decimal(state.value.x) + " y=" + state.value.y;
    sp.SnapshotEnd(state, End(result), t2);
  }
}
