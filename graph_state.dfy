/** pydantic_graph/state/__init__.py: the snapshots of a graph run and
    `StatePersistence.restore_node_snapshot`. `S` is the state, `N` a node and
    `E` the data of an `End`. */
module GraphState {
  import opened Wrappers
  import opened Exceptions
  import opened Messages

  /** `End[RunEndT]`: the value a graph run ends with. */
  datatype End<E> = End(data: E)

  /** What `snapshot.node` gives: the node to run next, or the end of the run. */
  datatype NodeOrEnd<N, E> = Next(node: N) | Ended(result: End<E>)

  /** `NodeSnapshot | EndSnapshot`; `duration` is in seconds. */
  datatype Snapshot<S, N, E> =
    | NodeSnapshot(state: S, node: N, startTs: Option<Timestamp>, duration: Option<real>)
    | EndSnapshot(state: S, result: End<E>, ts: Timestamp)
  {
    /** The `kind` discriminator. */
    function Kind(): (k: string)
      ensures k == "node" <==> this.NodeSnapshot?
      ensures k == "end" <==> this.EndSnapshot?
    {
      if NodeSnapshot? then "node" else "end"
    }

    /** The `node` attribute of a node snapshot, the `node` property of an end
        snapshot (which returns its `result`). */
    function NodeOf(): (n: NodeOrEnd<N, E>)
      ensures this.NodeSnapshot? ==> n == Next(this.node)
      ensures this.EndSnapshot? ==> n == Ended(this.result)
    {
      if NodeSnapshot? then Next(node) else Ended(result)
    }
  }

  /** `NodeSnapshot(state=..., node=...)`: not started, no duration. */
  function NewNodeSnapshot<S, N, E>(state: S, node: N): (s: Snapshot<S, N, E>)
    ensures s.Kind() == "node" && s.state == state && s.NodeOf() == Next(node)
    ensures s.startTs.None? && s.duration.None?
  {
    NodeSnapshot(state, node, None, None)
  }

  /** `EndSnapshot(state=..., result=...)`, stamped at `now`. */
  function NewEndSnapshot<S, N, E>(state: S, result: End<E>, now: Timestamp): (s: Snapshot<S, N, E>)
    ensures s.Kind() == "end" && s.state == state && s.NodeOf() == Ended(result) && s.ts == now
  {
    EndSnapshot(state, result, now)
  }

  const UnableToRestore := "Unable to restore snapshot from state persistence."
  const GraphHasEnded := "Snapshot returned from persistence indicates the graph has ended."

  /** `restore_node_snapshot` given what `restore()` returned: no snapshot and an
      end snapshot are errors, a node snapshot is returned as it is. */
  function RestoreNodeSnapshot<S, N, E>(restored: Option<Snapshot<S, N, E>>): (r: Result<Snapshot<S, N, E>, Error>)
    ensures restored.None? ==> r == Failure(GraphRuntimeError(UnableToRestore))
    ensures restored.Some? && restored.value.EndSnapshot? ==> r == Failure(GraphRuntimeError(GraphHasEnded))
    ensures r.Success? <==> restored.Some? && restored.value.NodeSnapshot?
    ensures r.Success? ==> r.value == restored.value
  {
    if restored.None? then Failure(GraphRuntimeError(UnableToRestore))
    else if !restored.value.NodeSnapshot? then Failure(GraphRuntimeError(GraphHasEnded))
    else Success(restored.value)
  }

  /** The effect of `record_run` on the snapshot it finds: a node snapshot gets
      its start time and duration, anything else is left alone. */
  function Timed<S, N, E>(s: Snapshot<S, N, E>, now: Timestamp, elapsed: real): (r: Snapshot<S, N, E>)
    ensures r.Kind() == s.Kind() && r.state == s.state && r.NodeOf() == s.NodeOf()
    ensures s.NodeSnapshot? ==> r.startTs == Some(now) && r.duration == Some(elapsed)
    ensures s.EndSnapshot? ==> r == s
  {
    if s.NodeSnapshot? then s.(startTs := Some(now), duration := Some(elapsed)) else s
  }
}
