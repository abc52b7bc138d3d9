/** Timestamp query-frame pooling of the WebGPU device, as pure transitions.
    A frame sits in the in-flight slot, on the available stack, or in the
    pending map under the id of the map request that reads it back. */
module QueryPool {
  import opened Wrappers

  /** Timestamps one frame's query set holds (begin and end of a pass). */
  const QueryCapacity: nat := 2

  /** Bytes in a frame's resolve and result buffers: QueryCapacity 64-bit values. */
  const ResultBufferSize: nat := QueryCapacity * 8

  /** Id of an asynchronous map request; Dawn hands these out in increasing order. */
  type FutureId = nat

  /** Map state of a frame's result buffer. */
  datatype MapState = Unmapped | MapPending

  /** A query set with its resolve and result buffers.  `serial` is the value of
      the frame counter when the frame was created and stands for its native
      objects; `completionId` is the id the frame last waited on. */
  datatype QueryFrame = QueryFrame(
    serial: nat,
    passLabel: string,
    resultMapState: MapState,
    completionId: Option<FutureId>)

  datatype Pool = Pool(
    inflight: Option<QueryFrame>,
    available: seq<QueryFrame>,
    pending: map<FutureId, QueryFrame>,
    frameCounter: nat,
    nextFuture: FutureId)

  /** Commands recorded into a command encoder on behalf of a frame. */
  datatype EncoderCommand =
    | ResolveQuerySet(frame: nat, firstQuery: nat, queryCount: nat, destinationOffset: nat)
    | CopyBufferToBuffer(frame: nat, sourceOffset: nat, destinationOffset: nat, size: nat)

  function EmptyPool(): Pool
  {
    Pool(None, [], map[], 0, 0)
  }

  // ------------------------------------------------------------ invariants

  ghost function InflightSerials(p: Pool): set<nat>
  {
    if p.inflight.Some? then {p.inflight.value.serial} else {}
  }

  ghost function AvailableSerials(p: Pool): set<nat>
  {
    set i | 0 <= i < |p.available| :: p.available[i].serial
  }

  ghost function PendingSerials(p: Pool): set<nat>
  {
    set id | id in p.pending :: p.pending[id].serial
  }

  /** Every frame the pool owns, wherever it sits. */
  ghost function Live(p: Pool): set<nat>
  {
    InflightSerials(p) + AvailableSerials(p) + PendingSerials(p)
  }

  /** No frame sits in two places, or twice in one. */
  ghost predicate Disjoint(p: Pool)
  {
    (forall i, j :: 0 <= i < j < |p.available| ==> p.available[i].serial != p.available[j].serial)
    && (forall a, b :: a in p.pending && b in p.pending && a != b ==> p.pending[a].serial != p.pending[b].serial)
    && AvailableSerials(p) !! PendingSerials(p)
    && InflightSerials(p) !! (AvailableSerials(p) + PendingSerials(p))
  }

  ghost predicate Valid(p: Pool)
  {
    Disjoint(p)
    && (forall s :: s in Live(p) ==> s < p.frameCounter)
    && (p.inflight.Some? ==> p.inflight.value.resultMapState == Unmapped)
    && (forall i :: 0 <= i < |p.available| ==> p.available[i].resultMapState == Unmapped)
    && (forall id :: id in p.pending ==>
          id < p.nextFuture
          && p.pending[id].resultMapState == MapPending
          && p.pending[id].completionId == Some(id))
  }

  lemma EmptyPoolValid()
    ensures Valid(EmptyPool()) && Live(EmptyPool()) == {}
  {
  }

  // ----------------------------------------------------------- transitions

  /** A new frame, numbered by the frame counter. */
  function CreateQueryObjects(counter: nat): (f: QueryFrame)
    ensures f.serial == counter && f.resultMapState == Unmapped
  {
    QueryFrame(counter, "", Unmapped, None)
  }

  /** Makes sure a frame is in flight: keep the current one, else pop the last
      available frame, else create one. */
  function ProcessNextInflight(p: Pool): (q: Pool)
    ensures q.inflight.Some?
    ensures p.inflight.Some? ==> q == p
    ensures q.pending == p.pending && q.nextFuture == p.nextFuture
    ensures q.frameCounter
         == if p.inflight.None? && p.available == [] then p.frameCounter + 1 else p.frameCounter
  {
    if p.inflight.Some? then p
    else if |p.available| > 0 then
      p.(inflight := Some(p.available[|p.available| - 1]),
         available := p.available[..|p.available| - 1])
    else
      p.(inflight := Some(CreateQueryObjects(p.frameCounter)),
         frameCounter := p.frameCounter + 1)
  }

  /** Records the label of the pass being timed on the in-flight frame. */
  function ResolveQuery(p: Pool, passLabel: string): (q: Pool)
    requires p.inflight.Some?
    ensures q.inflight.Some? && q.inflight.value.passLabel == passLabel
    ensures q.inflight.value.serial == p.inflight.value.serial
    ensures q.inflight.value.resultMapState == p.inflight.value.resultMapState
    ensures q.inflight.value.completionId == p.inflight.value.completionId
    ensures q.available == p.available && q.pending == p.pending
    ensures q.frameCounter == p.frameCounter && q.nextFuture == p.nextFuture
  {
    p.(inflight := Some(p.inflight.value.(passLabel := passLabel)))
  }

  /** What ResolveQuery records: resolve both timestamps into the resolve
      buffer, then copy it into the result buffer when that is unmapped. */
  function ResolveCommands(f: QueryFrame): (cmds: seq<EncoderCommand>)
    ensures 1 <= |cmds| <= 2 && cmds[0] == ResolveQuerySet(f.serial, 0, QueryCapacity, 0)
    ensures |cmds| == 2 <==> f.resultMapState == Unmapped
    ensures |cmds| == 2 ==> cmds[1] == CopyBufferToBuffer(f.serial, 0, 0, ResultBufferSize)
  {
    [ResolveQuerySet(f.serial, 0, QueryCapacity, 0)]
    + if f.resultMapState == Unmapped
      then [CopyBufferToBuffer(f.serial, 0, 0, ResultBufferSize)]
      else []
  }

  /** Starts reading back the in-flight frame: when its result buffer is
      unmapped, map it, park the frame in the pending map under the new request
      id and clear the in-flight slot. */
  function QueryValue(p: Pool): (q: Pool)
    requires p.inflight.Some?
    ensures q.available == p.available && q.frameCounter == p.frameCounter
  {
    var f := p.inflight.value;
    if f.resultMapState == Unmapped then
      p.(inflight := None,
         pending := p.pending[p.nextFuture := f.(resultMapState := MapPending,
                                                  completionId := Some(p.nextFuture))],
         nextFuture := p.nextFuture + 1)
    else
      p
  }

  /** The map completion for request `id`: on failure the pending entry is
      erased and its frame dropped; on success the frame is unmapped and pushed
      back on the available stack; a success for an unknown id changes nothing. */
  function Complete(p: Pool, id: FutureId, success: bool): (q: Pool)
    ensures q.inflight == p.inflight && q.frameCounter == p.frameCounter
    ensures id !in q.pending
    ensures id !in p.pending ==> q == p
  {
    if !success then
      p.(pending := p.pending - {id})
    else if id in p.pending then
      p.(available := p.available + [p.pending[id].(resultMapState := Unmapped)],
         pending := p.pending - {id})
    else
      p
  }

  // -------------------------------------------------------------- lemmas

  /** Taking a frame in flight keeps the pool valid; it either reuses the last
      available frame or adds one fresh frame, and loses none. */
  lemma ProcessNextInflightPreserves(p: Pool)
    requires Valid(p)
    ensures var q := ProcessNextInflight(p);
      Valid(q)
      && Live(q) == Live(p) + (if p.inflight.None? && p.available == [] then {p.frameCounter} else {})
      && (p.inflight.None? && p.available != [] ==>
            q.inflight == Some(p.available[|p.available| - 1])
            && q.available == p.available[..|p.available| - 1])
  {
    var q := ProcessNextInflight(p);
    if p.inflight.None? {
      assert InflightSerials(p) == {};
      assert PendingSerials(q) == PendingSerials(p);
      if |p.available| > 0 {
        var n := |p.available|;
        var last := p.available[n - 1].serial;
        assert InflightSerials(q) == {last};
        assert AvailableSerials(p) == AvailableSerials(q) + {last} by {
          forall s | s in AvailableSerials(p)
            ensures s in AvailableSerials(q) + {last}
          {
            var i :| 0 <= i < n && p.available[i].serial == s;
            if i < n - 1 {
              assert q.available[i] == p.available[i];
            }
          }
          forall s | s in AvailableSerials(q) ensures s in AvailableSerials(p) {
            var i :| 0 <= i < n - 1 && q.available[i].serial == s;
            assert q.available[i] == p.available[i];
          }
        }
        assert last !in AvailableSerials(q);
        assert last !in PendingSerials(q);
        assert Live(q) == Live(p);
      } else {
        var created := p.frameCounter;
        assert InflightSerials(q) == {created};
        assert AvailableSerials(q) == AvailableSerials(p) == {};
        assert created !in Live(p);
        assert created !in PendingSerials(p);
        assert Live(q) == Live(p) + {created};
      }
    }
  }

  lemma ResolveQueryPreserves(p: Pool, passLabel: string)
    requires Valid(p) && p.inflight.Some?
    ensures var q := ResolveQuery(p, passLabel);
      Valid(q) && Live(q) == Live(p)
      && |ResolveCommands(p.inflight.value)| == 2
  {
    var q := ResolveQuery(p, passLabel);
    assert InflightSerials(q) == InflightSerials(p);
    assert AvailableSerials(q) == AvailableSerials(p);
    assert PendingSerials(q) == PendingSerials(p);
  }

  /** In a valid pool the in-flight result buffer is always unmapped, so
      QueryValue always moves the frame: the slot empties, the frame waits under
      the next request id, nothing else pending changes and no frame is lost. */
  lemma QueryValueMovesInflight(p: Pool)
    requires Valid(p) && p.inflight.Some?
    ensures var q := QueryValue(p);
      Valid(q) && Live(q) == Live(p)
      && q.inflight.None?
      && p.nextFuture !in p.pending
      && q.pending == p.pending[p.nextFuture := q.pending[p.nextFuture]]
      && q.pending[p.nextFuture].serial == p.inflight.value.serial
  {
    var q := QueryValue(p);
    var f := p.inflight.value;
    assert PendingSerials(q) == PendingSerials(p) + {f.serial} by {
      forall s | s in PendingSerials(q) ensures s in PendingSerials(p) + {f.serial} {
        var id :| id in q.pending && q.pending[id].serial == s;
        if id != p.nextFuture {
          assert id in p.pending;
        }
      }
      assert q.pending[p.nextFuture].serial == f.serial;
      forall s | s in PendingSerials(p) ensures s in PendingSerials(q) {
        var id :| id in p.pending && p.pending[id].serial == s;
        assert id != p.nextFuture;
        assert q.pending[id] == p.pending[id];
      }
    }
    assert AvailableSerials(q) == AvailableSerials(p);
    assert InflightSerials(p) == {f.serial} && InflightSerials(q) == {};
    assert Live(q) == Live(p);
  }

  /** A completion keeps the pool valid and erases `id` from the pending map.
      Success pushes the waiting frame, unmapped and with its label, on top of
      the available stack and loses no frame; failure drops exactly the frame
      that waited on `id`, if any, and leaves the stack alone. */
  lemma CompletePreserves(p: Pool, id: FutureId, success: bool)
    requires Valid(p)
    ensures var q := Complete(p, id, success);
      Valid(q)
      && Live(q) == (if success || id !in p.pending then Live(p) else Live(p) - {p.pending[id].serial})
      && q.pending == p.pending - {id}
      && (success && id in p.pending ==>
            |q.available| == |p.available| + 1
            && q.available[..|p.available|] == p.available
            && q.available[|p.available|].serial == p.pending[id].serial
            && q.available[|p.available|].passLabel == p.pending[id].passLabel
            && q.available[|p.available|].resultMapState == Unmapped)
      && (!success || id !in p.pending ==> q.available == p.available)
  {
    var q := Complete(p, id, success);
    if id in p.pending {
      var f := p.pending[id];
      assert q.pending == p.pending - {id};
      assert PendingSerials(q) == PendingSerials(p) - {f.serial} by {
        forall s | s in PendingSerials(p) - {f.serial} ensures s in PendingSerials(q) {
          var k :| k in p.pending && p.pending[k].serial == s;
          assert k != id;
          assert k in q.pending && q.pending[k] == p.pending[k];
        }
      }
      if success {
        var n := |p.available|;
        assert q.available == p.available + [f.(resultMapState := Unmapped)];
        assert AvailableSerials(q) == AvailableSerials(p) + {f.serial} by {
          forall s | s in AvailableSerials(q) ensures s in AvailableSerials(p) + {f.serial} {
            var i :| 0 <= i < |q.available| && q.available[i].serial == s;
            if i < n {
              assert q.available[i] == p.available[i];
            }
          }
          forall s | s in AvailableSerials(p) ensures s in AvailableSerials(q) {
            var i :| 0 <= i < n && p.available[i].serial == s;
            assert q.available[i] == p.available[i];
          }
          assert q.available[n].serial == f.serial;
        }
        assert InflightSerials(q) == InflightSerials(p);
        assert Live(q) == Live(p);
      } else {
        assert AvailableSerials(q) == AvailableSerials(p);
        assert InflightSerials(q) == InflightSerials(p);
        assert Live(q) == Live(p) - {f.serial};
        assert Live(q) <= Live(p);
      }
    }
  }

  /** The readback cycle of one reused frame: take it in flight, resolve,
      start the readback, and complete successfully; the frame is back on top
      of the available stack, the stack holds the same frames in the same
      order, nothing is left pending and no frame was created. */
  lemma {:induction false} ReadbackRoundTrip(p: Pool, passLabel: string)
    requires Valid(p) && p.inflight.None? && p.available != []
    ensures var q := Complete(QueryValue(ResolveQuery(ProcessNextInflight(p), passLabel)), p.nextFuture, true);
      q.inflight.None?
      && |q.available| == |p.available|
      && (forall i :: 0 <= i < |p.available| ==> q.available[i].serial == p.available[i].serial)
      && q.available[|q.available| - 1].passLabel == passLabel
      && q.pending == p.pending
      && q.frameCounter == p.frameCounter
      && Valid(q) && Live(q) == Live(p)
  {
    var p1 := ProcessNextInflight(p);
    ProcessNextInflightPreserves(p);
    var p2 := ResolveQuery(p1, passLabel);
    ResolveQueryPreserves(p1, passLabel);
    var p3 := QueryValue(p2);
    QueryValueMovesInflight(p2);
    CompletePreserves(p3, p.nextFuture, true);
    ReadbackShape(p, passLabel);
  }

  /** The stack and pending map after one readback cycle, for any pool whose
      top available frame is unmapped and whose next request id is unused. */
  lemma ReadbackShape(p: Pool, passLabel: string)
    requires p.inflight.None? && p.available != []
    requires p.available[|p.available| - 1].resultMapState == Unmapped
    requires p.nextFuture !in p.pending
    ensures var q := Complete(QueryValue(ResolveQuery(ProcessNextInflight(p), passLabel)), p.nextFuture, true);
      q.inflight.None?
      && |q.available| == |p.available|
      && (forall i :: 0 <= i < |p.available| ==> q.available[i].serial == p.available[i].serial)
      && q.available[|q.available| - 1].passLabel == passLabel
      && q.pending == p.pending
      && q.frameCounter == p.frameCounter
  {
    var n := |p.available|;
    var nf := p.nextFuture;
    var p3 := QueryValue(ResolveQuery(ProcessNextInflight(p), passLabel));
    assert p3.available == p.available[..n - 1];
    assert p3.pending == p.pending[nf := p3.pending[nf]];
    var q := Complete(p3, nf, true);
    assert q.available == p.available[..n - 1] + [p3.pending[nf].(resultMapState := Unmapped)];
    forall i | 0 <= i < n ensures q.available[i].serial == p.available[i].serial {
      if i < n - 1 {
        assert q.available[i] == p.available[i];
      }
    }
    assert q.pending == p.pending;
  }
}
