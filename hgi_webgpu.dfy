/** The bookkeeping of the WebGPU device HgiWebGPU: the pending command-buffer
    list, the "current" compute/blit recorder, the deferred-destruction queue and
    the timestamp query-frame pool.  Native objects are opaque ids; calls into
    the native API and into the Hgi base class show up as entries of the
    `effects` log or as parameters. */
module HgiWebGPUDevice {
  import opened Wrappers
  import QueryPool

  /** A non-null native command buffer. */
  type CommandBuffer = nat

  /** A texture, named by the unique id of its handle. */
  type TextureId = nat

  datatype CmdsKind = ComputeCmds | BlitCmds

  /** A compute or blit recorder; the device compares recorders by identity. */
  class Cmds {
    const kind: CmdsKind

    constructor (kind: CmdsKind)
      ensures this.kind == kind
    {
      this.kind := kind;
    }
  }

  /** A texture view and the texture it owns. */
  class TextureView {
    const id: nat
    var texture: Option<TextureId>

    constructor (id: nat, texture: Option<TextureId>)
      ensures this.id == id && this.texture == texture
    {
      this.id := id;
      this.texture := texture;
    }
  }

  /** The caller's texture-view handle variable; null once the view is destroyed. */
  class TextureViewHandle {
    var view: TextureView?

    constructor (view: TextureView?)
      ensures this.view == view
    {
      this.view := view;
    }
  }

  datatype TextureViewDesc = TextureViewDesc(sourceTexture: Option<TextureId>)

  /** A deferred-destruction closure: delete the texture it captured. */
  datatype GcHandler = DeleteTexture(texture: Option<TextureId>)

  /** Where the next render pass writes its begin and end timestamps. */
  datatype TimestampWrites = TimestampWrites(querySet: nat, beginningOfPassWriteIndex: nat, endOfPassWriteIndex: nat)

  /** What the device does to the outside world, in order. */
  datatype Effect =
    | Submitted(batch: seq<CommandBuffer>)
    | HandlerRan(handler: GcHandler)
    | Trashed(texture: Option<TextureId>)
    | ViewDeleted(view: nat)
    | MapRequested(frame: nat, offset: nat, size: nat, future: QueryPool.FutureId)
    | CodingError(message: string)
    | Warning(message: string)
    | RuntimeError(message: string)
    | TimingReported(passLabel: string)

  /** The effects of running the handlers `hs`: each one exactly once, in order. */
  function Ran(hs: seq<GcHandler>): (r: seq<Effect>)
    ensures |r| == |hs|
    ensures forall i :: 0 <= i < |hs| ==> r[i] == HandlerRan(hs[i])
  {
    if hs == [] then [] else [HandlerRan(hs[0])] + Ran(hs[1..])
  }

  class HgiWebGPU {
    var commandBuffers: seq<CommandBuffer>
    var garbageCollectionHandlers: seq<GcHandler>
    var currentCmds: Cmds?
    var workToFlush: bool
    var inflightQuery: Option<QueryPool.QueryFrame>
    var availableQueries: seq<QueryPool.QueryFrame>
    var pendingQueries: map<QueryPool.FutureId, QueryPool.QueryFrame>
    var queryFrameCounter: nat
    /** Ids of map requests, as the native instance hands them out. */
    var nextFutureId: QueryPool.FutureId
    /** The next id the Hgi base class hands to a new handle. */
    var nextUniqueId: nat
    var effects: seq<Effect>

    /** The query-frame fields as one pool value. */
    function QueryState(): QueryPool.Pool
      reads this
    {
      QueryPool.Pool(inflightQuery, availableQueries, pendingQueries, queryFrameCounter, nextFutureId)
    }

    ghost predicate Valid()
      reads this
    {
      QueryPool.Valid(QueryState())
    }

    constructor ()
      ensures Valid()
      ensures commandBuffers == [] && garbageCollectionHandlers == []
      ensures currentCmds == null && !workToFlush
      ensures QueryState() == QueryPool.EmptyPool() && effects == []
    {
      commandBuffers := [];
      garbageCollectionHandlers := [];
      currentCmds := null;
      workToFlush := false;
      inflightQuery := None;
      availableQueries := [];
      pendingQueries := map[];
      queryFrameCounter := 0;
      nextFutureId := 0;
      nextUniqueId := 1;
      effects := [];
      QueryPool.EmptyPoolValid();
    }

    /** The destructor: run every deferred handler. */
    method Destroy()
      modifies this`garbageCollectionHandlers, this`effects
      ensures garbageCollectionHandlers == []
      ensures effects == old(effects) + Ran(old(garbageCollectionHandlers))
    {
      PerformGarbageCollection();
    }

    // ------------------------------------------------------------ recorders

    method CreateComputeCmds() returns (cmds: Cmds)
      modifies this`currentCmds
      ensures fresh(cmds) && cmds.kind == ComputeCmds
      ensures currentCmds == if old(currentCmds) == null then cmds else old(currentCmds)
    {
      cmds := new Cmds(ComputeCmds);
      if currentCmds == null {
        currentCmds := cmds;
      }
    }

    method CreateBlitCmds() returns (cmds: Cmds)
      modifies this`currentCmds
      ensures fresh(cmds) && cmds.kind == BlitCmds
      ensures currentCmds == if old(currentCmds) == null then cmds else old(currentCmds)
    {
      cmds := new Cmds(BlitCmds);
      if currentCmds == null {
        currentCmds := cmds;
      }
    }

    /** Submits `cmds` through the base class, whose answer (whether work was
        submitted) is `baseSubmitted`; drains the garbage queue when it is true
        and releases the current slot if `cmds` held it.  Returns the flag. */
    method SubmitCmds(cmds: Cmds?, baseSubmitted: bool) returns (r: bool)
      modifies this`workToFlush, this`currentCmds, this`garbageCollectionHandlers, this`effects
      ensures cmds == null ==>
        r == old(workToFlush) && workToFlush == old(workToFlush)
        && currentCmds == old(currentCmds)
        && garbageCollectionHandlers == old(garbageCollectionHandlers) && effects == old(effects)
      ensures cmds != null ==> workToFlush == baseSubmitted && r == baseSubmitted
      ensures cmds != null ==> currentCmds == if cmds == old(currentCmds) then null else old(currentCmds)
      ensures cmds != null && baseSubmitted ==>
        garbageCollectionHandlers == [] && effects == old(effects) + Ran(old(garbageCollectionHandlers))
      ensures cmds != null && !baseSubmitted ==>
        garbageCollectionHandlers == old(garbageCollectionHandlers) && effects == old(effects)
    {
      if cmds != null {
        workToFlush := baseSubmitted;
        if workToFlush {
          PerformGarbageCollection();
        }
        if cmds == currentCmds {
          currentCmds := null;
        }
      }
      r := workToFlush;
    }

    // ----------------------------------------------------- command buffers

    method EnqueueCommandBuffer(commandBuffer: Option<CommandBuffer>)
      modifies this`commandBuffers
      ensures commandBuffers
           == old(commandBuffers) + if commandBuffer.Some? then [commandBuffer.value] else []
    {
      if commandBuffer.Some? {
        commandBuffers := commandBuffers + [commandBuffer.value];
      }
    }

    /** Submits every pending command buffer in one call, in order, and clears
        the list; with nothing pending it does nothing. */
    method QueueSubmit()
      modifies this`commandBuffers, this`effects
      ensures commandBuffers == []
      ensures effects == old(effects) + if old(commandBuffers) == [] then [] else [Submitted(old(commandBuffers))]
    {
      if commandBuffers != [] {
        effects := effects + [Submitted(commandBuffers)];
        commandBuffers := [];
      }
    }

    // ------------------------------------------------ deferred destruction

    /** Runs every queued handler once, in the order queued, then empties the queue. */
    method PerformGarbageCollection()
      modifies this`garbageCollectionHandlers, this`effects
      ensures garbageCollectionHandlers == []
      ensures effects == old(effects) + Ran(old(garbageCollectionHandlers))
    {
      var i := 0;
      while i < |garbageCollectionHandlers|
        invariant 0 <= i <= |garbageCollectionHandlers|
        invariant garbageCollectionHandlers == old(garbageCollectionHandlers)
        invariant effects == old(effects) + Ran(garbageCollectionHandlers[..i])
      {
        effects := effects + [HandlerRan(garbageCollectionHandlers[i])];
        assert Ran(garbageCollectionHandlers[..i + 1])
            == Ran(garbageCollectionHandlers[..i]) + [HandlerRan(garbageCollectionHandlers[i])];
        i := i + 1;
      }
      assert garbageCollectionHandlers[..i] == garbageCollectionHandlers;
      garbageCollectionHandlers := [];
    }

    /** Creates a view with a texture of its own; a missing source texture is
        reported as a coding error and creation goes on. */
    method CreateTextureView(desc: TextureViewDesc) returns (handle: TextureViewHandle)
      modifies this`nextUniqueId, this`effects
      ensures fresh(handle) && handle.view != null && fresh(handle.view)
      ensures handle.view.texture == Some(old(nextUniqueId))
      ensures handle.view.id == old(nextUniqueId) + 1 && nextUniqueId == old(nextUniqueId) + 2
      ensures effects
           == old(effects) + if desc.sourceTexture.None? then [CodingError("Source texture is null")] else []
    {
      if desc.sourceTexture.None? {
        effects := effects + [CodingError("Source texture is null")];
      }
      var src := nextUniqueId;
      nextUniqueId := nextUniqueId + 1;
      var viewId := nextUniqueId;
      nextUniqueId := nextUniqueId + 1;
      var view := new TextureView(viewId, Some(src));
      handle := new TextureViewHandle(view);
    }

    /** Destroys the view: its texture is deleted later by a queued handler when
        work is waiting to be flushed, and trashed at once otherwise; the
        caller's handle is null afterwards. */
    method DestroyTextureView(viewHandle: TextureViewHandle)
      requires viewHandle.view != null
      modifies this`garbageCollectionHandlers, this`effects, viewHandle, viewHandle.view
      ensures viewHandle.view == null
      ensures old(viewHandle.view).texture == None
      ensures workToFlush ==>
        garbageCollectionHandlers == old(garbageCollectionHandlers) + [DeleteTexture(old(viewHandle.view.texture))]
        && effects == old(effects) + [ViewDeleted(old(viewHandle.view).id)]
      ensures !workToFlush ==>
        garbageCollectionHandlers == old(garbageCollectionHandlers)
        && effects == old(effects) + [Trashed(old(viewHandle.view.texture)), ViewDeleted(old(viewHandle.view).id)]
    {
      var view := viewHandle.view;
      var texHandle := view.texture;
      if workToFlush {
        garbageCollectionHandlers := garbageCollectionHandlers + [DeleteTexture(texHandle)];
      } else {
        effects := effects + [Trashed(texHandle)];
      }
      view.texture := None;
      effects := effects + [ViewDeleted(view.id)];
      viewHandle.view := null;
    }

    // --------------------------------------------------- timestamp queries

    method CreateQueryObjects() returns (frame: QueryPool.QueryFrame)
      modifies this`queryFrameCounter
      ensures frame == QueryPool.CreateQueryObjects(old(queryFrameCounter))
      ensures queryFrameCounter == old(queryFrameCounter) + 1
    {
      frame := QueryPool.QueryFrame(queryFrameCounter, "", QueryPool.Unmapped, None);
      queryFrameCounter := queryFrameCounter + 1;
    }

    /** Keeps the in-flight frame, or takes the last available one, or creates one. */
    method ProcessNextInflightQuery()
      requires Valid()
      modifies this`inflightQuery, this`availableQueries, this`queryFrameCounter
      ensures Valid() && inflightQuery.Some?
      ensures QueryState() == QueryPool.ProcessNextInflight(old(QueryState()))
    {
      QueryPool.ProcessNextInflightPreserves(QueryState());
      if inflightQuery.None? {
        if |availableQueries| > 0 {
          inflightQuery := Some(availableQueries[|availableQueries| - 1]);
          availableQueries := availableQueries[..|availableQueries| - 1];
        } else {
          var frame := CreateQueryObjects();
          inflightQuery := Some(frame);
        }
      }
    }

    method GetRenderTimestampWrites() returns (writes: TimestampWrites)
      requires Valid()
      modifies this`inflightQuery, this`availableQueries, this`queryFrameCounter
      ensures Valid() && inflightQuery.Some?
      ensures QueryState() == QueryPool.ProcessNextInflight(old(QueryState()))
      ensures writes == TimestampWrites(inflightQuery.value.serial, 0, 1)
    {
      ProcessNextInflightQuery();
      writes := TimestampWrites(inflightQuery.value.serial, 0, 1);
    }

    /** Records the resolve of the in-flight frame into `encoder`, and the copy
        into its result buffer when that is unmapped; remembers the pass label. */
    method ResolveQuery(encoder: seq<QueryPool.EncoderCommand>, passLabel: string)
      returns (recorded: seq<QueryPool.EncoderCommand>)
      requires Valid() && inflightQuery.Some?
      modifies this`inflightQuery
      ensures Valid()
      ensures recorded == encoder + QueryPool.ResolveCommands(old(inflightQuery).value)
      ensures QueryState() == QueryPool.ResolveQuery(old(QueryState()), passLabel)
    {
      QueryPool.ResolveQueryPreserves(QueryState(), passLabel);
      var frame := inflightQuery.value;
      recorded := encoder + [QueryPool.ResolveQuerySet(frame.serial, 0, QueryPool.QueryCapacity, 0)];
      if frame.resultMapState == QueryPool.Unmapped {
        recorded := recorded + [QueryPool.CopyBufferToBuffer(frame.serial, 0, 0, QueryPool.ResultBufferSize)];
      }
      inflightQuery := Some(frame.(passLabel := passLabel));
    }

    /** Starts the readback of the in-flight frame: map its result buffer and
        park the frame in the pending map under the request id. */
    method QueryValue()
      requires Valid() && inflightQuery.Some?
      modifies this`inflightQuery, this`pendingQueries, this`nextFutureId, this`effects
      ensures Valid() && inflightQuery.None?
      ensures QueryState() == QueryPool.QueryValue(old(QueryState()))
      ensures effects == old(effects)
                         + [MapRequested(old(inflightQuery).value.serial, 0, QueryPool.ResultBufferSize, old(nextFutureId))]
    {
      QueryPool.QueryValueMovesInflight(QueryState());
      var frame := inflightQuery.value;
      if frame.resultMapState == QueryPool.Unmapped {
        var future := nextFutureId;
        nextFutureId := nextFutureId + 1;
        effects := effects + [MapRequested(frame.serial, 0, QueryPool.ResultBufferSize, future)];
        pendingQueries := pendingQueries[future := frame.(resultMapState := QueryPool.MapPending,
                                                          completionId := Some(future))];
        inflightQuery := None;
      }
    }

    /** The map completion for request `id`. */
    method MapCompleted(id: QueryPool.FutureId, success: bool)
      requires Valid()
      modifies this`availableQueries, this`pendingQueries, this`effects
      ensures Valid()
      ensures QueryState() == QueryPool.Complete(old(QueryState()), id, success)
      ensures effects == old(effects) + [
        if !success then Warning("Failed to call MapAsync for query ")
        else if id in old(pendingQueries) then TimingReported(old(pendingQueries)[id].passLabel)
        else RuntimeError("Failed to find pending query")]
    {
      QueryPool.CompletePreserves(QueryState(), id, success);
      if !success {
        effects := effects + [Warning("Failed to call MapAsync for query ")];
        pendingQueries := pendingQueries - {id};
        return;
      }
      if id in pendingQueries {
        var frame := pendingQueries[id];
        effects := effects + [TimingReported(frame.passLabel)];
        availableQueries := availableQueries + [frame.(resultMapState := QueryPool.Unmapped)];
        pendingQueries := pendingQueries - {id};
      } else {
        effects := effects + [RuntimeError("Failed to find pending query")];
      }
    }
  }
}
