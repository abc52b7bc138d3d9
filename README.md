# WebGPU HGI bookkeeping and GL shader-section text, in Dafny

This project models three parts of OpenUSD's Hydra Graphics Interface (HGI):

- **The WebGPU device `HgiWebGPU`** (`hgi_webgpu.dfy`, `query_pool.dfy`). It tracks:
  - the list of command buffers waiting for a queue submission;
  - the "current" compute or blit recorder;
  - the deferred-destruction queue of garbage-collection handlers, gated by the `workToFlush` flag;
  - the timestamp query-frame pool. The pool has one in-flight slot, a stack of available frames, and a map of frames waiting for their result buffer to be mapped, keyed by the map request's id.

  The device is a class whose fields are the source's members. Native WebGPU objects are opaque ids. Calls into the native API are entries in an ordered `effects` log. The asynchronous map-completion callback is the explicit method `MapCompleted(id, success)`. The query-pool transitions are also written as pure functions over a `Pool` value (module `QueryPool`). Each device method is proved to move its fields exactly as the matching function does. The lemmas about those functions prove two things: the pool invariant holds, and no frame is ever in two places.
- **The shader-section declaration writer** (`shader_section.dfy`). `HgiShaderSection` and `HgiBaseGLShaderSection` write GLSL declarations and parameters, using the `layout(...)` qualifier syntax of section 4.4 of the OpenGL Shading Language 4.50 specification. The written text is modelled as pure string functions. The GL declaration writer, which appends to a stream step by step and loops over the layout attributes with a separator, is a method proved equal to those functions. The virtual `WriteType` writes nothing in the base class. Wherever a derived class would supply a type, the type text is the parameter `typeText`.
- **The WebGPU buffer `HgiWebGPUBuffer`** (`buffer.dfy`). This covers:
  - descriptor validation;
  - the copy-usage bits that are always added;
  - the upload of the initial data, and clearing of the stored pointer;
  - the lazy, one-time allocation of CPU staging memory, and its release.

`wrappers.dfy` holds the `Option` type used for nullable handles and pointers.

### Behaviour of the code worth noting

- `_SubmitCmds` drains the garbage-collection queue whenever the base-class submit returns true, whatever the wait mode (pxr/imaging/hgiWebGPU/hgi.cpp:548-551).
- Among the `Destroy*` calls in pxr/imaging/hgiWebGPU/hgi.cpp, only `DestroyTextureView` reads `_workToFlush` (hgi.cpp:254), to choose between queueing a deferred delete and trashing at once.
- `CreateTextureView` reports a coding error for a null source texture and then creates the view anyway (pxr/imaging/hgiWebGPU/hgi.cpp:240-248).

## Model

| member | source | states |
|---|---|---|
| `HgiWebGPUDevice.HgiWebGPU.constructor` | pxr/imaging/hgiWebGPU/hgi.cpp:166-178 | starts with no pending buffers, no handlers, no current recorder, `workToFlush` false and an empty, valid query pool |
| `HgiWebGPUDevice.HgiWebGPU.Destroy` | pxr/imaging/hgiWebGPU/hgi.cpp:180-183 | the destructor always runs every queued handler once, in order, and leaves the queue empty |
| `HgiWebGPUDevice.HgiWebGPU.CreateComputeCmds` | pxr/imaging/hgiWebGPU/hgi.cpp:205-213 | returns a new compute recorder; it becomes current only when no recorder is current, otherwise the current one is kept |
| `HgiWebGPUDevice.HgiWebGPU.CreateBlitCmds` | pxr/imaging/hgiWebGPU/hgi.cpp:215-223 | the same slot rule for a new blit recorder |
| `HgiWebGPUDevice.HgiWebGPU.SubmitCmds` | pxr/imaging/hgiWebGPU/hgi.cpp:542-558 | with null cmds nothing changes and the old flag is returned; otherwise the flag becomes the base submit result, the queue is drained exactly when it is true, the current slot is cleared iff cmds was current, and the new flag is returned |
| `HgiWebGPUDevice.HgiWebGPU.EnqueueCommandBuffer` | pxr/imaging/hgiWebGPU/hgi.cpp:393-399 | a non-null buffer is appended at the end of the pending list; a null one leaves it unchanged |
| `HgiWebGPUDevice.HgiWebGPU.QueueSubmit` | pxr/imaging/hgiWebGPU/hgi.cpp:518-526 | a non-empty list is submitted as one batch in list order and emptied; an empty list submits nothing, so a second call in a row submits nothing |
| `HgiWebGPUDevice.Ran` | pxr/imaging/hgiWebGPU/hgi.cpp:536-537 | running a handler sequence yields one run per handler, in the same order |
| `HgiWebGPUDevice.HgiWebGPU.PerformGarbageCollection` | pxr/imaging/hgiWebGPU/hgi.cpp:534-540 | every queued handler runs exactly once, in insertion order, then the queue is empty |
| `HgiWebGPUDevice.HgiWebGPU.CreateTextureView` | pxr/imaging/hgiWebGPU/hgi.cpp:237-249 | a missing source texture adds exactly one coding error and creation continues; the view owns a new texture, and both get fresh unique ids |
| `HgiWebGPUDevice.HgiWebGPU.DestroyTextureView` | pxr/imaging/hgiWebGPU/hgi.cpp:251-264 | with `workToFlush` exactly one deferred delete of the view's texture is queued; otherwise the texture is trashed at once and the queue is unchanged; either way the view is deleted and the caller's handle is null |
| `HgiWebGPUDevice.HgiWebGPU.CreateQueryObjects` | pxr/imaging/hgiWebGPU/hgi.cpp:442-471 | a new frame numbered by the frame counter, which goes up by one |
| `HgiWebGPUDevice.HgiWebGPU.ProcessNextInflightQuery` | pxr/imaging/hgiWebGPU/hgi.cpp:493-504 | the pool moves as `QueryPool.ProcessNextInflight` says and stays valid; afterwards a frame is in flight |
| `HgiWebGPUDevice.HgiWebGPU.GetRenderTimestampWrites` | pxr/imaging/hgiWebGPU/hgi.cpp:506-515 | after making sure a frame is in flight, the pass writes timestamps 0 and 1 into that frame's query set |
| `HgiWebGPUDevice.HgiWebGPU.ResolveQuery` | pxr/imaging/hgiWebGPU/hgi.cpp:473-490 | appends the resolve command, and the copy into the result buffer when that buffer is unmapped, to the caller's encoder; records the label |
| `HgiWebGPUDevice.HgiWebGPU.QueryValue` | pxr/imaging/hgiWebGPU/hgi.cpp:401-440 | requests a map of the whole result buffer under a new id, parks the in-flight frame in the pending map under that id and clears the slot; the pool stays valid |
| `HgiWebGPUDevice.HgiWebGPU.MapCompleted` | pxr/imaging/hgiWebGPU/hgi.cpp:411-434 | the completion callback: failure warns and erases the key; success with the key present reports the timing and returns the frame to the stack; a missing key is a runtime error with no state change |
| `QueryPool.CreateQueryObjects` | pxr/imaging/hgiWebGPU/hgi.cpp:442-471 | a created frame carries the counter value and an unmapped result buffer |
| `QueryPool.ProcessNextInflight` | pxr/imaging/hgiWebGPU/hgi.cpp:493-504 | an existing in-flight frame is kept; afterwards a frame is in flight; the frame counter grows only when nothing was in flight and the stack was empty |
| `QueryPool.ProcessNextInflightPreserves` | pxr/imaging/hgiWebGPU/hgi.cpp:496-503 | keeps the pool valid; takes the last available frame off the stack, or adds exactly one fresh frame when the stack is empty; no frame is lost |
| `QueryPool.ResolveQuery` | pxr/imaging/hgiWebGPU/hgi.cpp:489 | only the in-flight frame's label changes: its serial, map state and completion id, the stack, the pending map and both counters are kept |
| `QueryPool.ResolveCommands` | pxr/imaging/hgiWebGPU/hgi.cpp:475-488 | at most two commands: the resolve of both timestamps into offset 0 first, then, iff the result buffer is unmapped, the copy of the whole `ResultBufferSize` bytes from offset 0 to offset 0 |
| `QueryPool.ResolveQueryPreserves` | pxr/imaging/hgiWebGPU/hgi.cpp:482-488 | in a valid pool the in-flight result buffer is unmapped, so the copy is always recorded; validity and the frame set are kept |
| `QueryPool.QueryValue` | pxr/imaging/hgiWebGPU/hgi.cpp:404-439 | leaves the available stack and the frame counter alone |
| `QueryPool.QueryValueMovesInflight` | pxr/imaging/hgiWebGPU/hgi.cpp:404-438 | in a valid pool the in-flight frame always moves: the slot empties, the frame waits under a key not used before, other pending entries are untouched, validity and the frame set are kept |
| `QueryPool.Complete` | pxr/imaging/hgiWebGPU/hgi.cpp:411-434 | the in-flight slot is untouched, the key is gone afterwards, and a key that was not pending leaves the pool unchanged |
| `QueryPool.CompletePreserves` | pxr/imaging/hgiWebGPU/hgi.cpp:413-433 | keeps the pool valid, so no frame is ever in two of in-flight, available and pending; the key is erased and every other pending entry kept; success with the key present pushes the waiting frame, unmapped and with its label, on top of an otherwise unchanged stack; failure leaves the stack alone and drops exactly the frame that waited on the key |
| `QueryPool.ReadbackRoundTrip` | pxr/imaging/hgiWebGPU/hgi.cpp:404-439 | take a reused frame in flight, resolve, read back and complete successfully: the stack holds the same frames in the same order with the labelled frame on top, nothing stays pending, no frame is created and the pool stays valid |
| `QueryPool.ReadbackShape` | pxr/imaging/hgiWebGPU/hgi.cpp:404-439 | the same cycle for any pool whose top frame is unmapped and whose next request id is unused: same stack order, labelled frame on top, pending map and frame counter unchanged |
| `ShaderSection.NewSection` | pxr/imaging/hgi/shaderSection.cpp:12-24 | identifier, attributes, default value, array size and block-instance identifier are stored unchanged, and the getters and writers give them back verbatim |
| `ShaderSection.NewGLSection` | pxr/imaging/hgi/shaderSection.cpp:83-95 | the same for the GL section, plus its storage qualifier; its own copy of the array size equals the base copy |
| `ShaderSection.GetAttributes` | pxr/imaging/hgi/shaderSection.cpp:71-75 | the attributes the section was built with, unchanged |
| `ShaderSection.GetDefaultValue` | pxr/imaging/hgi/shaderSection.cpp:77-81 | the default value the section was built with, unchanged |
| `ShaderSection.WriteIdentifier` | pxr/imaging/hgi/shaderSection.cpp:33-37 | writes the identifier verbatim |
| `ShaderSection.WriteBlockInstanceIdentifier` | pxr/imaging/hgi/shaderSection.cpp:39-43 | writes the block instance identifier verbatim |
| `ShaderSection.WriteType` | pxr/imaging/hgi/shaderSection.cpp:28-31 | the base section writes no type text |
| `ShaderSection.GettersRecoverSection` | pxr/imaging/hgi/shaderSection.cpp:12-81 | the getters and writers report everything a section holds: building a section from their results gives back the same section |
| `ShaderSection.WriteArraySize` | pxr/imaging/hgi/shaderSection.cpp:63-69 | writes nothing iff the array size is empty, else text between `[` and `]` |
| `ShaderSection.ArraySizeRoundTrip` | pxr/imaging/hgi/shaderSection.cpp:63-69 | the array size can be read back from the written text |
| `ShaderSection.ArraySizeInjective` | pxr/imaging/hgi/shaderSection.cpp:66-68 | different array sizes never write the same text |
| `ShaderSection.WriteParameter` | pxr/imaging/hgi/shaderSection.cpp:55-61 | the type text, one space, then the identifier, with no terminator |
| `ShaderSection.WriteDeclaration` | pxr/imaging/hgi/shaderSection.cpp:45-53 | the base declaration is the base parameter followed by the array-size text and `;` |
| `ShaderSection.DeclarationExtendsParameter` | pxr/imaging/hgi/shaderSection.cpp:45-61 | a declaration starts with the parameter text and ends with `;`, and the array size can be read back from the text between them |
| `ShaderSection.BaseDeclarationShape` | pxr/imaging/hgi/shaderSection.cpp:28-61 | with the base class's empty type the declaration is a space, the identifier, the array size and `;`, and the parameter is a space and the identifier |
| `ShaderSection.RenderAttribute` | pxr/imaging/hgi/shaderSection.cpp:113-117 | an entry is its identifier, followed by ` = index` exactly when the index is non-empty |
| `ShaderSection.JoinAttributes` | pxr/imaging/hgi/shaderSection.cpp:108-118 | no attributes join to nothing; n attributes carry at least the n-1 two-character separators |
| `ShaderSection.JoinAttributesAppend` | pxr/imaging/hgi/shaderSection.cpp:108-118 | entries stay in input order, with exactly one `, ` between neighbours |
| `ShaderSection.LayoutText` | pxr/imaging/hgi/shaderSection.cpp:106-120 | no layout text iff there are no attributes |
| `ShaderSection.QualifierText` | pxr/imaging/hgi/shaderSection.cpp:121-123 | nothing for an empty storage qualifier, otherwise exactly the qualifier followed by one space |
| `ShaderSection.GLDeclaration` | pxr/imaging/hgi/shaderSection.cpp:99-129 | the GL declaration is layout text, qualifier text, the base declaration and a newline; with neither attributes nor qualifier it is the base declaration and a newline |
| `ShaderSection.GLDeclarationFrame` | pxr/imaging/hgi/shaderSection.cpp:104-128 | with attributes the declaration starts with `layout(`, the joined entries and `) `; it always ends with `;` and a newline |
| `ShaderSection.GLWriteParameter` | pxr/imaging/hgi/shaderSection.cpp:131-138 | the GL parameter is the base parameter followed by `;` |
| `ShaderSection.Visit` | pxr/imaging/hgi/shaderSection.cpp:140-167 | every GL global hook returns false and writes nothing |
| `ShaderSection.GLWriteDeclaration` | pxr/imaging/hgi/shaderSection.cpp:99-129 | the stream-writing declaration leaves exactly the stream followed by the GL declaration text |
| `ShaderSection.WriteLayout` | pxr/imaging/hgi/shaderSection.cpp:104-120 | the separator-flag loop writes exactly the layout text |
| `ShaderSection.WriteAttribute` | pxr/imaging/hgi/shaderSection.cpp:113-117 | writes one entry's identifier and optional ` = index` onto the stream |
| `WebGPUBuffer.NativeUsage` | pxr/imaging/hgiWebGPU/buffer.cpp:45-49 | both copy bits are always set and every converted bit is kept |
| `WebGPUBuffer.NativeUsageAddsOnlyCopyBits` | pxr/imaging/hgiWebGPU/buffer.cpp:45-49 | no bit outside the converted usage and the two copy bits is set, so with `NativeUsage` the mask is exactly the converted usage plus both copy bits |
| `WebGPUBuffer.NativeUsageIdempotent` | pxr/imaging/hgiWebGPU/buffer.cpp:45-49 | adding the copy bits again changes nothing |
| `WebGPUBuffer.NativeUsageKeepsCopyUsage` | pxr/imaging/hgiWebGPU/buffer.cpp:45-49 | a usage that already allows both copies is passed through unchanged |
| `WebGPUBuffer.NativeDescriptor` | pxr/imaging/hgiWebGPU/buffer.cpp:43-53 | the native buffer has the debug name as label, the descriptor's byte size, and the native usage: the converted bits plus both copy bits |
| `WebGPUBuffer.HgiWebGPUBuffer.constructor` | pxr/imaging/hgiWebGPU/buffer.cpp:35-61 | a zero byte size adds a coding error and construction goes on; the native buffer is made from the native descriptor; the initial data is written once, at offset 0 with length byteSize, iff it is non-null; the stored descriptor's initial data is null |
| `WebGPUBuffer.HgiWebGPUBuffer.GetByteSizeOfResource` | pxr/imaging/hgiWebGPU/buffer.cpp:73-77 | the descriptor's byte size, which is also the native buffer's size |
| `WebGPUBuffer.HgiWebGPUBuffer.GetCPUStagingAddress` | pxr/imaging/hgiWebGPU/buffer.cpp:85-96 | the first call allocates byteSize bytes; every later call returns the same memory |
| `WebGPUBuffer.HgiWebGPUBuffer.Destroy` | pxr/imaging/hgiWebGPU/buffer.cpp:63-71 | the destructor drops the native buffer, frees the staging memory iff it was allocated, and nulls the pointer |

## Left out

- Device creation, adapter and limit selection, the uncaptured-error printer and event pumping in `EndFrame` (pxr/imaging/hgiWebGPU/hgi.cpp:79-163, 380-385). These are native-API setup and logging.
- The resource factories and `Destroy*` calls other than texture views. They forward to the resource constructors or to `_TrashObject`. Mipmap generation and depth resolve forward to helpers that are not part of this model.
- `_TrashObject`, `Hgi::_SubmitCmds`, `Hgi::GetUniqueId` and `HgiWebGPUConversions::GetBufferUsage` are not part of this model:
  - A trash is recorded as a `Trashed` effect.
  - The base submit result is the parameter `baseSubmitted`. Whatever the base class does to the pending list during that submit is not modelled.
  - Unique ids come from a counter field. Its first value is not modelled.
  - The converted usage is the constructor parameter `convertedUsage`.
- Native encoder and queue calls (`ResolveQuerySet`, `CopyBufferToBuffer`, `MapAsync`, `Submit`, `WriteBuffer`) are recorded as opaque entries. Their effect on GPU memory is not modelled.
- Map request ids come from a counter field that stands for the native instance's increasing future ids.
- The copy of the two timestamps out of the mapped buffer and their conversion to milliseconds are not modelled. They only feed a status message, which the model records as `TimingReported` with the pass label.
- `HgiWebGPUDevice.HgiWebGPU.QueryValue` and `ResolveQuery` require a frame in flight. The source dereferences the in-flight slot without a check.
- `HgiWebGPUDevice.HgiWebGPU.DestroyTextureView` requires a handle that holds a view. The source dereferences `*viewHandle` without a check (pxr/imaging/hgiWebGPU/hgi.cpp:253).
- The native map state is kept only as a per-frame `Unmapped`/`MapPending` flag. The intermediate "mapped" state between a successful completion and the `Unmap` in the same callback is not represented.
- The query methods are compiled only in builds for native Dawn, not for Emscripten. The model does not distinguish the two builds.
- `WebGPUBuffer.HgiWebGPUBuffer.GetCPUStagingAddress`: allocation always succeeds. A `malloc` that returns null (on failure, or for zero bytes), and so would make the next call allocate again, is not captured.
- The buffer header that declares `_cpuStaging` is not part of this model. The staging pointer is taken to start out null.
- `GetRawResource`, which exposes the native handle as an integer, is not modelled.
- Single-threaded use is assumed, as the device requires. Deletion of the `Cmds` objects by their owners is not modelled.
