/** The WebGPU buffer HgiWebGPUBuffer: the native buffer it creates from its
    descriptor, the initial upload, and the CPU staging memory it allocates on
    first request. */
module WebGPUBuffer {
  import opened Wrappers

  /** A WebGPU buffer-usage mask. */
  type Usage = bv64

  const CopySrc: Usage := 0x4
  const CopyDst: Usage := 0x8

  /** Address of caller memory holding the initial contents. */
  type HostPointer = nat

  datatype BufferDesc = BufferDesc(
    debugName: string,
    usage: bv32,
    byteSize: nat,
    initialData: Option<HostPointer>)

  /** The descriptor the native buffer is created from; it stands for the buffer. */
  datatype NativeBufferDesc = NativeBufferDesc(debugLabel: string, usage: Usage, size: nat)

  datatype BufferEvent =
    | CodingError(message: string)
    | WriteBuffer(offset: nat, data: HostPointer, size: nat)
    | Freed(block: array<bv8>)

  /** The native usage: the converted Hgi usage with both copy bits added. */
  function NativeUsage(converted: Usage): (u: Usage)
    ensures u & CopySrc == CopySrc && u & CopyDst == CopyDst
    ensures u & converted == converted
  {
    converted | CopySrc | CopyDst
  }

  /** A usage that already allows both copies is left as it is. */
  lemma NativeUsageKeepsCopyUsage(converted: Usage)
    requires converted & (CopySrc | CopyDst) == CopySrc | CopyDst
    ensures NativeUsage(converted) == converted
  {
  }

  /** No bit outside the converted usage and the two copy bits is set. */
  lemma NativeUsageAddsOnlyCopyBits(converted: Usage)
    ensures NativeUsage(converted) & !(converted | CopySrc | CopyDst) == 0
  {
  }

  /** Adding the copy bits twice adds nothing. */
  lemma NativeUsageIdempotent(converted: Usage)
    ensures NativeUsage(NativeUsage(converted)) == NativeUsage(converted)
  {
  }

  /** The native descriptor: the debug name as label, the forced usage, and the
      descriptor's byte size. */
  function NativeDescriptor(desc: BufferDesc, converted: Usage): (nd: NativeBufferDesc)
    ensures nd.size == desc.byteSize && nd.debugLabel == desc.debugName
    ensures nd.usage == NativeUsage(converted)
    ensures nd.usage & (CopySrc | CopyDst) == CopySrc | CopyDst
  {
    NativeBufferDesc(desc.debugName, NativeUsage(converted), desc.byteSize)
  }

  class HgiWebGPUBuffer {
    var descriptor: BufferDesc
    var bufferHandle: Option<NativeBufferDesc>
    var cpuStaging: array?<bv8>
    /** Coding errors, queue writes and frees, in order. */
    var events: seq<BufferEvent>

    ghost predicate Valid()
      reads this
    {
      descriptor.initialData.None?
      && (bufferHandle.Some? ==> bufferHandle.value.size == descriptor.byteSize)
      && (cpuStaging != null ==> cpuStaging.Length == descriptor.byteSize)
    }

    /** `convertedUsage` is the Hgi usage converted to WebGPU bits. */
    constructor (desc: BufferDesc, convertedUsage: Usage)
      ensures Valid()
      ensures descriptor == desc.(initialData := None)
      ensures bufferHandle == Some(NativeDescriptor(desc, convertedUsage))
      ensures cpuStaging == null
      ensures events
           == (if desc.byteSize == 0 then [CodingError("Buffers must have a non-zero length")] else [])
              + (if desc.initialData.Some? then [WriteBuffer(0, desc.initialData.value, desc.byteSize)] else [])
    {
      descriptor := desc;
      bufferHandle := None;
      cpuStaging := null;
      events := [];
      new;
      if desc.byteSize == 0 {
        events := events + [CodingError("Buffers must have a non-zero length")];
      }
      var usage := convertedUsage;
      usage := usage | CopySrc | CopyDst;
      bufferHandle := Some(NativeBufferDesc(desc.debugName, usage, desc.byteSize));
      if desc.initialData.Some? {
        events := events + [WriteBuffer(0, desc.initialData.value, desc.byteSize)];
      }
      descriptor := descriptor.(initialData := None);
    }

    /** The destructor: drop the native buffer and free the staging memory if
        it was ever allocated. */
    method Destroy()
      modifies this
      ensures bufferHandle == None && cpuStaging == null
      ensures descriptor == old(descriptor)
      ensures events == old(events) + if old(cpuStaging) != null then [Freed(old(cpuStaging))] else []
    {
      bufferHandle := None;
      if cpuStaging != null {
        events := events + [Freed(cpuStaging)];
        cpuStaging := null;
      }
    }

    /** The descriptor's byte size, which is also the native buffer's size. */
    function GetByteSizeOfResource(): (n: nat)
      reads this
      requires Valid()
      ensures n == descriptor.byteSize
      ensures bufferHandle.Some? ==> n == bufferHandle.value.size
    {
      descriptor.byteSize
    }

    /** Staging memory of byteSize bytes, allocated by the first call only. */
    method GetCPUStagingAddress() returns (staging: array<bv8>)
      requires Valid()
      modifies this`cpuStaging
      ensures Valid() && cpuStaging == staging
      ensures old(cpuStaging) != null ==> staging == old(cpuStaging)
      ensures old(cpuStaging) == null ==> fresh(staging) && staging.Length == descriptor.byteSize
    {
      if cpuStaging == null {
        cpuStaging := new bv8[descriptor.byteSize];
      }
      staging := cpuStaging;
    }
  }
}
