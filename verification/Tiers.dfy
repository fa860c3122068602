/** Storage tiers and the places where a KV object can be (src/cache/tier.rs, src/cache/object.rs). */
module Tiers {
  import opened Numbers

  datatype TierKind = GpuTier | CpuTier | LocalSsdTier | RemoteMemoryTier | RemoteSsdTier

  datatype Location =
    | InGpu(node: u32, gpuId: u32)
    | InCpu(node: u32)
    | InLocalSsd(node: u32)
    | InRemoteMemory(node: u32)
    | InRemoteSsd(node: u32)
    | Missing

  /** Capacity is accounted per node and tier. */
  type Slot = (u32, TierKind)

  function SlotOf(l: Location): Option<Slot> {
    match l
    case InGpu(n, _) => Some((n, GpuTier))
    case InCpu(n) => Some((n, CpuTier))
    case InLocalSsd(n) => Some((n, LocalSsdTier))
    case InRemoteMemory(n) => Some((n, RemoteMemoryTier))
    case InRemoteSsd(n) => Some((n, RemoteSsdTier))
    case Missing => None
  }
}
