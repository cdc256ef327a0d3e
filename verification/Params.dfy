/** Compile-time constants of the driver and the three rules that place a page:
    which clean FIFO, which dirty FIFO and which per-CPU shard it belongs to. */
module Params {
  const NUM_QUEUES: nat := 32
  const EVICTOR_THREADS: nat := 8
  const MAX_RMAPS_PER_PAGE: nat := 3
  const ETLB_ENTRIES: nat := 16
  const MAX_CPUS: nat := 64
  const BIO_MAX_PAGES: nat := 256
  const MAX_BATCH: nat := 512
  const PURGE_TARGET: nat := 192

  datatype Option<+T> = None | Some(value: T)

  function Min(a: nat, b: nat): nat { if a < b then a else b }

  /** Clean FIFO of a page with this index. */
  function CleanQueue(index: nat): (q: nat)
    ensures q < NUM_QUEUES
  {
    index % NUM_QUEUES
  }

  /** Dirty FIFO of a page with this index: 512 neighbouring pages share one. */
  function DirtyQueue(index: nat): (e: nat)
    ensures e < EVICTOR_THREADS
  {
    (index / 512) % EVICTOR_THREADS
  }

  /** Per-CPU shard of the radix index and of the dirty trees. */
  function Shard(offset: nat, ncpus: nat): (c: nat)
    requires 0 < ncpus
    ensures c < ncpus
  {
    offset % ncpus
  }
}
