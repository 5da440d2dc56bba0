/**
 * The process pool scanner: the signature checks plus the structural tests that
 * `PoolScanProcess.scan` applies to every `_EPROCESS` body found in an accepted block.
 */
module Processes {
  import opened Pool
  import opened Signatures
  import opened Sequences
  import opened Hits

  /** The `_EPROCESS` fields the scanners read, already resolved from the process body. */
  datatype EProcess = EProcess(
    offset: nat,       // offset of the body in the scanned address space
    dtb: nat,          // Pcb.DirectoryTableBase
    flink: nat,        // ActiveProcessLinks.Flink
    blink: nat,        // ActiveProcessLinks.Blink
    pid: nat,          // UniqueProcessId
    ppid: nat)         // InheritedFromUniqueProcessId

  /** Kernel addresses lie at or above this value when the profile gives no `MmSystemRangeStart`. */
  const DefaultKernelBoundary: nat := 0x8000_0000

  type Alignment = a: nat | a > 0 witness 1

  /** The settings a process scanner fixes once, when it is constructed. */
  datatype ScanConfig = ScanConfig(kernel: nat, alignment: Alignment)

  /** `MmSystemRangeStart`, or the default boundary when that reads as zero. */
  function KernelBoundary(systemRangeStart: nat): (k: nat)
    ensures k > 0
    ensures systemRangeStart != 0 ==> k == systemRangeStart
    ensures systemRangeStart == 0 ==> k == DefaultKernelBoundary
  {
    if systemRangeStart != 0 then systemRangeStart else DefaultKernelBoundary
  }

  /** Directory table bases are page aligned, except under PAE where they are 32-byte aligned. */
  function DtbAlignment(pae: bool): Alignment
  {
    if pae then 0x20 else 0x1000
  }

  /** The scanner's settings, from the `MmSystemRangeStart` value and the kernel address space's PAE flag. */
  function Configure(systemRangeStart: nat, pae: bool): ScanConfig
  {
    ScanConfig(KernelBoundary(systemRangeStart), DtbAlignment(pae))
  }

  /** The tests a process body must pass after its block passed the signature checks. */
  predicate Plausible(cfg: ScanConfig, e: EProcess)
  {
    && e.dtb != 0
    && e.dtb % cfg.alignment == 0
    && e.flink >= cfg.kernel
    && e.blink >= cfg.kernel
  }

  /**
   * `PoolScanProcess.scan`: exactly the process bodies of blocks the process signature accepts
   * whose DTB is non-zero and aligned and whose list links both point into kernel space,
   * yielded in scan order (ascending block offset when the blocks arrive that way).
   */
  function ScanProcesses(p: Profile, cfg: ScanConfig, hits: seq<PoolHit<EProcess>>): (r: seq<Found<EProcess>>)
    ensures forall f :: f in r <==>
      && Accepts(Signature(p, Process), f.pool)
      && FoundIn(f, hits)
      && f.obj.dtb != 0
      && f.obj.dtb % cfg.alignment == 0
      && f.obj.flink >= cfg.kernel
      && f.obj.blink >= cfg.kernel
    ensures forall i :: 0 <= i < |r| ==> Plausible(cfg, r[i].obj)
    ensures IsSubsequence(r, Pairs(hits))
    ensures NondecreasingBy(HeaderOffset<EProcess>, hits) ==> NondecreasingBy(PoolOffset<EProcess>, r)
  {
    ScanKind(Signature(p, Process), (e: EProcess) => Plausible(cfg, e), hits)
  }

  /**
   * A zero DTB is aligned under either mode, so the explicit zero test is what rejects it.
   */
  lemma ZeroDtbOnlyRejectedByZeroTest(cfg: ScanConfig, e: EProcess)
    requires e.dtb == 0
    ensures e.dtb % cfg.alignment == 0
    ensures !Plausible(cfg, e)
  {
  }

  /**
   * PAE mode is strictly more permissive: a page-aligned DTB is also 32-byte aligned, and
   * a DTB of 0x20 passes under PAE but not without it.
   */
  lemma PaeAlignmentIsWeaker(systemRangeStart: nat, e: EProcess)
    ensures Configure(systemRangeStart, true).alignment == 0x20
    ensures Configure(systemRangeStart, false).alignment == 0x1000
    ensures Plausible(Configure(systemRangeStart, false), e) ==> Plausible(Configure(systemRangeStart, true), e)
    ensures e.dtb == 0x20 && e.flink >= KernelBoundary(systemRangeStart) && e.blink >= KernelBoundary(systemRangeStart)
      ==> Plausible(Configure(systemRangeStart, true), e) && !Plausible(Configure(systemRangeStart, false), e)
  {
    if e.dtb % 0x1000 == 0 {
      var q := e.dtb / 0x1000;
      assert e.dtb == 0x20 * (0x80 * q);
    }
  }

  /** The boundary is never zero, so a null list link always rejects the body. */
  lemma NullLinkRejected(systemRangeStart: nat, pae: bool, e: EProcess)
    requires e.flink == 0 || e.blink == 0
    ensures !Plausible(Configure(systemRangeStart, pae), e)
  {
  }

  /**
   * Without `MmSystemRangeStart` the boundary is 0x80000000 and the comparison is inclusive:
   * links at 0x80000000 pass, links one below it fail.
   */
  lemma DefaultBoundaryIsInclusive(pae: bool, e: EProcess)
    requires e.dtb != 0 && e.dtb % DtbAlignment(pae) == 0
    ensures e.flink == 0x8000_0000 && e.blink == 0x8000_0000 ==> Plausible(Configure(0, pae), e)
    ensures e.flink == 0x7FFF_FFFF || e.blink == 0x7FFF_FFFF ==> !Plausible(Configure(0, pae), e)
  {
  }
}
