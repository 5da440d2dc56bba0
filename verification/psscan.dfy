/**
 * `PSScan.collect`: scan every memory run for processes and cross-reference each one against
 * a snapshot of the process list, flagging whether its address ("E") and its pid ("P") are known.
 * A process the scan finds but the list walk does not is the sign of an unlinked process.
 */
module PsScan {
  import opened Wrappers
  import opened Pool
  import opened Signatures
  import opened Hits
  import opened Processes

  /** A process reported by the list walker: its virtual `_EPROCESS` address and its pid. */
  datatype Task = Task(offset: nat, pid: nat)

  /** Whether a memory run is read through the physical address space or a virtual one. */
  datatype SpaceKind = PhysicalAS | VirtualAS

  /** One memory run: its address-space kind and the pool hits the generic scanner located in it. */
  datatype Run = Run(kind: SpaceKind, hits: seq<PoolHit<EProcess>>)

  /** One output row: free marker, the process, its virtual offset, parent pid, DTB and status flags. */
  datatype Row = Row(
    marker: string, process: EProcess, virtualOffset: Option<nat>, ppid: nat, pdb: nat, status: string)

  predicate ListedAt(tasks: seq<Task>, a: nat)
  {
    exists i :: 0 <= i < |tasks| && tasks[i].offset == a
  }

  predicate ListedPid(tasks: seq<Task>, pid: nat)
  {
    exists i :: 0 <= i < |tasks| && tasks[i].pid == pid
  }

  /** The addresses the process list reports. */
  function ListedOffsets(tasks: seq<Task>): (s: set<nat>)
    ensures forall a :: a in s <==> ListedAt(tasks, a)
  {
    set i | 0 <= i < |tasks| :: tasks[i].offset
  }

  /** The pids the process list reports. */
  function ListedPids(tasks: seq<Task>): (s: set<nat>)
    ensures forall q :: q in s <==> ListedPid(tasks, q)
  {
    set i | 0 <= i < |tasks| :: tasks[i].pid
  }

  /** The snapshot of the process list, taken once before any run is scanned. */
  method KnownSets(tasks: seq<Task>) returns (offsets: set<nat>, pids: set<nat>)
    ensures forall a :: a in offsets <==> ListedAt(tasks, a)
    ensures forall q :: q in pids <==> ListedPid(tasks, q)
    ensures offsets == ListedOffsets(tasks) && pids == ListedPids(tasks)
  {
    offsets, pids := {}, {};
    var i := 0;
    while i < |tasks|
      invariant 0 <= i <= |tasks|
      invariant forall a :: a in offsets <==> exists j :: 0 <= j < i && tasks[j].offset == a
      invariant forall q :: q in pids <==> exists j :: 0 <= j < i && tasks[j].pid == q
    {
      offsets := offsets + {tasks[i].offset};
      pids := pids + {tasks[i].pid};
      i := i + 1;
    }
  }

  /**
   * The virtual address a scanned process is compared under. Only runs in the physical address
   * space are translated; `toVirtual` stands for the list walker's physical-to-virtual lookup,
   * and a physical offset it does not know has no virtual address.
   */
  function VirtualOffset(kind: SpaceKind, toVirtual: map<nat, nat>, e: EProcess): (v: Option<nat>)
    ensures kind == VirtualAS ==> v == Some(e.offset)
    ensures kind == PhysicalAS ==> (v.Some? <==> e.offset in toVirtual)
    ensures kind == PhysicalAS && v.Some? ==> v.value == toVirtual[e.offset]
  {
    match kind
    case VirtualAS => Some(e.offset)
    case PhysicalAS => if e.offset in toVirtual then Some(toVirtual[e.offset]) else None
  }

  /**
   * The status column: "E" when the virtual address is a listed process, "P" when the pid is a
   * listed pid, each decided on its own, "E" first when both are present.
   */
  function Status(v: Option<nat>, pid: nat, offsets: set<nat>, pids: set<nat>): (s: string)
    ensures 'E' in s <==> v.Some? && v.value in offsets
    ensures 'P' in s <==> pid in pids
    ensures forall i :: 0 <= i < |s| ==> s[i] == 'E' || s[i] == 'P'
    ensures |s| <= 2 && (|s| == 2 ==> s == "EP")
  {
    (if v.Some? && v.value in offsets then "E" else "") + (if pid in pids then "P" else "")
  }

  function RowOf(kind: SpaceKind, toVirtual: map<nat, nat>, offsets: set<nat>, pids: set<nat>,
                 f: Found<EProcess>): (r: Row)
    ensures r.process == f.obj && r.ppid == f.obj.ppid && r.pdb == f.obj.dtb
    ensures r.marker == FreeMarker(f.pool)
    ensures r.status == Status(r.virtualOffset, f.obj.pid, offsets, pids)
    ensures r.virtualOffset == VirtualOffset(kind, toVirtual, f.obj)
    ensures 'E' in r.status <==> r.virtualOffset.Some? && r.virtualOffset.value in offsets
    ensures 'P' in r.status <==> r.process.pid in pids
  {
    var v := VirtualOffset(kind, toVirtual, f.obj);
    Row(FreeMarker(f.pool), f.obj, v, f.obj.ppid, f.obj.dtb, Status(v, f.obj.pid, offsets, pids))
  }

  /** The flags a row must carry, and the structural tests its process passed. */
  predicate RowConsistent(cfg: ScanConfig, offsets: set<nat>, pids: set<nat>, r: Row)
  {
    && Plausible(cfg, r.process)
    && r.pdb == r.process.dtb
    && ('E' in r.status <==> r.virtualOffset.Some? && r.virtualOffset.value in offsets)
    && ('P' in r.status <==> r.process.pid in pids)
  }

  /** One row per scanned process, in the order the processes were found. */
  function RowsOf(kind: SpaceKind, toVirtual: map<nat, nat>, offsets: set<nat>, pids: set<nat>,
                  found: seq<Found<EProcess>>): (rows: seq<Row>)
    ensures |rows| == |found|
    ensures forall i :: 0 <= i < |rows| ==>
      && rows[i].process == found[i].obj
      && rows[i].ppid == found[i].obj.ppid
      && rows[i].pdb == found[i].obj.dtb
      && rows[i].marker == FreeMarker(found[i].pool)
      && (rows[i].marker == "F" <==> FreePool(found[i].pool))
      && rows[i].status == Status(rows[i].virtualOffset, found[i].obj.pid, offsets, pids)
      && rows[i].virtualOffset == VirtualOffset(kind, toVirtual, found[i].obj)
      && ('E' in rows[i].status <==> rows[i].virtualOffset.Some? && rows[i].virtualOffset.value in offsets)
      && ('P' in rows[i].status <==> found[i].obj.pid in pids)
  {
    seq(|found|, i requires 0 <= i < |found| => RowOf(kind, toVirtual, offsets, pids, found[i]))
  }

  /** The rows of one run: one per process the process scanner yields there, in the same order. */
  function RunRows(p: Profile, cfg: ScanConfig, toVirtual: map<nat, nat>, offsets: set<nat>, pids: set<nat>,
                   run: Run): (rows: seq<Row>)
    ensures forall r :: r in rows ==> RowConsistent(cfg, offsets, pids, r)
  {
    var found := ScanProcesses(p, cfg, run.hits);
    var rows := RowsOf(run.kind, toVirtual, offsets, pids, found);
    assert forall r :: r in rows ==> RowConsistent(cfg, offsets, pids, r) by {
      forall r | r in rows
        ensures RowConsistent(cfg, offsets, pids, r)
      {
        var i :| 0 <= i < |rows| && rows[i] == r;
        assert Plausible(cfg, found[i].obj);
      }
    }
    rows
  }

  /** The rows of all runs, run after run. */
  function AllRows(p: Profile, cfg: ScanConfig, toVirtual: map<nat, nat>, offsets: set<nat>, pids: set<nat>,
                   runs: seq<Run>): (rows: seq<Row>)
    ensures forall r :: r in rows ==> RowConsistent(cfg, offsets, pids, r)
  {
    if |runs| == 0 then []
    else
      var earlier := AllRows(p, cfg, toVirtual, offsets, pids, runs[..|runs| - 1]);
      var last := RunRows(p, cfg, toVirtual, offsets, pids, runs[|runs| - 1]);
      earlier + last
  }

  /** Some row reports process `e`. */
  predicate HasRowFor(rows: seq<Row>, e: EProcess)
  {
    exists r :: r in rows && r.process == e
  }

  /** Every process the process scanner yields in any run shows up as a row. */
  lemma {:induction false} AllRowsCover(p: Profile, cfg: ScanConfig, toVirtual: map<nat, nat>,
                                        offsets: set<nat>, pids: set<nat>, runs: seq<Run>, k: nat, f: Found<EProcess>)
    requires k < |runs| && f in ScanProcesses(p, cfg, runs[k].hits)
    ensures HasRowFor(AllRows(p, cfg, toVirtual, offsets, pids, runs), f.obj)
    decreases |runs|
  {
    var earlier := runs[..|runs| - 1];
    var last := RunRows(p, cfg, toVirtual, offsets, pids, runs[|runs| - 1]);
    assert AllRows(p, cfg, toVirtual, offsets, pids, runs) == AllRows(p, cfg, toVirtual, offsets, pids, earlier) + last;
    if k == |runs| - 1 {
      var found := ScanProcesses(p, cfg, runs[k].hits);
      var j :| 0 <= j < |found| && found[j] == f;
      assert last[j] in AllRows(p, cfg, toVirtual, offsets, pids, runs);
    } else {
      assert earlier[k] == runs[k];
      AllRowsCover(p, cfg, toVirtual, offsets, pids, earlier, k, f);
    }
  }

  lemma AllRowsExtend(p: Profile, cfg: ScanConfig, toVirtual: map<nat, nat>, offsets: set<nat>, pids: set<nat>,
                      runs: seq<Run>, i: nat)
    requires i < |runs|
    ensures AllRows(p, cfg, toVirtual, offsets, pids, runs[..i + 1])
         == AllRows(p, cfg, toVirtual, offsets, pids, runs[..i]) + RunRows(p, cfg, toVirtual, offsets, pids, runs[i])
  {
    assert runs[..i + 1][..i] == runs[..i];
  }

  /** Scans each run in turn and appends its rows: the outer loop of `PSScan.collect`. */
  method ScanRuns(p: Profile, cfg: ScanConfig, toVirtual: map<nat, nat>, offsets: set<nat>, pids: set<nat>,
                  runs: seq<Run>) returns (rows: seq<Row>)
    ensures rows == AllRows(p, cfg, toVirtual, offsets, pids, runs)
  {
    rows := [];
    var i := 0;
    while i < |runs|
      invariant 0 <= i <= |runs|
      invariant rows == AllRows(p, cfg, toVirtual, offsets, pids, runs[..i])
    {
      AllRowsExtend(p, cfg, toVirtual, offsets, pids, runs, i);
      rows := rows + RunRows(p, cfg, toVirtual, offsets, pids, runs[i]);
      i := i + 1;
    }
    assert runs[..|runs|] == runs;
  }

  /**
   * Row `r` reports a process the process scanner yields in run `k`, found in block `f.pool`:
   * it carries that process, its parent pid and DTB, the "F" marker exactly when the block is
   * freed, and the offset that run's address space gives it.
   */
  ghost predicate ReportsScanned(p: Profile, cfg: ScanConfig, toVirtual: map<nat, nat>, runs: seq<Run>, r: Row)
  {
    exists k, f :: 0 <= k < |runs| && YieldedIn(p, cfg, runs[k], f) && RowDescribes(runs[k].kind, toVirtual, f, r)
  }

  /** The process scanner yields `f` when it scans `run`. */
  predicate YieldedIn(p: Profile, cfg: ScanConfig, run: Run, f: Found<EProcess>)
  {
    f in ScanProcesses(p, cfg, run.hits)
  }

  predicate RowDescribes(kind: SpaceKind, toVirtual: map<nat, nat>, f: Found<EProcess>, r: Row)
  {
    && r.process == f.obj
    && r.ppid == f.obj.ppid
    && r.pdb == f.obj.dtb
    && (r.marker == "F" <==> FreePool(f.pool))
    && r.virtualOffset == VirtualOffset(kind, toVirtual, f.obj)
  }

  /** Every row of one run reports a process the scanner yields in that run: `f` is that process. */
  lemma RunRowSource(p: Profile, cfg: ScanConfig, toVirtual: map<nat, nat>, offsets: set<nat>, pids: set<nat>,
                     run: Run, r: Row) returns (f: Found<EProcess>)
    requires r in RunRows(p, cfg, toVirtual, offsets, pids, run)
    ensures YieldedIn(p, cfg, run, f) && RowDescribes(run.kind, toVirtual, f, r)
  {
    var found := ScanProcesses(p, cfg, run.hits);
    var rows := RowsOf(run.kind, toVirtual, offsets, pids, found);
    var i :| 0 <= i < |rows| && rows[i] == r;
    f := found[i];
    assert f in found;
  }

  /**
   * No row is made up: each one reports a process `f` that the scanner yields in run `k`, under
   * the offset that run gives it.
   */
  lemma {:induction false} AllRowsSource(p: Profile, cfg: ScanConfig, toVirtual: map<nat, nat>,
                                         offsets: set<nat>, pids: set<nat>, runs: seq<Run>, r: Row)
    returns (k: nat, f: Found<EProcess>)
    requires r in AllRows(p, cfg, toVirtual, offsets, pids, runs)
    ensures k < |runs| && YieldedIn(p, cfg, runs[k], f) && RowDescribes(runs[k].kind, toVirtual, f, r)
    decreases |runs|
  {
    var n := |runs| - 1;
    var last := RunRows(p, cfg, toVirtual, offsets, pids, runs[n]);
    assert AllRows(p, cfg, toVirtual, offsets, pids, runs) == AllRows(p, cfg, toVirtual, offsets, pids, runs[..n]) + last;
    if r in last {
      k := n;
      f := RunRowSource(p, cfg, toVirtual, offsets, pids, runs[n], r);
    } else {
      k, f := AllRowsSource(p, cfg, toVirtual, offsets, pids, runs[..n], r);
      assert runs[..n][k] == runs[k];
    }
  }

  /**
   * Rows built against the snapshot speak about the process list itself: the "E" flag says the
   * list reports the row's virtual address, the "P" flag that it reports the row's pid.
   */
  lemma RowsAgainstList(cfg: ScanConfig, tasks: seq<Task>, rows: seq<Row>)
    requires forall r :: r in rows ==> RowConsistent(cfg, ListedOffsets(tasks), ListedPids(tasks), r)
    ensures forall r :: r in rows ==>
      && Plausible(cfg, r.process)
      && ('E' in r.status <==> r.virtualOffset.Some? && ListedAt(tasks, r.virtualOffset.value))
      && ('P' in r.status <==> ListedPid(tasks, r.process.pid))
  {
  }

  /**
   * `PSScan.collect`: snapshot the process list once, then scan each run in turn against that one
   * snapshot. The rows are the rows of each run in run order; each row reports a process the
   * scanner yields in some run, under the offset that run's address space gives it; its "E" flag
   * is set exactly when the process list reports that virtual address, its "P" flag exactly when
   * the list reports its pid; and every process the scanner yields in any run has a row.
   */
  method Collect(p: Profile, systemRangeStart: nat, pae: bool, tasks: seq<Task>,
                 toVirtual: map<nat, nat>, runs: seq<Run>) returns (rows: seq<Row>)
    ensures rows == AllRows(p, Configure(systemRangeStart, pae), toVirtual, ListedOffsets(tasks), ListedPids(tasks), runs)
    ensures forall r :: r in rows ==>
      && ReportsScanned(p, Configure(systemRangeStart, pae), toVirtual, runs, r)
      && Plausible(Configure(systemRangeStart, pae), r.process)
      && ('E' in r.status <==> r.virtualOffset.Some? && ListedAt(tasks, r.virtualOffset.value))
      && ('P' in r.status <==> ListedPid(tasks, r.process.pid))
    ensures forall k, f :: 0 <= k < |runs| && f in ScanProcesses(p, Configure(systemRangeStart, pae), runs[k].hits) ==>
      HasRowFor(rows, f.obj)
  {
    var offsets, pids := KnownSets(tasks);
    var cfg := Configure(systemRangeStart, pae);
    rows := ScanRuns(p, cfg, toVirtual, offsets, pids, runs);
    RowsAgainstList(cfg, tasks, rows);
    forall r | r in rows
      ensures ReportsScanned(p, cfg, toVirtual, runs, r)
    {
      var k, f := AllRowsSource(p, cfg, toVirtual, offsets, pids, runs, r);
    }
    forall k, f | 0 <= k < |runs| && f in ScanProcesses(p, cfg, runs[k].hits)
      ensures HasRowFor(rows, f.obj)
    {
      AllRowsCover(p, cfg, toVirtual, offsets, pids, runs, k, f);
    }
  }
}
