/**
 * The file, driver, symbolic-link and mutant scanner plugins: which object bodies their
 * `generate_hits` emits, and the mutant owner-thread rule of `MutantScan.render`.
 * Fields read through an address space (names, device type, owner thread) arrive resolved.
 */
module ObjectScans {
  import opened Wrappers
  import opened Pool
  import opened Signatures
  import opened Sequences
  import opened Hits

  /** A `_FILE_OBJECT` body: its file name and whether its device object has a valid device type. */
  datatype FileObject = FileObject(offset: nat, fileName: string, deviceTypeValid: bool)

  /** A `_DRIVER_OBJECT` body with its object-header name, driver name and extension's service key. */
  datatype DriverObject = DriverObject(
    offset: nat, name: string, driverName: string, serviceKey: string, start: nat, size: nat)

  /** An `_OBJECT_SYMBOLIC_LINK` body with its object-header name and its target. */
  datatype SymbolicLinkObject = SymbolicLinkObject(offset: nat, name: string, target: string)

  /** A thread's client id: the owning process id and the thread id. */
  datatype Cid = Cid(process: nat, thread: nat)

  /**
   * A `_KMUTANT` body: object-header name, signal state, owner-thread pointer, and the client id
   * read from the `_ETHREAD` at that pointer.
   */
  datatype MutantObject = MutantObject(
    offset: nat, name: string, signalState: int, ownerThread: nat, ownerCid: Cid)

  /** Verbosity at which unnamed mutants are shown. */
  const ShowUnnamedVerbosity: int := 5

  /** Owner-thread values strictly above this are treated as kernel pointers worth following. */
  const KernelThreadFloor: nat := 0x8000_0000

  predicate KeepFile(o: FileObject)
  {
    o.fileName != [] && o.deviceTypeValid
  }

  predicate KeepMutant(verbosity: int, o: MutantObject)
  {
    !(verbosity < ShowUnnamedVerbosity && o.name == [])
  }

  /**
   * `FileScan.generate_hits`: exactly the file bodies of accepted blocks that have a non-empty
   * name and a valid device type, in scan order.
   */
  function FileScan(p: Profile, hits: seq<PoolHit<FileObject>>): (r: seq<Found<FileObject>>)
    ensures forall f :: f in r <==>
      && Accepts(Signature(p, File), f.pool)
      && FoundIn(f, hits)
      && f.obj.fileName != []
      && f.obj.deviceTypeValid
    ensures IsSubsequence(r, Pairs(hits))
  {
    ScanKind(Signature(p, File), KeepFile, hits)
  }

  /** `DriverScan.generate_hits`: every driver body of every accepted block, in scan order. */
  function DriverScan(p: Profile, hits: seq<PoolHit<DriverObject>>): (r: seq<Found<DriverObject>>)
    ensures forall f :: f in r <==> Accepts(Signature(p, Driver), f.pool) && FoundIn(f, hits)
    ensures IsSubsequence(r, Pairs(hits))
  {
    Objects(Signature(p, Driver), hits)
  }

  /** `SymLinkScan.generate_hits`: every link body of every accepted block, in scan order. */
  function SymlinkScan(p: Profile, hits: seq<PoolHit<SymbolicLinkObject>>): (r: seq<Found<SymbolicLinkObject>>)
    ensures forall f :: f in r <==> Accepts(Signature(p, SymbolicLink), f.pool) && FoundIn(f, hits)
    ensures IsSubsequence(r, Pairs(hits))
  {
    Objects(Signature(p, SymbolicLink), hits)
  }

  /**
   * `MutantScan.generate_hits`: the mutant bodies of accepted blocks, where an unnamed mutant
   * is only emitted at verbosity 5 or more, in scan order.
   */
  function MutantScan(p: Profile, verbosity: int, hits: seq<PoolHit<MutantObject>>): (r: seq<Found<MutantObject>>)
    ensures forall f :: f in r <==>
      && Accepts(Signature(p, Mutant), f.pool)
      && FoundIn(f, hits)
      && (f.obj.name != [] || verbosity >= 5)
    ensures IsSubsequence(r, Pairs(hits))
  {
    ScanKind(Signature(p, Mutant), (o: MutantObject) => KeepMutant(verbosity, o), hits)
  }

  /**
   * A block hosting several bodies reports every one of them: an accepted driver block
   * yields as many hits as it holds driver bodies, in body order.
   */
  lemma {:induction false} DriverBlockReportsEveryBody(p: Profile, h: PoolHit<DriverObject>)
    requires Accepts(Signature(p, Driver), h.header)
    ensures |DriverScan(p, [h])| == |h.objects|
    ensures forall i :: 0 <= i < |h.objects| ==> DriverScan(p, [h])[i] == Found(h.header, h.objects[i])
  {
    assert Scan(Signature(p, Driver), [h]) == [h];
    assert Pairs([h]) == Attach(h.header, h.objects) + Pairs([h][1..]);
  }

  /**
   * The client id shown for a mutant: read from the owner thread only when the owner-thread
   * value is strictly above 0x80000000, empty otherwise.
   */
  function OwnerCid(m: MutantObject): (r: Option<Cid>)
    ensures r.Some? <==> m.ownerThread > 0x8000_0000
    ensures r.Some? ==> r.value == m.ownerCid
  {
    if m.ownerThread > KernelThreadFloor then Some(m.ownerCid) else None
  }

  /** One row of the mutant table. */
  datatype MutantRow = MutantRow(
    marker: string, offset: nat, signal: int, thread: nat, cid: Option<Cid>, name: string)

  function MutantRowOf(f: Found<MutantObject>): MutantRow
  {
    MutantRow(FreeMarker(f.pool), f.obj.offset, f.obj.signalState, f.obj.ownerThread, OwnerCid(f.obj), f.obj.name)
  }

  /**
   * `MutantScan.render`: one row per hit, in hit order; the row is marked "F" exactly for freed
   * blocks and carries a client id exactly when the owner thread lies above 0x80000000.
   */
  function MutantRows(hits: seq<Found<MutantObject>>): (rows: seq<MutantRow>)
    ensures |rows| == |hits|
    ensures forall i :: 0 <= i < |rows| ==>
      && rows[i].offset == hits[i].obj.offset
      && (rows[i].marker == "F" <==> FreePool(hits[i].pool))
      && (rows[i].cid.Some? <==> hits[i].obj.ownerThread > 0x8000_0000)
  {
    seq(|hits|, i requires 0 <= i < |hits| => MutantRowOf(hits[i]))
  }

  /** At the threshold itself: an owner thread of exactly 0x80000000 gets no client id, one above does. */
  lemma OwnerThresholdIsStrict(m: MutantObject)
    ensures OwnerCid(m.(ownerThread := 0x8000_0000)) == None
    ensures OwnerCid(m.(ownerThread := 0x8000_0001)) == Some(m.ownerCid)
  {
  }
}
