/**
 * The signature catalog: the check list each scanner configures for its object kind.
 * Pool tags and object sizes come from the type profile; the model takes them as a
 * `Profile` record resolved before scanning starts.
 */
module Signatures {
  import opened Wrappers
  import opened Pool

  /** The object kinds that have a pool scanner. */
  datatype Kind = File | Driver | SymbolicLink | Mutant | Process

  /** The profile constants the scanners read: one pool tag and one object size per kind. */
  datatype Profile = Profile(
    fileTag: Tag, driverTag: Tag, symlinkTag: Tag, mutantTag: Tag, processTag: Tag,
    fileObjectSize: nat, driverObjectSize: nat, symlinkObjectSize: nat,
    mutantObjectSize: nat, processObjectSize: nat)

  /** Every scanner admits paged, non-paged and freed blocks. */
  const AnyPoolType: Check := TypeCheck(true, true, true)

  function PoolTag(p: Profile, k: Kind): Tag
  {
    match k
    case File => p.fileTag
    case Driver => p.driverTag
    case SymbolicLink => p.symlinkTag
    case Mutant => p.mutantTag
    case Process => p.processTag
  }

  function ObjectSize(p: Profile, k: Kind): nat
  {
    match k
    case File => p.fileObjectSize
    case Driver => p.driverObjectSize
    case SymbolicLink => p.symlinkObjectSize
    case Mutant => p.mutantObjectSize
    case Process => p.processObjectSize
  }

  /** The check list of the scanner for kind `k`, in the order the scanner lists it. */
  function Signature(p: Profile, k: Kind): seq<Check>
  {
    match k
    case File => [TagCheck(p.fileTag), SizeCheck(AtLeast(p.fileObjectSize)), AnyPoolType, IndexCheck(0)]
    case Driver => [TagCheck(p.driverTag), SizeCheck(Above(p.driverObjectSize)), AnyPoolType, IndexCheck(0)]
    case SymbolicLink => [TagCheck(p.symlinkTag), SizeCheck(AtLeast(p.symlinkObjectSize)), AnyPoolType]
    case Mutant => [TagCheck(p.mutantTag), SizeCheck(AtLeast(p.mutantObjectSize)), AnyPoolType, IndexCheck(0)]
    case Process => [TagCheck(p.processTag), SizeCheck(AtLeast(p.processObjectSize)), AnyPoolType, IndexCheck(0)]
  }

  /** The file scanner accepts exactly the headers with the file tag, room for a `_FILE_OBJECT` and index 0. */
  lemma FileSignature(p: Profile, h: PoolHeader)
    ensures Accepts(Signature(p, File), h)
        <==> h.tag == p.fileTag && h.size >= p.fileObjectSize && h.index == 0
  {
    var s := Signature(p, File);
    if h.tag == p.fileTag && h.size >= p.fileObjectSize && h.index == 0 {
      assert forall i :: 0 <= i < |s| ==> Holds(s[i], h);
    } else {
      assert !Holds(s[0], h) || !Holds(s[1], h) || !Holds(s[3], h);
    }
  }

  /** The driver scanner's size test is strict: the block must be larger than a `_DRIVER_OBJECT`. */
  lemma DriverSignature(p: Profile, h: PoolHeader)
    ensures Accepts(Signature(p, Driver), h)
        <==> h.tag == p.driverTag && h.size > p.driverObjectSize && h.index == 0
  {
    var s := Signature(p, Driver);
    if h.tag == p.driverTag && h.size > p.driverObjectSize && h.index == 0 {
      assert forall i :: 0 <= i < |s| ==> Holds(s[i], h);
    } else {
      assert !Holds(s[0], h) || !Holds(s[1], h) || !Holds(s[3], h);
    }
  }

  /** At the boundary: a driver block of exactly `_DRIVER_OBJECT` size is rejected, one byte more is accepted. */
  lemma DriverSizeBoundary(p: Profile, h: PoolHeader)
    requires h.tag == p.driverTag && h.index == 0
    ensures !Accepts(Signature(p, Driver), h.(size := p.driverObjectSize))
    ensures Accepts(Signature(p, Driver), h.(size := p.driverObjectSize + 1))
  {
    DriverSignature(p, h.(size := p.driverObjectSize));
    DriverSignature(p, h.(size := p.driverObjectSize + 1));
  }

  /** The other non-strict kinds: tag, minimum size, and index 0 where the kind has an index check. */
  lemma MinimumSizeSignature(p: Profile, k: Kind, h: PoolHeader)
    requires k != Driver
    ensures Accepts(Signature(p, k), h)
        <==> h.tag == PoolTag(p, k) && h.size >= ObjectSize(p, k) && (k != SymbolicLink ==> h.index == 0)
  {
    var s := Signature(p, k);
    if h.tag == PoolTag(p, k) && h.size >= ObjectSize(p, k) && (k != SymbolicLink ==> h.index == 0) {
      assert forall i :: 0 <= i < |s| ==> Holds(s[i], h);
    } else if k == SymbolicLink {
      assert !Holds(s[0], h) || !Holds(s[1], h);
    } else {
      assert !Holds(s[0], h) || !Holds(s[1], h) || !Holds(s[3], h);
    }
  }

  /** The symbolic-link scanner has no index check: its verdict never depends on the pool index. */
  lemma SymlinkIgnoresIndex(p: Profile, h: PoolHeader, index: nat)
    ensures Accepts(Signature(p, SymbolicLink), h) <==> Accepts(Signature(p, SymbolicLink), h.(index := index))
  {
  }

  /** Every other scanner only accepts pool index 0. */
  lemma IndexedKindsRequireIndexZero(p: Profile, k: Kind, h: PoolHeader)
    requires k != SymbolicLink && Accepts(Signature(p, k), h)
    ensures h.index == 0
  {
    var s := Signature(p, k);
    assert Holds(s[3], h);
  }

  /** Every scanner admits paged, non-paged and freed blocks alike: the state never changes a verdict. */
  lemma AllPoolStatesAdmitted(p: Profile, k: Kind, h: PoolHeader, state: PoolState)
    ensures Accepts(Signature(p, k), h) <==> Accepts(Signature(p, k), h.(state := state))
  {
  }

  /** The tag is checked first: a header with the wrong tag is turned away by the first check. */
  lemma TagCheckedFirst(p: Profile, k: Kind, h: PoolHeader)
    requires h.tag != PoolTag(p, k)
    ensures FirstFailure(Signature(p, k), h) == Some(0)
  {
  }
}
