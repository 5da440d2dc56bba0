/**
 * Pool headers and the structural checks the generic pool scanner runs on them.
 * The byte-level tag search and the decoding of a raw `_POOL_HEADER` belong to the generic
 * scanner; here a candidate arrives as an already-decoded header record.
 */
module Pool {
  import opened Wrappers

  newtype byte = x: int | 0 <= x < 256

  /** A pool tag: exactly four bytes. */
  type Tag = t: seq<byte> | |t| == 4 witness [0, 0, 0, 0]

  /** The allocation state of a pool block: freed, or allocated from non-paged or paged pool. */
  datatype PoolState = Free | NonPaged | Paged

  /** A decoded pool header candidate at `offset` in the scanned address space. */
  datatype PoolHeader = PoolHeader(offset: nat, tag: Tag, size: nat, state: PoolState, index: nat)

  /** The size test of a `CheckPoolSize` entry: a minimum (`min_size=`) or a strict lower bound (`condition=`). */
  datatype SizeRule = AtLeast(min: nat) | Above(bound: nat)

  /** One entry of a scanner's check list. */
  datatype Check =
    | TagCheck(tag: Tag)
    | SizeCheck(rule: SizeRule)
    | TypeCheck(paged: bool, nonPaged: bool, free: bool)
    | IndexCheck(value: nat)

  predicate SizeAdmits(rule: SizeRule, size: nat)
  {
    match rule
    case AtLeast(min) => size >= min
    case Above(bound) => size > bound
  }

  predicate StateAdmitted(paged: bool, nonPaged: bool, free: bool, state: PoolState)
  {
    match state
    case Free => free
    case NonPaged => nonPaged
    case Paged => paged
  }

  predicate Holds(check: Check, h: PoolHeader)
  {
    match check
    case TagCheck(tag) => h.tag == tag
    case SizeCheck(rule) => SizeAdmits(rule, h.size)
    case TypeCheck(paged, nonPaged, free) => StateAdmitted(paged, nonPaged, free, h.state)
    case IndexCheck(value) => h.index == value
  }

  /** A header is accepted by a check list when every check in it holds. */
  predicate Accepts(checks: seq<Check>, h: PoolHeader)
  {
    forall i :: 0 <= i < |checks| ==> Holds(checks[i], h)
  }

  /**
   * Runs the checks in list order and stops at the first one that fails, as a scanner does;
   * `None` means the header passed them all.
   */
  function FirstFailure(checks: seq<Check>, h: PoolHeader): (r: Option<nat>)
    ensures r.None? <==> Accepts(checks, h)
    ensures r.Some? ==> r.value < |checks| && !Holds(checks[r.value], h)
    ensures r.Some? ==> forall j :: 0 <= j < r.value ==> Holds(checks[j], h)
  {
    if |checks| == 0 then None
    else if !Holds(checks[0], h) then Some(0)
    else
      match FirstFailure(checks[1..], h)
      case None => None
      case Some(i) => Some(i + 1)
  }

  /** Tags match byte for byte: a single differing byte makes the tag check fail. */
  lemma TagMismatchAtByte(tag: Tag, h: PoolHeader, i: nat)
    requires i < 4 && h.tag[i] != tag[i]
    ensures !Holds(TagCheck(tag), h)
  {
  }

  /** `FreePool` of a header: the block has been released. */
  predicate FreePool(h: PoolHeader)
  {
    h.state == Free
  }

  /** The one-character allocation column of every scanner's output: "F" for a freed block. */
  function FreeMarker(h: PoolHeader): (m: string)
    ensures m == "F" <==> FreePool(h)
    ensures m != "F" ==> m == ""
  {
    if FreePool(h) then "F" else ""
  }
}
