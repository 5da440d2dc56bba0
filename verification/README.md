# Pool-scanner validation model (rekall `filescan.py`)

A Dafny model of the per-kind validation logic of rekall's Windows pool scanners
(`filescan`, `driverscan`, `symlinkscan`, `mutantscan`, `psscan`). The generic pool
scanner finds pool blocks by tag. Each scanner plugin then does three things:

- it configures a check list: tag, size, pool type and, for most kinds, pool index;
- it filters the object bodies found in the accepted blocks with kind-specific rules;
- for processes, it cross-references the survivors against the process list.

The model takes scanner output as already-decoded records:

- a `PoolHeader` for each candidate block;
- a `PoolHit` holding the block's header and the object bodies found in it;
- each body's fields already resolved from memory (DTB, list links, names, device-type validity, owner thread, pid).

Every scanner stage is then a pure, order-preserving filter over a sequence of candidates.
Its contracts state:

- soundness and completeness: an item is emitted if and only if it meets the stage's conditions;
- order: the output is a subsequence of the scanned items, in the same order.

`PSScan.collect` builds one row per yielded process. Its contract states three things:

- the rows are the runs' rows in run order;
- every row reports a process that the scanner yields in some run, with that process's free marker and translated offset;
- every yielded process has a row.

Modules:

- `Wrappers`: `Option`.
- `Sequences`: `Filter` and the subsequence relation, with transitivity and append lemmas.
- `Pool`: pool headers, the four check variants, `Accepts` (every check holds) and `FirstFailure` (checks run in list order, stopping at the first failure).
- `Signatures`: the object kinds, the profile constants, and the check list of each scanner.
- `Hits`: the shared pipeline. The generic scanner keeps the accepted blocks, `IterObject` lists the bodies in each block, and the plugin keeps the bodies its filter admits.
- `Processes`: `PoolScanProcess`, which fixes the kernel boundary and DTB alignment when it is built and applies the structural filter in `scan`.
- `ObjectScans`: the `generate_hits` of the file, driver, symbolic-link and mutant plugins, and the client-id rule of the mutant table.
- `PsScan`: `PSScan.collect`. It takes a snapshot of the process list, scans each run, translates physical hits to virtual addresses, and sets the `E`/`P` status and the `F` free marker.

## Model

| member | source | states |
|---|---|---|
| Pool.FirstFailure | rekall-core/rekall/plugins/windows/filescan.py:38-49 | Checks run in list order and the first failing one is reported. The result is `None` exactly when every check holds. Otherwise the reported check fails and every earlier check holds. |
| Pool.TagMismatchAtByte | rekall-core/rekall/plugins/windows/filescan.py:39-40 | The tag check compares all four bytes exactly. A header whose tag differs from the expected tag in any single byte fails it. |
| Signatures.FileSignature | rekall-core/rekall/plugins/windows/filescan.py:38-49 | The file scanner accepts a header if and only if three things hold: the tag is `FILE_POOLTAG`, the size is at least `sizeof(_FILE_OBJECT)`, and the pool index is 0. Any pool state is allowed. |
| Signatures.DriverSignature | rekall-core/rekall/plugins/windows/filescan.py:116-129 | The driver scanner accepts a header if and only if the tag is `DRIVER_POOLTAG`, the size is strictly greater than `sizeof(_DRIVER_OBJECT)`, and the index is 0. |
| Signatures.DriverSizeBoundary | rekall-core/rekall/plugins/windows/filescan.py:121-123 | A driver block of exactly `sizeof(_DRIVER_OBJECT)` is rejected. One byte larger, it is accepted. |
| Signatures.MinimumSizeSignature | rekall-core/rekall/plugins/windows/filescan.py:246-257 | Covers the file, symbolic-link, mutant and process scanners. Each accepts a header if and only if the tag is the kind's tag and the size is at least the kind's object size. Every kind except symbolic links also needs index 0. |
| Signatures.SymlinkIgnoresIndex | rekall-core/rekall/plugins/windows/filescan.py:188-197 | The symbolic-link scanner has no index check. Changing only the pool index never changes its verdict. |
| Signatures.IndexedKindsRequireIndexZero | rekall-core/rekall/plugins/windows/filescan.py:340-343 | Every scanner except the symbolic-link one accepts only pool index 0. |
| Signatures.AllPoolStatesAdmitted | rekall-core/rekall/plugins/windows/filescan.py:45-46 | Every scanner admits paged, non-paged and freed blocks. Changing only the pool state never changes a verdict. |
| Signatures.TagCheckedFirst | rekall-core/rekall/plugins/windows/filescan.py:329-332 | The tag check comes first in every list. A header with the wrong tag fails at check 0. |
| Hits.Objects | rekall-core/rekall/plugins/windows/filescan.py:62-63 | A body is listed if and only if it lies in a block whose header the check list accepts. Bodies come out in scan order, as a subsequence of all bodies. |
| Hits.ScanKind | rekall-core/rekall/plugins/windows/filescan.py:57-78 | A plugin emits exactly the bodies of accepted blocks that its own filter admits, in scan order. If the blocks arrive in ascending offset order, so do the hits. |
| Processes.KernelBoundary | rekall-core/rekall/plugins/windows/filescan.py:326-327 | The boundary is `MmSystemRangeStart` when that is non-zero, and 0x80000000 otherwise. It is never zero. |
| Processes.ScanProcesses | rekall-core/rekall/plugins/windows/filescan.py:353-371 | A process body is yielded if and only if all of these hold: its block passes the process signature, its DTB is non-zero and a multiple of the alignment, and both `ActiveProcessLinks` pointers are at or above the kernel boundary. Yielded bodies are a subsequence of the scanned ones, in the same order, so they are in ascending offset order when the blocks are. |
| Processes.PaeAlignmentIsWeaker | rekall-core/rekall/plugins/windows/filescan.py:346-351 | The DTB alignment is 0x20 under PAE and 0x1000 otherwise. Anything accepted without PAE is accepted with it. A DTB of 0x20 is accepted only under PAE. |
| Processes.ZeroDtbOnlyRejectedByZeroTest | rekall-core/rekall/plugins/windows/filescan.py:359-363 | A zero DTB passes the alignment test in either mode. Only the explicit zero test rejects it. |
| Processes.NullLinkRejected | rekall-core/rekall/plugins/windows/filescan.py:365-369 | A process with a null Flink or Blink is never accepted, whatever the boundary. |
| Processes.DefaultBoundaryIsInclusive | rekall-core/rekall/plugins/windows/filescan.py:321-327 | The link test is inclusive at the default boundary: links at 0x80000000 pass and links at 0x7FFFFFFF fail. |
| ObjectScans.FileScan | rekall-core/rekall/plugins/windows/filescan.py:57-78 | A file body is emitted if and only if its block passes the file signature, its file name is non-empty, and its device type is valid. Emitted bodies keep scan order. |
| ObjectScans.DriverScan | rekall-core/rekall/plugins/windows/filescan.py:136-154 | Every driver body of every accepted block is emitted, and nothing else. Emitted bodies keep scan order. |
| ObjectScans.DriverBlockReportsEveryBody | rekall-core/rekall/plugins/windows/filescan.py:142-143 | An accepted block holding n driver bodies yields exactly n hits, one per body, in body order. |
| ObjectScans.SymlinkScan | rekall-core/rekall/plugins/windows/filescan.py:205-217 | Every link body of every accepted block is emitted, and nothing else. Emitted bodies keep scan order. |
| ObjectScans.MutantScan | rekall-core/rekall/plugins/windows/filescan.py:265-282 | A mutant body of an accepted block is emitted if and only if it is named or the verbosity is at least 5. |
| ObjectScans.OwnerCid | rekall-core/rekall/plugins/windows/filescan.py:298-305 | A client id is present if and only if the owner-thread value is strictly above 0x80000000. When present, it is the owner thread's id. |
| ObjectScans.OwnerThresholdIsStrict | rekall-core/rekall/plugins/windows/filescan.py:298 | An owner thread of exactly 0x80000000 gets no client id. One above it does. |
| ObjectScans.MutantRows | rekall-core/rekall/plugins/windows/filescan.py:297-315 | There is one row per mutant hit, in hit order. A row is marked "F" exactly for a freed block, and has a client id exactly when the owner thread is above 0x80000000. |
| Pool.FreeMarker | rekall-core/rekall/plugins/windows/filescan.py:436 | The allocation column is "F" exactly for a freed block, and empty otherwise. |
| PsScan.KnownSets | rekall-core/rekall/plugins/windows/filescan.py:404-411 | The snapshot holds exactly the addresses and exactly the pids that the process list reports. |
| PsScan.VirtualOffset | rekall-core/rekall/plugins/windows/filescan.py:422-427 | Only hits in the physical address space are translated to virtual addresses. Hits in other runs keep their own offset. A physical offset with no translation has no virtual address. |
| PsScan.Status | rekall-core/rekall/plugins/windows/filescan.py:429-434 | The status contains "E" if and only if the virtual address is known. It contains "P" if and only if the pid is known. It holds at most these two letters, with "E" first. |
| PsScan.RowsOf | rekall-core/rekall/plugins/windows/filescan.py:422-441 | There is one row per scanned process, in order. Each row carries the process, its parent pid and its DTB. Its marker is the block's free marker: "F" exactly for a freed block, empty otherwise. Its virtual offset is the one the run's address space gives it. Its status is the status string of that offset and the pid, which is "E" then "P" and nothing else. |
| PsScan.ScanRuns | rekall-core/rekall/plugins/windows/filescan.py:413-421 | The rows are built run by run, in run order. Each run contributes the rows of its own process-scanner output. |
| PsScan.AllRowsSource | rekall-core/rekall/plugins/windows/filescan.py:413-443 | No row is made up. Each row reports a process that the scanner yields in some run. The row carries that process, its parent pid and its DTB. Its marker is "F" exactly when the block is freed. Its virtual offset is the one that run's address space gives the process. |
| PsScan.Collect | rekall-core/rekall/plugins/windows/filescan.py:400-443 | Takes the process-list snapshot once, then scans the runs in order. The rows are each run's rows, in run order. Each row reports a process the scanner yields in some run: it carries that process, its free marker, and the virtual offset its run gives it. Every row's process passed the structural filter. Its "E" flag is set exactly when the process list reports that virtual offset. Its "P" flag is set exactly when the list reports its pid. Every process the scanner yields in any run has a row. |

## Left out

- The byte-level tag search, `_POOL_HEADER` decoding, and each check's implementation. These live in the generic `common.PoolScanner`, which is not part of this model. Candidates arrive as decoded `PoolHeader` records whose pool state is already classified as free, non-paged or paged.
- `IterObject`. It is also generic scanner code. Each block arrives with the list of object bodies it holds, so the model cannot state that bodies stay inside the allocation.
- Restricting a scan to `offset`/`maxlen`. Each run arrives with the pool hits the generic scanner found inside it.
- Address-space reads, pointer dereference, `.v()` string decoding and profile lookups. The model takes their results as fields or `Profile` constants. A missing profile constant, a setup error, is not modelled.
- The process list walk (`pslist.list_eprocess`). It arrives as a sequence of (virtual address, pid) records.
- `virtual_process_from_physical_offset`. It is modelled as a finite physical-to-virtual map. An offset missing from the map has no virtual address, so it is never known by address.
- Table headers, column formatting, `AccessString`, owner-process lookup, and the CID text "pid:tid". Only the presence or absence of a client id is modelled.
- Timestamps (`CreationTime`, `CreateTime`, `ExitTime`) and their `or ''` fallback. They are passed through unchanged and carry no logic.
- The driver, file and symbolic-link table rows. Their only logic is the free marker, which `Pool.FreeMarker` models once.
- Pointer width. Pointers and DTBs are unbounded naturals. The source only compares them and reduces them modulo the alignment, so no wrap-around arises.

## Notes on the source

- The mutant client-id rule compares the owner thread against a fixed 0x80000000, with a strict `>`. It does not use `MmSystemRangeStart`, which the process scanner uses with an inclusive `>=`. The model follows the code for both.
- `PSScan.collect` emits rows run by run, in the order the generic scanner yields hits. It does not sort them by offset. The model keeps that order: `PsScan.Collect` states that its rows are each run's rows in run order, and each run's rows follow its scanner's output.
- Address translation happens only for runs in the physical address space. In every other run, a process is compared under its own offset.
