# saferfd in Dafny

A model of `saferfd::FD`, a C++ class that owns one POSIX file descriptor. It
holds one field, `mFd`, which is either the sentinel `UNSET_FD` (-1) or a
descriptor the instance owns. The operations are:

- construct from a raw `int&`: take the number and clear the caller's variable, only on success;
- copy: `dup` into a new descriptor;
- move: take the number and leave the source unset;
- copy assignment: duplicate first, then commit;
- move assignment;
- assign from a raw `int&`;
- the explicit `operator bool`: the sentinel test plus the `fcntl(F_GETFD)` liveness probe;
- `operator*`;
- `reset` and the destructor.

It also models the two factory helpers `saferfd::open` and `saferfd::socketpair`.

The operating system is replaced by an abstract descriptor table (`Posix.OS`):

- a set of open, non-negative numbers;
- `dup`, `open` and `socketpair` hand out the lowest free numbers below the process limit and fail with -1 when none is left;
- `close` removes a number;
- the liveness probe is set membership.

Files:

- `posix.dfy`: the descriptor table (module `Posix`).
- `protocol.dfy`: each FD operation as a function on the `mFd` values involved and the open set (module `Protocol`).
- `saferfd.dfy`: the class `FD` and the two helpers (module `SaferFD`). Every constructor, assignment operator, `reset` and the destructor is proved to have exactly the effect of its `Protocol` function. `IsValid`, `Deref` and the two helpers carry contracts of their own.
- `ownership.dfy`: the whole-process view (module `Ownership`). A world is the open set plus the `mFd` of every FD instance. The lemmas prove that every operation keeps the ownership invariant `Exclusive`: every set wrapper names an open descriptor, and no two wrappers name the same one. They also prove that destroying the wrappers closes exactly the descriptors they own.
- `scenarios.dfy`: the unit tests of `test/testSaferFd.cpp` restated as client methods whose expectations are proved assertions.

C++ exceptions become `Result`/`Outcome` values. An `int&` parameter becomes an input plus an output that carries the caller's variable after the call. The throwing constructors become static methods returning `Result<FD>`. `this == &other` becomes reference equality.

## Model

| member | source | states |
|---|---|---|
| `Posix.OS.Dup` | source/SaferFD.cpp:65 | `dup` returns the lowest free descriptor and adds it to the table, or -1 with the table unchanged |
| `Posix.DupResult` | source/SaferFD.cpp:87 | `dup` fails exactly when the argument is not open or the table is full; otherwise it returns a non-negative number that was not open |
| `Posix.LowestFree` | source/SaferFD.cpp:87 | the number handed out is free and below the limit, and every smaller number is taken; -1 exactly when all numbers below the limit are open |
| `Posix.OS.Close` | source/SaferFD.cpp:132 | `close` removes exactly that number from the table |
| `Posix.OpenResult` | source/SaferFD.cpp:155 | `open` fails exactly when the path cannot be opened or the table is full; otherwise it returns a fresh non-negative number |
| `Posix.OS.Open` | source/SaferFD.cpp:155 | `open` adds the number it returns to the table, and changes nothing on failure |
| `Posix.OS.SocketPair` | source/SaferFD.cpp:166-167 | succeeds (status 0) iff two numbers below the limit are free; success yields two distinct fresh descriptors, both added to the table; failure (-1) opens nothing |
| `Protocol.Release` | source/SaferFD.cpp:128-135 | afterwards the field is unset and not live, and exactly the held number is closed (nothing when unset) |
| `Protocol.ReleaseIdempotent` | source/SaferFD.cpp:128-135 | a second release changes nothing and closes nothing |
| `Protocol.FromRaw` | source/SaferFD.cpp:52-61 | succeeds iff the raw number is live; on success the instance holds it and the caller's variable becomes -1; on failure the variable keeps its value; no descriptor is opened or closed |
| `Protocol.CopyConstruct` | source/SaferFD.cpp:63-67 | succeeds iff the source is live and the table has room; the copy is live, distinct from the source and was not open before; the source is unchanged and still live; on failure the table is unchanged |
| `Protocol.MoveAssign` | source/SaferFD.cpp:99-114 | succeeds iff the source is live; on success the destination holds the source's number, the source is unset, and only the destination's old descriptor is closed; on failure nothing changes |
| `Protocol.MoveConstruct` | source/SaferFD.cpp:69-78 | succeeds iff the source is live; the new instance holds the source's number and is live, the source is unset, and nothing is closed |
| `Protocol.MoveConstructAsWritten` | source/SaferFD.cpp:69-74 | as written, a successful move construction closes whatever number the uninitialised field held |
| `Protocol.CopyAssign` | source/SaferFD.cpp:80-97 | strong guarantee: when `dup` fails, the destination and the table are unchanged; on success the destination holds a number that was not open, its old descriptor is closed, it is live unless it held a stale number, and the source stays live |
| `Protocol.AssignRaw` | source/SaferFD.cpp:121-126 | succeeds iff the raw number is live; on success the instance holds that very number (no `dup`), the caller's variable becomes -1 and the old descriptor is closed; on failure both are unchanged |
| `SaferFD.FD.constructor` | source/SaferFD.cpp:46-50 | a default-constructed FD is unset |
| `SaferFD.FD.IsValid` | source/SaferFD.cpp:116-119 | valid iff the number is open, so the sentinel test is implied by the probe; a valid number is non-negative; reads state only |
| `SaferFD.FD.FromRaw` | source/SaferFD.cpp:52-61 | result and caller's variable are those of `Protocol.FromRaw`; failure is `InvalidHandle` and builds nothing |
| `SaferFD.FD.CopyOf` | source/SaferFD.cpp:63-67 | the effect of `Protocol.CopyConstruct`; the source is unchanged; failure is `InvalidHandle` |
| `SaferFD.FD.MoveFrom` | source/SaferFD.cpp:69-78 | the effect of `Protocol.MoveConstruct`; failure is `InvalidHandle` |
| `SaferFD.FD.CopyAssign` | source/SaferFD.cpp:80-97 | self-assignment is a no-op; otherwise the effect of `Protocol.CopyAssign`; failure is `InvalidHandle` |
| `SaferFD.FD.MoveAssign` | source/SaferFD.cpp:99-114 | self-assignment is a no-op; otherwise the effect of `Protocol.MoveAssign`; failure is `InvalidHandle` |
| `SaferFD.FD.AssignRaw` | source/SaferFD.cpp:121-126 | the effect of `Protocol.AssignRaw`, including the temporary's destruction |
| `SaferFD.FD.Reset` | source/SaferFD.cpp:128-135 | the effect of `Protocol.Release` |
| `SaferFD.FD.Destroy` | source/SaferFD.cpp:137-140 | the destructor has exactly the effect of `reset` |
| `SaferFD.FD.Deref` | source/SaferFD.cpp:142-148 | returns the held number exactly when the FD is valid, and that number is non-negative; otherwise fails with `Unset`; changes nothing |
| `SaferFD.Open` | source/SaferFD.cpp:151-162 | succeeds iff the path can be opened and the table has room; the result is valid and owns the one new descriptor; any failure is `OpenFailed(pathname)` with nothing left open |
| `SaferFD.SocketPair` | source/SaferFD.cpp:164-171 | succeeds iff the table has two free numbers below the limit; on success, two distinct valid FDs own the two new descriptors and nothing else is opened; failure is `SocketPairFailed` with nothing opened |
| `Ownership.Drop` | source/SaferFD.cpp:128-140 | releasing a wrapper closes exactly its number and unsets it |
| `Ownership.DeclareKeepsOwnership` | source/SaferFD.cpp:46-50 | a new unset wrapper keeps the world exclusive and is not valid |
| `Ownership.AdoptKeepsOwnership` | source/SaferFD.cpp:52-61 | adopting a raw number no wrapper owns, or the unset value, keeps the world exclusive; succeeds iff the number is live; failure changes nothing |
| `Ownership.DuplicateKeepsOwnership` | source/SaferFD.cpp:63-67 | a copy keeps the world exclusive; it owns a new live descriptor different from the source's; the source stays live; failure changes nothing |
| `Ownership.TransferKeepsOwnership` | source/SaferFD.cpp:69-78 | a move keeps the world exclusive; the new wrapper holds the source's old number, the source is unset, every other wrapper is unchanged and nothing is closed |
| `Ownership.CopyIntoKeepsOwnership` | source/SaferFD.cpp:80-97 | copy assignment keeps the world exclusive; self-assignment and failure change nothing; on success the target is live with a new number, its old descriptor is closed, and the source and every other wrapper stay live |
| `Ownership.MoveIntoKeepsOwnership` | source/SaferFD.cpp:99-114 | move assignment keeps the world exclusive; self-assignment and failure change nothing; on success the target holds the source's number and is live, the source is unset, and only the target's old descriptor is closed |
| `Ownership.AdoptIntoKeepsOwnership` | source/SaferFD.cpp:121-126 | assigning a raw number no wrapper owns, or the unset value, keeps the world exclusive; on success the wrapper owns it and its old descriptor is closed; failure changes nothing |
| `Ownership.DropClosesOnce` | source/SaferFD.cpp:128-140 | a release closes a descriptor that is still open and that no other wrapper owns; every other wrapper stays exactly as valid as before; a second release changes nothing |
| `Ownership.TeardownClosesOwned` | source/SaferFD.cpp:137-140 | destroying the first n wrappers closes exactly the numbers they held, leaves them unset and touches no other wrapper |
| `Ownership.TeardownLeaksNothing` | source/SaferFD.cpp:137-140 | once every wrapper is destroyed, the descriptors still open are exactly those no wrapper held |
| `Ownership.MoveConstructAsWrittenClosesForeign` | source/SaferFD.cpp:69-74 | in an exclusive world where two wrappers own descriptors 3 and 4, moving the first while the new instance's uninitialised field holds 4 closes 4 under the second wrapper and the world is no longer exclusive; the corrected move keeps it exclusive |

## Findings

| source | as written | input that shows it | evidently intended | confidence | as-written member | corrected member |
|---|---|---|---|---|---|---|
| source/SaferFD.cpp:69-74 | the move constructor calls `reset()` before `mFd` has been given a value, so `reset()` closes whatever number the uninitialised field holds | descriptors 3 and 4 open; another FD owns 4; move-construct from an FD holding 3 while the new object's field happens to hold 4: descriptor 4 is closed under its owner | the new object starts unset, so its `reset()` closes nothing | medium, not executed (the outcome depends on an indeterminate value) | `Ownership.MoveConstructAsWrittenClosesForeign` | `Protocol.MoveConstruct` |

Every other member uses the corrected move constructor. This covers `SaferFD.FD.MoveFrom` and the moves inside `SaferFD.SocketPair`.

## Left out

- The real system calls (`open`, `dup`, `close`, `fcntl`, `socketpair`) are replaced by the abstract table. Kernel semantics, path resolution, `flags` and `mode` bits are not modelled. The same goes for the `domain`, `type` and `protocol` arguments. `open` succeeds exactly for the path names in `OS.paths`. `socketpair` fails only when fewer than two numbers are free.
- The lowest-number rule for new descriptors is POSIX behaviour, not a promise of the class. No FD contract depends on it beyond freshness.
- Errors from `close` are ignored, as in the source: `close` always removes the number.
- Error message strings are not modelled, including the path concatenation in `open`. Only the kind of error is kept.
- Dafny has no destructors, so the end of an object's lifetime is an explicit call to `FD.Destroy`. `Ownership.Teardown` models the end of a scope.
- Copy elision and the extra moves a C++ compiler may perform when returning an `FD` or a `std::pair` are not modelled.
- Thread safety is not modelled. The class does nothing about concurrent use of one instance.
- `SaferFD.h` is not part of this model. The `explicit` on `operator bool` is a C++ conversion rule with no counterpart here.
- Ownership.AdoptKeepsOwnership: requires that the raw number is the unset value or that no wrapper already owns it. The class cannot check this; the caller must ensure it.
- Ownership.AdoptIntoKeepsOwnership: requires the same (the unset value or a number no wrapper owns). If the number is the wrapper's own, `Protocol.AssignRaw` shows that the wrapper ends up holding a closed descriptor.
- `SaferFD.Open` promises a non-negative descriptor, not a positive one: descriptor 0 is handed out when it is free.
