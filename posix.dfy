/**
 * An abstract POSIX descriptor table: the part of the operating system that
 * the FD wrapper talks to. A process's open descriptors are a finite set of
 * non-negative numbers; `dup`, `open` and `socketpair` hand out the lowest
 * numbers not in the set (and fail with -1 when none is left below the
 * process limit), `close` removes a number, and `fcntl(fd, F_GETFD)` succeeds
 * exactly on the numbers in the set.
 */
module Posix {

  /** The value `open`, `dup` and `socketpair` report on failure. */
  const FAILED: int := -1

  /** No open descriptor is negative. */
  ghost predicate WellFormed(open: set<int>)
  {
    forall d :: d in open ==> d >= 0
  }

  /** Every number below the limit is taken (EMFILE). */
  predicate Exhausted(open: set<int>, limit: nat)
  {
    forall k :: 0 <= k < limit ==> k in open
  }

  /** The lowest number in [from, limit) that is not open, or FAILED. */
  function LowestFree(open: set<int>, from: nat, limit: nat): (d: int)
    decreases limit - from
    ensures d == FAILED || (from <= d < limit && d !in open)
    ensures d != FAILED ==> forall k :: from <= k < d ==> k in open
    ensures d == FAILED <==> forall k :: from <= k < limit ==> k in open
  {
    if from >= limit then FAILED
    else if from !in open then from
    else LowestFree(open, from + 1, limit)
  }

  /** What `dup(fd)` returns: a fresh, lowest-numbered descriptor, or FAILED
      when `fd` is not open (EBADF) or the table is full (EMFILE). */
  function DupResult(fd: int, open: set<int>, limit: nat): (d: int)
    ensures d == FAILED <==> fd !in open || Exhausted(open, limit)
    ensures d != FAILED ==> 0 <= d < limit && d !in open
    ensures d != FAILED ==> forall k :: 0 <= k < d ==> k in open
  {
    if fd in open then LowestFree(open, 0, limit) else FAILED
  }

  /** What `open(pathname, ...)` returns: the lowest free descriptor when the
      path can be opened, otherwise FAILED. */
  function OpenResult(pathname: string, paths: set<string>, open: set<int>, limit: nat): (d: int)
    ensures d == FAILED <==> pathname !in paths || Exhausted(open, limit)
    ensures d != FAILED ==> 0 <= d < limit && d !in open
  {
    if pathname in paths then LowestFree(open, 0, limit) else FAILED
  }

  /** The operating system's descriptor table of the calling process. */
  class OS {
    var open: set<int>
    /** The per-process descriptor limit (RLIMIT_NOFILE). */
    const limit: nat
    /** The path names an `open` call can resolve and is permitted to open. */
    const paths: set<string>

    ghost predicate Valid()
      reads this
    {
      WellFormed(open)
    }

    constructor (open0: set<int>, limit0: nat, paths0: set<string>)
      requires WellFormed(open0)
      ensures Valid()
      ensures open == open0 && limit == limit0 && paths == paths0
    {
      open, limit, paths := open0, limit0, paths0;
    }

    /** `fcntl(fd, F_GETFD) != -1`: a query with no side effect. */
    predicate IsOpen(fd: int)
      reads this
    {
      fd in open
    }

    method Dup(fd: int) returns (d: int)
      requires Valid()
      modifies this
      ensures Valid()
      ensures d == DupResult(fd, old(open), limit)
      ensures open == if d == FAILED then old(open) else old(open) + {d}
    {
      d := DupResult(fd, open, limit);
      if d != FAILED {
        open := open + {d};
      }
    }

    /** `close(fd)`; closing a number that is not open changes nothing. */
    method Close(fd: int)
      requires Valid()
      modifies this
      ensures Valid()
      ensures open == old(open) - {fd}
    {
      open := open - {fd};
    }

    /** `open(pathname, flags, mode)`; flags and mode bits are not modelled. */
    method Open(pathname: string, flags: int, mode: int) returns (fd: int)
      requires Valid()
      modifies this
      ensures Valid()
      ensures fd == OpenResult(pathname, paths, old(open), limit)
      ensures open == if fd == FAILED then old(open) else old(open) + {fd}
    {
      fd := OpenResult(pathname, paths, open, limit);
      if fd != FAILED {
        open := open + {fd};
      }
    }

    /** `socketpair(domain, type, protocol, fds)`: status 0 and two fresh
        descriptors, or -1 with nothing opened when fewer than two numbers
        are free below the limit. */
    method SocketPair(domain: int, kind: int, protocol: int) returns (status: int, fd0: int, fd1: int)
      requires Valid()
      modifies this
      ensures Valid()
      ensures status == 0 || status == FAILED
      ensures status == 0 <==> !Exhausted(old(open), limit) && !Exhausted(old(open) + {LowestFree(old(open), 0, limit)}, limit)
      ensures status == 0 ==> fd0 != fd1 && fd0 !in old(open) && fd1 !in old(open) && fd0 >= 0 && fd1 >= 0
      ensures open == if status == 0 then old(open) + {fd0, fd1} else old(open)
    {
      fd0 := LowestFree(open, 0, limit);
      fd1 := if fd0 == FAILED then FAILED else LowestFree(open + {fd0}, 0, limit);
      if fd0 != FAILED && fd1 != FAILED {
        status := 0;
        open := open + {fd0, fd1};
      } else {
        status, fd0, fd1 := FAILED, FAILED, FAILED;
      }
    }
  }
}
