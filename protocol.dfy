/**
 * The FD ownership protocol as values. Each function gives the effect of one
 * operation of `saferfd::FD` on the `mFd` fields involved (the instance being
 * built or assigned, `dst`, and the other instance or the caller's raw
 * variable, `src`) and on the process's set of open descriptors. The class
 * in module SaferFD is proved to behave exactly as these functions say; the
 * module Ownership proves what they guarantee across many instances.
 */
module Protocol {
  import opened Posix

  /** The sentinel held by an FD that owns nothing. */
  const UNSET_FD: int := -1

  /** `operator bool`: set, and the liveness probe says the number is open. */
  predicate Live(fd: int, open: set<int>)
  {
    UNSET_FD != fd && fd in open
  }

  /** One instance's field and the descriptor table after an operation. */
  datatype Cell = Cell(fd: int, open: set<int>)

  /** Whether the operation succeeded, the field of the instance written to,
      the field of the other instance (or the caller's raw variable), and
      the descriptor table afterwards. */
  datatype Pair = Pair(ok: bool, dst: int, src: int, open: set<int>)

  /** `reset()` and the destructor: close the held number unless unset. */
  function Release(fd: int, open: set<int>): (c: Cell)
    requires WellFormed(open)
    ensures c.fd == UNSET_FD && !Live(c.fd, c.open)
    ensures c.open == open - {fd}
  {
    if UNSET_FD != fd then Cell(UNSET_FD, open - {fd}) else Cell(fd, open)
  }

  /** `FD(int& fd)`: take a live raw number and clear the caller's variable;
      on failure the constructor throws and the variable keeps its value. */
  function FromRaw(raw: int, open: set<int>): (p: Pair)
    ensures p.ok <==> Live(raw, open)
    ensures p.open == open
    ensures p.ok ==> p.dst == raw && p.src == UNSET_FD && Live(p.dst, p.open)
    ensures !p.ok ==> p.src == raw
  {
    if Live(raw, open) then Pair(true, raw, UNSET_FD, open) else Pair(false, raw, raw, open)
  }

  /** `FD(const FD& other)`: the new instance holds `dup(other.mFd)`. */
  function CopyConstruct(src: int, open: set<int>, limit: nat): (p: Pair)
    requires WellFormed(open)
    ensures p.src == src
    ensures p.ok <==> Live(src, open) && !Exhausted(open, limit)
    ensures !p.ok ==> p.open == open
    ensures p.ok ==> p.dst !in open && p.open == open + {p.dst}
    ensures p.ok ==> Live(p.dst, p.open) && Live(p.src, p.open) && p.dst != p.src
  {
    var d := DupResult(src, open, limit);
    if FAILED == d then Pair(false, d, src, open) else Pair(true, d, src, open + {d})
  }

  /** `operator=(FD&& other)` for two distinct instances: if `other` is live,
      release what `this` holds and swap the two fields. */
  function MoveAssign(dst: int, src: int, open: set<int>): (p: Pair)
    requires WellFormed(open)
    ensures p.ok <==> Live(src, open)
    ensures !p.ok ==> p.dst == dst && p.src == src && p.open == open
    ensures p.ok ==> p.dst == src && p.src == UNSET_FD && p.open == open - {dst}
    ensures p.ok && dst != src ==> Live(p.dst, p.open)
  {
    if Live(src, open) then
      var c := Release(dst, open);
      Pair(true, src, c.fd, c.open)
    else
      Pair(false, dst, src, open)
  }

  /** `FD(FD&& other)`, with the new instance starting unset (see
      MoveConstructAsWritten for the source's own starting value). */
  function MoveConstruct(src: int, open: set<int>): (p: Pair)
    requires WellFormed(open)
    ensures p.ok <==> Live(src, open)
    ensures p.open == open
    ensures p.ok ==> p.dst == src && Live(p.dst, p.open) && p.src == UNSET_FD
    ensures !p.ok ==> p.src == src
  {
    MoveAssign(UNSET_FD, src, open)
  }

  /** `FD(FD&& other)` as the source has it: `reset()` runs on a field that
      was never initialised, whose value is `garbage`. */
  function MoveConstructAsWritten(garbage: int, src: int, open: set<int>): (p: Pair)
    requires WellFormed(open)
    ensures p.ok ==> p.open == open - {garbage}
  {
    MoveAssign(garbage, src, open)
  }

  /** `operator=(const FD& other)` for two distinct instances: duplicate
      first, and only when that succeeded release and adopt the duplicate. */
  function CopyAssign(dst: int, src: int, open: set<int>, limit: nat): (p: Pair)
    requires WellFormed(open)
    ensures p.src == src
    ensures p.ok <==> Live(src, open) && !Exhausted(open, limit)
    ensures !p.ok ==> p.dst == dst && p.open == open
    ensures p.ok ==> p.dst !in open && p.open == (open + {p.dst}) - {dst}
    ensures p.ok && (dst == UNSET_FD || dst in open) ==> Live(p.dst, p.open)
    ensures p.ok && dst != src ==> Live(p.src, p.open)
  {
    var d := DupResult(src, open, limit);
    if FAILED != d then
      var c := Release(dst, open + {d});
      Pair(true, d, src, c.open)
    else
      Pair(false, dst, src, open)
  }

  /** `operator=(int& fd)`: build a temporary from the raw number (which may
      throw), move-assign it into `this`, then destroy the temporary. */
  function AssignRaw(dst: int, raw: int, open: set<int>): (p: Pair)
    requires WellFormed(open)
    ensures p.ok <==> Live(raw, open)
    ensures !p.ok ==> p.dst == dst && p.src == raw && p.open == open
    ensures p.ok ==> p.dst == raw && p.src == UNSET_FD && p.open == open - {dst}
    ensures p.ok && dst != raw ==> Live(p.dst, p.open)
  {
    var t := FromRaw(raw, open);
    if !t.ok then
      Pair(false, dst, raw, open)
    else
      var m := MoveAssign(dst, t.dst, t.open);
      var tmp := Release(m.src, m.open);
      Pair(m.ok, m.dst, t.src, tmp.open)
  }

  /** Releasing twice closes nothing the first release did not. */
  lemma ReleaseIdempotent(fd: int, open: set<int>)
    requires WellFormed(open)
    ensures var c := Release(fd, open); Release(c.fd, c.open) == c
  {
  }
}
