/**
 * `saferfd::FD`: a value-semantic owner of one file descriptor, and the two
 * factory helpers `open` and `socketpair`. C++ exceptions become `Result`
 * and `Outcome` values; an `int&` parameter becomes an input plus an output
 * that carries the caller's variable after the call; the process-wide
 * descriptor table is the `OS` object every operation receives.
 */
module SaferFD {
  import opened Posix
  import opened Protocol

  /** The kinds of `std::runtime_error` the class and its helpers throw. */
  datatype Error = InvalidHandle | Unset | OpenFailed(pathname: string) | SocketPairFailed

  datatype Result<T> = Ok(value: T) | Err(error: Error)

  datatype Outcome = Pass | Fail(error: Error)

  class FD {
    var mFd: int

    /** `FD()`: the unset state. */
    constructor ()
      ensures mFd == UNSET_FD
    {
      mFd := UNSET_FD;
    }

    /** `explicit operator bool`: the sentinel test and the `fcntl` probe. */
    predicate IsValid(os: OS)
      requires os.Valid()
      reads this, os
      ensures IsValid(os) <==> mFd in os.open
      ensures IsValid(os) ==> mFd >= 0
    {
      UNSET_FD != mFd && os.IsOpen(mFd)
    }

    /** `FD(int& fd)`. On success the new instance holds the caller's number
        and the caller's variable becomes UNSET_FD; on failure nothing is
        built, nothing is closed and the variable keeps its value. */
    static method FromRaw(os: OS, fd: int) returns (r: Result<FD>, fdAfter: int)
      requires os.Valid()
      ensures var p := Protocol.FromRaw(fd, os.open);
        r.Ok? == p.ok && fdAfter == p.src &&
        (r.Ok? ==> fresh(r.value) && r.value.mFd == p.dst) &&
        (r.Err? ==> r.error == InvalidHandle)
    {
      var f := new FD();
      f.mFd := fd;
      if !f.IsValid(os) {
        return Err(InvalidHandle), fd;
      }
      return Ok(f), UNSET_FD;
    }

    /** `FD(const FD& other)`: the new instance owns a duplicate. */
    static method CopyOf(os: OS, other: FD) returns (r: Result<FD>)
      requires os.Valid()
      modifies os
      ensures os.Valid()
      ensures var p := Protocol.CopyConstruct(old(other.mFd), old(os.open), os.limit);
        r.Ok? == p.ok && os.open == p.open && other.mFd == p.src &&
        (r.Ok? ==> fresh(r.value) && r.value.mFd == p.dst) &&
        (r.Err? ==> r.error == InvalidHandle)
    {
      var f := new FD();
      f.mFd := os.Dup(other.mFd);
      if FAILED == f.mFd {
        return Err(InvalidHandle);
      }
      return Ok(f);
    }

    /** `FD(FD&& other)`: the new instance takes `other`'s number and `other`
        becomes unset; a fresh instance starts unset, so its `reset()` closes
        nothing. */
    static method MoveFrom(os: OS, other: FD) returns (r: Result<FD>)
      requires os.Valid()
      modifies os, other
      ensures os.Valid()
      ensures var p := Protocol.MoveConstruct(old(other.mFd), old(os.open));
        r.Ok? == p.ok && other.mFd == p.src && os.open == p.open &&
        (r.Ok? ==> fresh(r.value) && r.value.mFd == p.dst) &&
        (r.Err? ==> r.error == InvalidHandle)
    {
      if other.IsValid(os) {
        var f := new FD();
        f.Reset(os);
        f.mFd, other.mFd := other.mFd, f.mFd;
        return Ok(f);
      }
      return Err(InvalidHandle);
    }

    /** `operator=(const FD& other)`: a no-op on itself, otherwise
        duplicate-then-commit, so a failed `dup` changes nothing. */
    method CopyAssign(os: OS, other: FD) returns (r: Outcome)
      requires os.Valid()
      modifies this, os
      ensures os.Valid()
      ensures this == other ==> r == Pass && mFd == old(mFd) && os.open == old(os.open)
      ensures this != other ==>
        var p := Protocol.CopyAssign(old(mFd), old(other.mFd), old(os.open), os.limit);
        r.Pass? == p.ok && mFd == p.dst && other.mFd == p.src && os.open == p.open &&
        (r.Fail? ==> r.error == InvalidHandle)
    {
      if this != other {
        var fd := os.Dup(other.mFd);
        if FAILED != fd {
          Reset(os);
          mFd := fd;
        } else {
          return Fail(InvalidHandle);
        }
      }
      return Pass;
    }

    /** `operator=(FD&& other)`: a no-op on itself, otherwise check `other`,
        release, and swap. */
    method MoveAssign(os: OS, other: FD) returns (r: Outcome)
      requires os.Valid()
      modifies this, other, os
      ensures os.Valid()
      ensures this == other ==> r == Pass && mFd == old(mFd) && os.open == old(os.open)
      ensures this != other ==>
        var p := Protocol.MoveAssign(old(mFd), old(other.mFd), old(os.open));
        r.Pass? == p.ok && mFd == p.dst && other.mFd == p.src && os.open == p.open &&
        (r.Fail? ==> r.error == InvalidHandle)
    {
      if this != other {
        if other.IsValid(os) {
          Reset(os);
          mFd, other.mFd := other.mFd, mFd;
        } else {
          return Fail(InvalidHandle);
        }
      }
      return Pass;
    }

    /** `operator=(int& fd)`: `FD tmp(fd); *this = move(tmp);` and `tmp` is
        destroyed on the way out. */
    method AssignRaw(os: OS, fd: int) returns (r: Outcome, fdAfter: int)
      requires os.Valid()
      modifies this, os
      ensures os.Valid()
      ensures var p := Protocol.AssignRaw(old(mFd), fd, old(os.open));
        r.Pass? == p.ok && mFd == p.dst && fdAfter == p.src && os.open == p.open &&
        (r.Fail? ==> r.error == InvalidHandle)
    {
      var tmp;
      tmp, fdAfter := FromRaw(os, fd);
      if tmp.Err? {
        return Fail(tmp.error), fdAfter;
      }
      var t := tmp.value;
      r := MoveAssign(os, t);
      t.Destroy(os);
    }

    /** `reset()`: close the held descriptor unless unset, then unset. */
    method Reset(os: OS)
      requires os.Valid()
      modifies this, os
      ensures os.Valid()
      ensures Cell(mFd, os.open) == Release(old(mFd), old(os.open))
    {
      if UNSET_FD != mFd {
        os.Close(mFd);
        mFd := UNSET_FD;
      }
    }

    /** `~FD()`: exactly `reset()`. */
    method Destroy(os: OS)
      requires os.Valid()
      modifies this, os
      ensures os.Valid()
      ensures Cell(mFd, os.open) == Release(old(mFd), old(os.open))
    {
      Reset(os);
    }

    /** `operator*`: the held number when valid; throws otherwise. */
    method Deref(os: OS) returns (r: Result<int>)
      requires os.Valid()
      ensures r.Ok? <==> mFd != UNSET_FD && mFd in os.open
      ensures r.Ok? ==> r.value == mFd && r.value >= 0
      ensures r.Err? ==> r.error == Unset
    {
      if !IsValid(os) {
        return Err(Unset);
      }
      return Ok(mFd);
    }
  }

  /** `saferfd::open`: open the path and wrap the number; any failure is
      reported as OpenFailed carrying the path, and nothing stays open. */
  method Open(os: OS, pathname: string, flags: int, mode: int) returns (r: Result<FD>)
    requires os.Valid()
    modifies os
    ensures os.Valid()
    ensures r.Ok? <==> pathname in os.paths && !Exhausted(old(os.open), os.limit)
    ensures r.Ok? ==> fresh(r.value) && r.value.mFd !in old(os.open) &&
                      os.open == old(os.open) + {r.value.mFd} && r.value.IsValid(os)
    ensures r.Err? ==> r.error == OpenFailed(pathname) && os.open == old(os.open)
  {
    var fd := os.Open(pathname, flags, mode);
    var wrapped, _ := FD.FromRaw(os, fd);
    if wrapped.Err? {
      return Err(OpenFailed(pathname));
    }
    return Ok(wrapped.value);
  }

  /** `saferfd::socketpair`: wrap both ends of a new pair. The two
      temporaries are moved into the returned pair and then destroyed. */
  method SocketPair(os: OS, domain: int, kind: int, protocol: int) returns (r: Result<(FD, FD)>)
    requires os.Valid()
    modifies os
    ensures os.Valid()
    ensures r.Ok? <==> !Exhausted(old(os.open), os.limit) &&
                       !Exhausted(old(os.open) + {LowestFree(old(os.open), 0, os.limit)}, os.limit)
    ensures r.Err? ==> r.error == SocketPairFailed && os.open == old(os.open)
    ensures r.Ok? ==>
      var (a, b) := r.value;
      fresh(a) && fresh(b) && a != b && a.mFd != b.mFd &&
      a.mFd !in old(os.open) && b.mFd !in old(os.open) &&
      os.open == old(os.open) + {a.mFd, b.mFd} && a.IsValid(os) && b.IsValid(os)
  {
    var status, fd0, fd1 := os.SocketPair(domain, kind, protocol);
    if status != 0 {
      return Err(SocketPairFailed);
    }
    var t0, _ := FD.FromRaw(os, fd0);
    var t1, _ := FD.FromRaw(os, fd1);
    var first := FD.MoveFrom(os, t0.value);
    var second := FD.MoveFrom(os, t1.value);
    t0.value.Destroy(os);
    t1.value.Destroy(os);
    return Ok((first.value, second.value));
  }
}
