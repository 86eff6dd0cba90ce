/**
 * The scenarios of the unit tests in test/testSaferFd.cpp, as clients of the
 * FD class: each test's expectations are assertions proved from the
 * contracts alone. The process starts with stdin, stdout and stderr open and
 * the test's own source file readable.
 */
module Scenarios {
  import opened Posix
  import opened Protocol
  import opened SaferFD

  const SOURCE_FILE: string := "testSaferFd.cpp"

  method StartProcess() returns (os: OS)
    ensures fresh(os) && os.Valid() && os.open == {0, 1, 2} && SOURCE_FILE in os.paths && os.limit == 1024
  {
    os := new OS({0, 1, 2}, 1024, {SOURCE_FILE});
  }

  method OpenSource(os: OS) returns (f: FD)
    requires os.Valid() && SOURCE_FILE in os.paths && 3 !in os.open && 3 < os.limit
    modifies os
    ensures os.Valid() && fresh(f) && f.IsValid(os)
    ensures os.open == old(os.open) + {f.mFd} && f.mFd !in old(os.open)
  {
    assert !Exhausted(os.open, os.limit) by { assert 3 !in os.open; }
    var r := Open(os, SOURCE_FILE, 0, 0);
    f := r.value;
  }

  /** CreateFromInvalidFD: -5 is refused and the caller's -5 stays -5. */
  method CreateFromInvalidFD() {
    var os := StartProcess();
    var r, fd := FD.FromRaw(os, -5);
    assert r.Err? && fd == -5;
  }

  /** CreateFromValidFD: the wrapper is valid and the caller's variable is -1. */
  method CreateFromValidFD() {
    var os := StartProcess();
    var raw := os.Open(SOURCE_FILE, 0, 0);
    assert 3 !in {0, 1, 2};
    assert raw != FAILED;
    var r, fd := FD.FromRaw(os, raw);
    assert r.Ok? && r.value.IsValid(os) && fd == -1;
  }

  /** DerefInvalid: an unset wrapper is not valid, and neither dereference
      nor copy construction from it succeeds. */
  method DerefInvalid() {
    var os := StartProcess();
    var s := new FD();
    assert !s.IsValid(os);
    var d := s.Deref(os);
    assert d.Err?;
    var c := FD.CopyOf(os, s);
    assert c.Err?;
  }

  /** CopyConstruction: both wrappers are valid and hold different numbers. */
  method CopyConstruction() {
    var os := StartProcess();
    var s := OpenSource(os);
    assert !Exhausted(os.open, os.limit) by { assert 3 !in os.open || 4 !in os.open; }
    var d := FD.CopyOf(os, s);
    assert d.Ok?;
    var ds := s.Deref(os);
    var dd := d.value.Deref(os);
    assert s.IsValid(os) && d.value.IsValid(os) && ds.value != dd.value;
  }

  /** SimpleAssignment: copy-assigning into an unset wrapper makes both valid. */
  method SimpleAssignment() {
    var os := StartProcess();
    var d := new FD();
    assert !d.IsValid(os);
    var s := OpenSource(os);
    assert !Exhausted(os.open, os.limit) by { assert 3 !in os.open || 4 !in os.open; }
    var r := d.CopyAssign(os, s);
    assert r.Pass? && d.IsValid(os) && s.IsValid(os);
  }

  /** MoveConstruction: the new wrapper holds the old number, the source is unset. */
  method MoveConstruction() {
    var os := StartProcess();
    var s := OpenSource(os);
    var previous := s.Deref(os);
    var d := FD.MoveFrom(os, s);
    var now := d.value.Deref(os);
    assert d.value.IsValid(os) && !s.IsValid(os) && now.value == previous.value;
  }

  /** Named after the test MoveAssignment, which in fact move-constructs
      (`FD d = std::move(s);`, covered by MoveConstruction above); this
      scenario exercises `operator=(FD&&)` into an unset wrapper, which the
      test file does not test. */
  method MoveAssignment() {
    var os := StartProcess();
    var s := OpenSource(os);
    var previous := s.Deref(os);
    var d := new FD();
    var r := d.MoveAssign(os, s);
    var now := d.Deref(os);
    assert r.Pass? && d.IsValid(os) && !s.IsValid(os) && now.value == previous.value;
  }

  /** SelfAssignmentShouldBeNOP: `s = s` is a copy self-assignment; the
      self move-assignment added here is not in the test file. */
  method SelfAssignment() {
    var os := StartProcess();
    var s := OpenSource(os);
    var previous := s.Deref(os);
    var r := s.CopyAssign(os, s);
    var m := s.MoveAssign(os, s);
    var now := s.Deref(os);
    assert r.Pass? && m.Pass? && s.IsValid(os) && now.value == previous.value;
  }

  /** AssignmentFromFd: the wrapper takes the raw number itself, not a duplicate. */
  method AssignmentFromFd() {
    var os := StartProcess();
    var d := new FD();
    var raw := os.Open(SOURCE_FILE, 0, 0);
    assert 3 !in {0, 1, 2};
    var backup := raw;
    var r, fd := d.AssignRaw(os, raw);
    var now := d.Deref(os);
    assert r.Pass? && fd == -1 && d.IsValid(os) && now.value == backup;
  }

  /** Releasing one end of a socket pair leaves the other valid; releasing
      again closes nothing. */
  method SocketPairEndsAreIndependent() {
    var os := StartProcess();
    assert !Exhausted(os.open, os.limit) by { assert 3 !in os.open; }
    ghost var first := LowestFree(os.open, 0, os.limit);
    assert !Exhausted(os.open + {first}, os.limit) by {
      assert 3 !in os.open + {first} || 4 !in os.open + {first};
    }
    var r := SocketPair(os, 1, 1, 0);
    assert r.Ok?;
    var (a, b) := r.value;
    a.Reset(os);
    assert b.IsValid(os) && !a.IsValid(os);
    var before := os.open;
    a.Destroy(os);
    assert os.open == before;
  }
}
