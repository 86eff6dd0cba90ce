/**
 * What the FD protocol guarantees across all the wrappers of a process. A
 * world is the set of open descriptors and the `mFd` field of every FD
 * instance (a slot); the operations apply the Protocol functions to the
 * slots involved. Exclusive is the ownership invariant: every set slot names
 * an open descriptor, and no two slots name the same one. Every operation
 * preserves it, provided that a raw number handed to `FD(int&)` or
 * `operator=(int&)` is not already owned by some wrapper (the unset value,
 * which no wrapper owns, may always be handed over, and is refused).
 */
module Ownership {
  import opened Posix
  import opened Protocol

  datatype World = World(open: set<int>, limit: nat, slots: seq<int>)

  /** Whether the operation succeeded, and the world afterwards. */
  datatype Step = Step(ok: bool, world: World)

  ghost predicate Exclusive(w: World)
  {
    WellFormed(w.open) &&
    (forall i :: 0 <= i < |w.slots| && w.slots[i] != UNSET_FD ==> w.slots[i] in w.open) &&
    (forall i, j :: 0 <= i < |w.slots| && 0 <= j < |w.slots| && i != j && w.slots[i] != UNSET_FD ==>
       w.slots[i] != w.slots[j])
  }

  /** `FD()` adds an unset wrapper. */
  function Declare(w: World): Step
  {
    Step(true, w.(slots := w.slots + [UNSET_FD]))
  }

  /** `FD(int& raw)` adds a wrapper owning `raw`. */
  function Adopt(w: World, raw: int): Step
  {
    var p := FromRaw(raw, w.open);
    if p.ok then Step(true, w.(slots := w.slots + [p.dst])) else Step(false, w)
  }

  /** `FD(const FD&)` of slot i adds a wrapper owning a duplicate. */
  function Duplicate(w: World, i: nat): Step
    requires i < |w.slots| && WellFormed(w.open)
  {
    var p := CopyConstruct(w.slots[i], w.open, w.limit);
    if p.ok then Step(true, w.(open := p.open, slots := w.slots + [p.dst])) else Step(false, w)
  }

  /** `FD(FD&&)` of slot i adds a wrapper that takes slot i's descriptor. */
  function Transfer(w: World, i: nat): Step
    requires i < |w.slots| && WellFormed(w.open)
  {
    var p := MoveConstruct(w.slots[i], w.open);
    if p.ok then Step(true, w.(open := p.open, slots := w.slots[i := p.src] + [p.dst])) else Step(false, w)
  }

  /** Slot i `= ` slot j by copy; assigning a wrapper to itself does nothing. */
  function CopyInto(w: World, i: nat, j: nat): Step
    requires i < |w.slots| && j < |w.slots| && WellFormed(w.open)
  {
    if i == j then Step(true, w)
    else
      var p := CopyAssign(w.slots[i], w.slots[j], w.open, w.limit);
      Step(p.ok, w.(open := p.open, slots := w.slots[i := p.dst][j := p.src]))
  }

  /** Slot i `= std::move(` slot j `)`; moving a wrapper into itself does nothing. */
  function MoveInto(w: World, i: nat, j: nat): Step
    requires i < |w.slots| && j < |w.slots| && WellFormed(w.open)
  {
    if i == j then Step(true, w)
    else
      var p := MoveAssign(w.slots[i], w.slots[j], w.open);
      Step(p.ok, w.(open := p.open, slots := w.slots[i := p.dst][j := p.src]))
  }

  /** Slot i `= raw`. */
  function AdoptInto(w: World, i: nat, raw: int): Step
    requires i < |w.slots| && WellFormed(w.open)
  {
    var p := AssignRaw(w.slots[i], raw, w.open);
    Step(p.ok, w.(open := p.open, slots := w.slots[i := p.dst]))
  }

  /** `reset()` or the destructor of slot i. */
  function Drop(w: World, i: nat): (s: Step)
    requires i < |w.slots| && WellFormed(w.open)
    ensures s.ok && WellFormed(s.world.open) && |s.world.slots| == |w.slots|
    ensures s.world.open == w.open - {w.slots[i]}
    ensures s.world.slots == w.slots[i := UNSET_FD]
  {
    var c := Release(w.slots[i], w.open);
    Step(true, w.(open := c.open, slots := w.slots[i := c.fd]))
  }

  /** Destroy slots n-1, ..., 1, 0 in turn, as the end of a scope does. */
  function Teardown(w: World, n: nat): World
    requires n <= |w.slots| && WellFormed(w.open)
    decreases n
  {
    if n == 0 then w else Teardown(Drop(w, n - 1).world, n - 1)
  }

  lemma DeclareKeepsOwnership(w: World)
    requires Exclusive(w)
    ensures var s := Declare(w);
      Exclusive(s.world) && s.world.open == w.open && !Live(Last(s.world.slots), s.world.open)
  {
  }

  function Last(s: seq<int>): int
    requires |s| > 0
  {
    s[|s| - 1]
  }

  /** Taking a raw number that no wrapper owns (or UNSET_FD, which fails):
      the new wrapper is its only owner; nothing is opened or closed either
      way. */
  lemma AdoptKeepsOwnership(w: World, raw: int)
    requires Exclusive(w) && (raw == UNSET_FD || raw !in w.slots)
    ensures var s := Adopt(w, raw);
      Exclusive(s.world) && s.world.open == w.open &&
      (s.ok <==> Live(raw, w.open)) &&
      (s.ok ==> Last(s.world.slots) == raw && s.world.slots[..|w.slots|] == w.slots) &&
      (!s.ok ==> s.world == w)
  {
    var s := Adopt(w, raw);
    if s.ok {
      assert s.world.slots == w.slots + [raw];
      assert s.world.slots[..|w.slots|] == w.slots;
    }
  }

  /** A copy is an independent owner of a new descriptor; the source and
      every other wrapper are untouched; a failed copy changes nothing. */
  lemma DuplicateKeepsOwnership(w: World, i: nat)
    requires Exclusive(w) && i < |w.slots|
    ensures var s := Duplicate(w, i);
      Exclusive(s.world) &&
      (s.ok <==> Live(w.slots[i], w.open) && !Exhausted(w.open, w.limit)) &&
      (!s.ok ==> s.world == w) &&
      (s.ok ==> s.world.slots[..|w.slots|] == w.slots &&
                Last(s.world.slots) !in w.open && Last(s.world.slots) != w.slots[i] &&
                Live(Last(s.world.slots), s.world.open) && Live(w.slots[i], s.world.open) &&
                s.world.open == w.open + {Last(s.world.slots)})
  {
    var s := Duplicate(w, i);
    if s.ok {
      var d := Last(s.world.slots);
      assert s.world.slots == w.slots + [d];
      assert s.world.slots[..|w.slots|] == w.slots;
      forall a, b | 0 <= a < |s.world.slots| && 0 <= b < |s.world.slots| && a != b && s.world.slots[a] != UNSET_FD
        ensures s.world.slots[a] != s.world.slots[b]
      {
        if a == |w.slots| || b == |w.slots| {
          assert forall k :: 0 <= k < |w.slots| && w.slots[k] != UNSET_FD ==> w.slots[k] in w.open;
        }
      }
    }
  }

  /** A moved-from wrapper is unset and the new wrapper holds its old number;
      nothing is opened or closed; a failed move changes nothing. */
  lemma TransferKeepsOwnership(w: World, i: nat)
    requires Exclusive(w) && i < |w.slots|
    ensures var s := Transfer(w, i);
      Exclusive(s.world) && s.world.open == w.open &&
      (s.ok <==> Live(w.slots[i], w.open)) &&
      (!s.ok ==> s.world == w) &&
      (s.ok ==> Last(s.world.slots) == w.slots[i] && s.world.slots[i] == UNSET_FD &&
                Live(Last(s.world.slots), s.world.open) &&
                forall k :: 0 <= k < |w.slots| && k != i ==> s.world.slots[k] == w.slots[k])
  {
    var s := Transfer(w, i);
    if s.ok {
      var n := |w.slots|;
      assert s.world.slots == w.slots[i := UNSET_FD] + [w.slots[i]];
      forall a, b | 0 <= a < |s.world.slots| && 0 <= b < |s.world.slots| && a != b && s.world.slots[a] != UNSET_FD
        ensures s.world.slots[a] != s.world.slots[b]
      {
        if a == n && b != i { assert s.world.slots[b] == w.slots[b]; }
        if b == n && a != i { assert s.world.slots[a] == w.slots[a]; }
      }
    }
  }

  /** Copy assignment has the strong guarantee: on failure the world is
      unchanged; on success slot i owns a new duplicate of slot j's
      descriptor, slot i's previous descriptor is closed, and slot j and
      every other wrapper keep theirs open. */
  lemma CopyIntoKeepsOwnership(w: World, i: nat, j: nat)
    requires Exclusive(w) && i < |w.slots| && j < |w.slots|
    ensures var s := CopyInto(w, i, j);
      Exclusive(s.world) &&
      (s.ok <==> i == j || (Live(w.slots[j], w.open) && !Exhausted(w.open, w.limit))) &&
      (!s.ok || i == j ==> s.world == w) &&
      (s.ok && i != j ==>
         s.world.slots[j] == w.slots[j] && Live(s.world.slots[j], s.world.open) &&
         Live(s.world.slots[i], s.world.open) && s.world.slots[i] != w.slots[j] &&
         s.world.slots[i] !in w.open && w.slots[i] !in s.world.open &&
         forall k :: 0 <= k < |w.slots| && k != i ==>
           s.world.slots[k] == w.slots[k] && (Live(w.slots[k], w.open) ==> Live(s.world.slots[k], s.world.open)))
  {
    var s := CopyInto(w, i, j);
    if s.ok && i != j {
      var p := CopyAssign(w.slots[i], w.slots[j], w.open, w.limit);
      assert s.world.slots == w.slots[i := p.dst];
      forall k | 0 <= k < |w.slots| && k != i && Live(w.slots[k], w.open)
        ensures Live(s.world.slots[k], s.world.open)
      {
        assert w.slots[k] != w.slots[i];
      }
      forall a, b | 0 <= a < |s.world.slots| && 0 <= b < |s.world.slots| && a != b && s.world.slots[a] != UNSET_FD
        ensures s.world.slots[a] != s.world.slots[b]
      {
        if a != i && b != i {
          assert s.world.slots[a] == w.slots[a] && s.world.slots[b] == w.slots[b];
        }
      }
    }
  }

  /** Move assignment between two wrappers: on success slot i holds slot j's
      old number, slot j is unset, and exactly slot i's old descriptor is
      closed; on failure nothing changes. */
  lemma MoveIntoKeepsOwnership(w: World, i: nat, j: nat)
    requires Exclusive(w) && i < |w.slots| && j < |w.slots|
    ensures var s := MoveInto(w, i, j);
      Exclusive(s.world) &&
      (s.ok <==> i == j || Live(w.slots[j], w.open)) &&
      (!s.ok || i == j ==> s.world == w) &&
      (s.ok && i != j ==>
         s.world.slots[i] == w.slots[j] && Live(s.world.slots[i], s.world.open) &&
         s.world.slots[j] == UNSET_FD && s.world.open == w.open - {w.slots[i]} &&
         forall k :: 0 <= k < |w.slots| && k != i && k != j ==>
           s.world.slots[k] == w.slots[k] && (Live(w.slots[k], w.open) ==> Live(s.world.slots[k], s.world.open)))
  {
    var s := MoveInto(w, i, j);
    if s.ok && i != j {
      forall k | 0 <= k < |w.slots| && k != i && k != j && Live(w.slots[k], w.open)
        ensures Live(s.world.slots[k], s.world.open)
      {
        assert w.slots[k] != w.slots[i];
      }
      forall a, b | 0 <= a < |s.world.slots| && 0 <= b < |s.world.slots| && a != b && s.world.slots[a] != UNSET_FD
        ensures s.world.slots[a] != s.world.slots[b]
      {
        if a == i { assert b != j ==> s.world.slots[b] == w.slots[b]; }
        else if b == i { assert a != j ==> s.world.slots[a] == w.slots[a]; }
      }
    }
  }

  /** Assigning a raw number that no wrapper owns: on success slot i owns
      it and its previous descriptor is closed; on failure nothing changes. */
  lemma AdoptIntoKeepsOwnership(w: World, i: nat, raw: int)
    requires Exclusive(w) && i < |w.slots| && (raw == UNSET_FD || raw !in w.slots)
    ensures var s := AdoptInto(w, i, raw);
      Exclusive(s.world) &&
      (s.ok <==> Live(raw, w.open)) &&
      (!s.ok ==> s.world == w) &&
      (s.ok ==> s.world.slots == w.slots[i := raw] && Live(raw, s.world.open) &&
                s.world.open == w.open - {w.slots[i]})
  {
    var s := AdoptInto(w, i, raw);
    if !s.ok {
      assert s.world.slots == w.slots[i := w.slots[i]];
    } else {
      assert raw != w.slots[i];
      forall k | 0 <= k < |w.slots| && k != i && w.slots[k] != UNSET_FD
        ensures w.slots[k] in s.world.open
      {
        assert w.slots[k] != w.slots[i];
      }
    }
  }

  /** Release closes exactly the descriptor slot i owns, which no other
      wrapper owns and which is still open; every other wrapper stays as
      valid as it was, and a second release closes nothing. */
  lemma DropClosesOnce(w: World, i: nat)
    requires Exclusive(w) && i < |w.slots|
    ensures var s := Drop(w, i);
      Exclusive(s.world) &&
      (w.slots[i] != UNSET_FD ==> w.slots[i] in w.open && w.slots[i] !in s.world.open) &&
      (forall k :: 0 <= k < |w.slots| && k != i ==> w.slots[k] != w.slots[i] || w.slots[i] == UNSET_FD) &&
      (forall k :: 0 <= k < |w.slots| && k != i ==> (Live(w.slots[k], w.open) <==> Live(s.world.slots[k], s.world.open))) &&
      Drop(s.world, i) == s
  {
    var s := Drop(w, i);
    forall k | 0 <= k < |w.slots| && k != i
      ensures Live(w.slots[k], w.open) <==> Live(s.world.slots[k], s.world.open)
    {
      if w.slots[k] != UNSET_FD && w.slots[i] != UNSET_FD {
        assert w.slots[k] != w.slots[i];
      }
    }
  }

  /** Destroying the first n wrappers closes exactly the descriptors they
      own, leaves them unset, and touches no other wrapper. */
  lemma {:induction false} TeardownClosesOwned(w: World, n: nat)
    requires n <= |w.slots| && WellFormed(w.open)
    decreases n
    ensures var t := Teardown(w, n);
      t.open == w.open - (set k | 0 <= k < n :: w.slots[k]) &&
      |t.slots| == |w.slots| &&
      (forall k :: 0 <= k < n ==> t.slots[k] == UNSET_FD) &&
      (forall k :: n <= k < |w.slots| ==> t.slots[k] == w.slots[k])
  {
    if n > 0 {
      var v := Drop(w, n - 1).world;
      TeardownClosesOwned(v, n - 1);
      var before := set k | 0 <= k < n - 1 :: w.slots[k];
      assert (set k | 0 <= k < n - 1 :: v.slots[k]) == before by {
        forall k | 0 <= k < n - 1 ensures v.slots[k] == w.slots[k] { }
      }
      assert (set k | 0 <= k < n :: w.slots[k]) == before + {w.slots[n - 1]};
    }
  }

  /** Tearing every wrapper down leaks nothing it owned and closes nothing it
      did not own: what remains open is exactly what no wrapper held. */
  lemma TeardownLeaksNothing(w: World)
    requires Exclusive(w)
    ensures var t := Teardown(w, |w.slots|);
      (forall d :: d in t.open <==> d in w.open && d !in w.slots) &&
      forall k :: 0 <= k < |t.slots| ==> t.slots[k] == UNSET_FD
  {
    TeardownClosesOwned(w, |w.slots|);
    var owned := set k | 0 <= k < |w.slots| :: w.slots[k];
    forall d ensures d in owned <==> d in w.slots {
      if d in w.slots {
        var k :| 0 <= k < |w.slots| && w.slots[k] == d;
      }
    }
  }

  /** `FD(FD&&)` of slot i as the source has it: the new wrapper's
      uninitialised field holds `garbage` when `reset()` runs on it. */
  function TransferAsWritten(w: World, i: nat, garbage: int): Step
    requires i < |w.slots| && WellFormed(w.open)
  {
    var p := MoveConstructAsWritten(garbage, w.slots[i], w.open);
    if p.ok then Step(true, w.(open := p.open, slots := w.slots[i := p.src] + [p.dst])) else Step(false, w)
  }

  /** The move constructor as written: two wrappers own descriptors 3 and 4;
      moving the first while the new instance's uninitialised field holds 4
      closes 4 under the second wrapper, which is left holding a closed
      descriptor, so the world is no longer exclusive. The corrected move
      keeps the same world exclusive. */
  lemma MoveConstructAsWrittenClosesForeign()
    ensures var w := World({3, 4}, 8, [3, 4]);
      Exclusive(w) &&
      var s := TransferAsWritten(w, 0, 4);
      s.ok && s.world.slots[1] == 4 && !Live(s.world.slots[1], s.world.open) && !Exclusive(s.world) &&
      Exclusive(Transfer(w, 0).world)
  {
    var w := World({3, 4}, 8, [3, 4]);
    assert Live(3, w.open);
    var s := TransferAsWritten(w, 0, 4);
    assert w.open - {4} == {3};
    assert s.world.slots == [UNSET_FD, 4, 3];
    TransferKeepsOwnership(w, 0);
  }
}
