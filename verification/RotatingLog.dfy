/** The size-bounded log file (internal/daemon/log.go). A file is the sequence of writes it
    holds; file 0 is the current one, file i is the copy with suffix ".i". */
module RotatingLog {
  import opened Wrappers

  type Line = seq<int>

  type File = seq<Line>

  type Directory = map<int, File>

  function Bytes(f: File): nat {
    if f == [] then 0 else Bytes(f[..|f| - 1]) + |f[|f| - 1]|
  }

  /** Copies the limit allows; a negative limit keeps none. */
  function Kept(keep: int): nat { if keep < 0 then 0 else keep }

  /** All files from copy `n` down to the current one, joined. */
  ghost function Joined(d: Directory, n: nat): File {
    (if n in d then d[n] else []) + if n == 0 then [] else Joined(d, n - 1)
  }

  /** The current file and the first `m` copies exist, and nothing else. */
  ghost predicate Consecutive(d: Directory, m: nat) {
    forall i :: i in d <==> 0 <= i <= m
  }

  ghost function Prior(d: Directory, i: int): File { if i - 1 in d then d[i - 1] else [] }

  /** The copies after a rotation of `m` copies. */
  ghost function Copies(keep: int, m: nat): nat { if m < Kept(keep) then m + 1 else m }

  /** Every file moves one place up, the oldest falls off, and a new empty file is current. */
  ghost predicate Rotated(d: Directory, e: Directory, keep: int, m: nat) {
    && Consecutive(e, Copies(keep, m))
    && forall i :: 0 <= i <= Copies(keep, m) ==> e[i] == Prior(d, i)
  }

  function Rename(d: Directory, from: int, to: int): Directory
    requires from != to
  {
    if from in d then d[to := d[from]] - {from} else d
  }

  ghost predicate FitsUnlessSingle(f: File, max: int) {
    f == [] || Bytes(f) <= max || exists before, line :: f == before + [line] && Bytes(before) == 0
  }

  /** The joined files move one place up together. */
  lemma {:induction false} JoinedShift(d: Directory, e: Directory, n: nat)
    requires -1 !in d && forall i :: 0 <= i <= n ==> i in d
    requires forall i :: 0 <= i <= n + 1 ==> i in e && e[i] == Prior(d, i)
    ensures Joined(e, n + 1) == Joined(d, n)
  {
    hide Joined;
    JoinedNext(e, n + 1);
    JoinedNext(d, n);
    assert e[n + 1] == Prior(d, n + 1) == d[n];
    if n == 0 {
      JoinedNext(e, 0);
      assert e[0] == Prior(d, 0) == [];
      assert d[0] + [] == d[0];
    } else {
      JoinedShift(d, e, n - 1);
    }
  }

  lemma JoinedNext(d: Directory, n: nat)
    requires n in d
    ensures Joined(d, n) == if n == 0 then d[0] else d[n] + Joined(d, n - 1)
  {}

  /** Rotation loses nothing while there is room for another copy, and otherwise exactly
      the oldest file. */
  lemma RotationDrops(d: Directory, e: Directory, keep: int, m: nat)
    requires Consecutive(d, m) && m <= Kept(keep) && Rotated(d, e, keep, m)
    ensures Joined(d, m) == (if m < Kept(keep) then [] else d[m]) + Joined(e, Copies(keep, m))
  {
    if m < Kept(keep) {
      JoinedShift(d, e, m);
    } else if m > 0 {
      JoinedShift(d, e, m - 1);
    } else {
      assert e[0] == Prior(d, 0);
    }
  }

  // ---------------------------------------------------------------------------
  // The renaming loop
  // ---------------------------------------------------------------------------

  /** Copies `i + 1` and above have been moved one place up; `i` and below have not. */
  ghost predicate Shifting(d: Directory, e: Directory, keep: int, i: int) {
    && (forall j :: j in e ==> 0 <= j <= keep)
    && (forall j :: j <= i ==> (j in e <==> j in d) && (j in e ==> e[j] == d[j]))
    && (i + 1 in e ==> i + 1 == keep && keep in d)
    && (forall j :: i + 2 <= j <= keep ==> (j in e <==> j - 1 in d) && (j in e ==> e[j] == Prior(d, j)))
  }

  lemma ShiftStep(d: Directory, e: Directory, keep: int, i: int, m: nat)
    requires Consecutive(d, m) && m <= keep && 0 <= i < keep && Shifting(d, e, keep, i)
    ensures Shifting(d, Rename(e, i, i + 1), keep, i - 1)
  {}

  lemma ShiftDone(d: Directory, e: Directory, keep: int, m: nat)
    requires Consecutive(d, m) && m <= keep && 1 <= keep && Shifting(d, e, keep, -1)
    ensures 0 !in e && Rotated(d, e[0 := []], keep, m)
  {
    hide Prior;
    var r, n := e[0 := []], Copies(keep, m);
    forall i: int ensures i in r <==> 0 <= i <= n { ShiftedTo(d, e, keep, m, i); }
    forall i: int | 0 <= i <= n ensures r[i] == Prior(d, i) { ShiftedTo(d, e, keep, m, i); }
  }

  /** Where file `i` is after the renames, and with a new current file. */
  ghost predicate ShiftedAt(d: Directory, e: Directory, n: nat, i: int) {
    && (i in e[0 := []] <==> 0 <= i <= n)
    && (0 <= i <= n ==> e[0 := []][i] == Prior(d, i))
  }

  lemma ShiftedTo(d: Directory, e: Directory, keep: int, m: nat, i: int)
    requires Consecutive(d, m) && m <= keep && 1 <= keep && Shifting(d, e, keep, -1)
    ensures ShiftedAt(d, e, Copies(keep, m), i)
  {
    assert i in d <==> 0 <= i <= m;
    assert i - 1 in d <==> 0 <= i - 1 <= m;
  }

  // ---------------------------------------------------------------------------
  // What the retained files hold
  // ---------------------------------------------------------------------------

  /** The retained files, oldest copy first, are everything written but the first `dropped`
      writes; nothing is dropped before all copies are in use; and a file is above the
      limit only if a single write is. */
  ghost predicate Retained(d: Directory, m: nat, max: int, keep: int, written: File, dropped: nat) {
    && Consecutive(d, m) && m <= Kept(keep)
    && dropped <= |written| && written[dropped..] == Joined(d, m)
    && (m < Kept(keep) ==> dropped == 0)
    && forall i :: i in d ==> FitsUnlessSingle(d[i], max)
  }

  lemma CurrentExists(d: Directory, m: nat, max: int, keep: int, written: File, dropped: nat)
    requires Retained(d, m, max, keep, written, dropped)
    ensures 0 in d && m in d && Consecutive(d, m) && m <= Kept(keep)
  {}

  lemma RotationFits(d: Directory, e: Directory, m: nat, max: int, keep: int)
    requires Consecutive(d, m) && Rotated(d, e, keep, m)
    requires forall i :: i in d ==> FitsUnlessSingle(d[i], max)
    ensures forall i :: i in e ==> FitsUnlessSingle(e[i], max)
  {}

  lemma DropMore(written: File, dropped: nat, lost: File, rest: File)
    requires dropped <= |written| && written[dropped..] == lost + rest
    ensures dropped + |lost| <= |written| && written[dropped + |lost|..] == rest
  {}

  /** How many writes fall off with the oldest of `m` copies. */
  ghost function Lost(d: Directory, keep: int, m: nat): nat {
    if m < Kept(keep) || m !in d then 0 else |d[m]|
  }

  lemma RotatedNames(d: Directory, e: Directory, keep: int, m: nat)
    requires Rotated(d, e, keep, m)
    ensures Consecutive(e, Copies(keep, m))
  {}

  lemma RotationRetains(d: Directory, e: Directory, m: nat, max: int, keep: int, written: File, dropped: nat)
    requires Retained(d, m, max, keep, written, dropped) && Rotated(d, e, keep, m)
    ensures Retained(e, Copies(keep, m), max, keep, written, dropped + Lost(d, keep, m))
  {
    hide FitsUnlessSingle, Joined, Rotated, Prior;
    RotationDrops(d, e, keep, m);
    RotationFits(d, e, m, max, keep);
    RotatedNames(d, e, keep, m);
    DropMore(written, dropped, if m < Kept(keep) then [] else d[m], Joined(e, Copies(keep, m)));
  }

  lemma {:induction false} AppendJoined(d: Directory, n: nat, p: Line)
    requires 0 in d
    ensures Joined(d[0 := d[0] + [p]], n) == Joined(d, n) + [p]
  {
    hide Joined;
    var e, f := d[0 := d[0] + [p]], if n in d then d[n] else [];
    JoinedAny(d, n);
    JoinedAny(e, n);
    if n > 0 {
      AppendJoined(d, n - 1, p);
      assert f + (Joined(d, n - 1) + [p]) == f + Joined(d, n - 1) + [p];
    }
  }

  lemma JoinedAny(d: Directory, n: nat)
    ensures Joined(d, n) == (if n in d then d[n] else []) + if n == 0 then [] else Joined(d, n - 1)
  {}

  lemma NoBytes()
    ensures Bytes([]) == 0
  {}

  lemma BytesAppend(f: File, p: Line)
    ensures Bytes(f + [p]) == Bytes(f) + |p|
  {}

  lemma AppendRetains(d: Directory, p: Line, m: nat, max: int, keep: int, written: File, dropped: nat)
    requires Retained(d, m, max, keep, written, dropped)
    requires Bytes(d[0]) == 0 || Bytes(d[0]) + |p| <= max
    ensures Retained(d[0 := d[0] + [p]], m, max, keep, written + [p], dropped)
  {
    AppendJoined(d, m, p);
    BytesAppend(d[0], p);
    assert FitsUnlessSingle(d[0] + [p], max);
    assert (written + [p])[dropped..] == written[dropped..] + [p];
  }

  /** File `i + 1` had no room for the write that opened file `i`. */
  ghost predicate NoRoom(d: Directory, i: nat, max: int) {
    i in d && i + 1 in d && d[i] != [] && Bytes(d[i + 1]) > 0 && Bytes(d[i + 1]) + |d[i][0]| > max
  }

  /** No file was closed early. */
  ghost predicate ClosedWhenFull(d: Directory, m: nat, max: int) {
    forall i: nat :: i < m ==> NoRoom(d, i, max)
  }

  lemma RotationClosesFull(d: Directory, e: Directory, p: Line, m: nat, max: int, keep: int)
    requires Consecutive(d, m) && m <= Kept(keep) && ClosedWhenFull(d, m, max)
    requires Rotated(d, e, keep, m) && Bytes(d[0]) > 0 && Bytes(d[0]) + |p| > max
    ensures 0 in e && ClosedWhenFull(e[0 := e[0] + [p]], Copies(keep, m), max)
  {
    hide Bytes;
    assert e[0] == Prior(d, 0) == [];
    var r := e[0 := e[0] + [p]];
    forall i: nat | i < Copies(keep, m)
      ensures NoRoom(r, i, max)
    {
      assert e[i + 1] == Prior(d, i + 1) == d[i];
      if i > 0 {
        assert NoRoom(d, i - 1, max);
        assert e[i] == Prior(d, i);
      }
    }
  }

  lemma AppendClosesFull(d: Directory, p: Line, m: nat, max: int)
    requires 0 in d && ClosedWhenFull(d, m, max)
    ensures ClosedWhenFull(d[0 := d[0] + [p]], m, max)
  {
    hide Bytes;
    var r := d[0 := d[0] + [p]];
    forall i: nat | i < m
      ensures NoRoom(r, i, max)
    {
      assert NoRoom(d, i, max);
    }
  }

  /** The current file takes the next write, and then no file has been closed early. */
  ghost predicate Ready(d: Directory, p: Line, m: nat, max: int) {
    && 0 in d && (Bytes(d[0]) == 0 || Bytes(d[0]) + |p| <= max)
    && ClosedWhenFull(d[0 := d[0] + [p]], m, max)
  }

  lemma ReadyAsIs(d: Directory, p: Line, m: nat, max: int)
    requires 0 in d && ClosedWhenFull(d, m, max) && (Bytes(d[0]) == 0 || Bytes(d[0]) + |p| <= max)
    ensures Ready(d, p, m, max)
  {
    hide ClosedWhenFull;
    AppendClosesFull(d, p, m, max);
  }

  lemma ReadyRotated(d: Directory, e: Directory, p: Line, m: nat, max: int, keep: int)
    requires Consecutive(d, m) && m <= Kept(keep) && ClosedWhenFull(d, m, max)
    requires Rotated(d, e, keep, m) && Bytes(d[0]) > 0 && Bytes(d[0]) + |p| > max && 0 in e && Bytes(e[0]) == 0
    ensures Ready(e, p, Copies(keep, m), max)
  {
    hide ClosedWhenFull, Rotated;
    RotationClosesFull(d, e, p, m, max, keep);
  }

  /** The write itself. */
  lemma Written(d: Directory, p: Line, m: nat, max: int, keep: int, written: File, dropped: nat)
    requires Retained(d, m, max, keep, written, dropped) && Ready(d, p, m, max)
    ensures
      var e := d[0 := d[0] + [p]];
      && Retained(e, m, max, keep, written + [p], dropped) && ClosedWhenFull(e, m, max)
      && Bytes(e[0]) == Bytes(d[0]) + |p|
  {
    hide Retained, ClosedWhenFull;
    AppendRetains(d, p, m, max, keep, written, dropped);
    BytesAppend(d[0], p);
  }

  datatype Error = Closed

  class Log {
    const max: int
    const keep: int
    var dir: Directory
    var open: bool
    var size: int
    // What every write so far put in, and how much of it rotation has dropped.
    ghost var written: File
    ghost var dropped: nat
    ghost var copies: nat

    ghost predicate Valid()
      reads this
    {
      && Retained(dir, copies, max, keep, written, dropped)
      && ClosedWhenFull(dir, copies, max)
      && (open ==> size == Bytes(dir[0]))
    }

    constructor (max: int, keep: int)
      ensures Valid() && this.max == max && this.keep == keep
      ensures open && written == [] && dir == map[0 := []]
    {
      this.max, this.keep := max, keep;
      dir, open, size := map[0 := []], true, 0;
      written, dropped, copies := [], 0, 0;
    }

    method Open()
      requires Valid()
      modifies this`open, this`size
      ensures Valid() && open
    {
      open, size := true, Bytes(dir[0]);
    }

    method Close()
      requires Valid()
      modifies this`open
      ensures Valid() && !open
    {
      open := false;
    }

    /** The renames of a rotation, oldest first. */
    method MoveUp(ghost m: nat)
      requires Consecutive(dir, m) && m <= Kept(keep)
      modifies this`dir
      ensures 0 !in dir && Rotated(old(dir), dir[0 := []], keep, m)
    {
      ghost var d := dir;
      var i := keep - 1;
      while i >= 1
        invariant keep >= 1 ==> i >= 0
        invariant i <= keep - 1 && (if keep >= 1 then Shifting(d, dir, keep, i) else dir == d)
      {
        ShiftStep(d, dir, keep, i, m);
        dir := Rename(dir, i, i + 1);
        i := i - 1;
      }
      if keep >= 1 {
        ShiftStep(d, dir, keep, 0, m);
        dir := Rename(dir, 0, 1);
        ShiftDone(d, dir, keep, m);
      } else {
        dir := dir - {0};
      }
    }

    method Rotate()
      requires Retained(dir, copies, max, keep, written, dropped)
      modifies this`dir, this`open, this`size, this`copies, this`dropped
      ensures Rotated(old(dir), dir, keep, old(copies)) && copies == Copies(keep, old(copies))
      ensures Retained(dir, copies, max, keep, written, dropped)
      ensures open && 0 in dir && size == Bytes(dir[0]) == 0
    {
      ghost var d, m := dir, copies;
      CurrentExists(d, m, max, keep, written, dropped);
      hide Retained, Rotated, Consecutive, Bytes, Joined, Kept, Copies;
      open := false;
      MoveUp(copies);
      if 0 !in dir {
        dir := dir[0 := []];
      }
      open, size := true, Bytes(dir[0]);
      NoBytes();
      RotationRetains(d, dir, m, max, keep, written, dropped);
      dropped := dropped + Lost(d, keep, m);
      copies := Copies(keep, m);
    }

    /** Rotating if the current file has no room for `p`. */
    method MakeRoom(p: Line)
      requires Valid() && open
      modifies this`dir, this`open, this`size, this`copies, this`dropped
      ensures open && Retained(dir, copies, max, keep, written, dropped) && Ready(dir, p, copies, max)
      ensures 0 in dir && size == Bytes(dir[0])
    {
      CurrentExists(dir, copies, max, keep, written, dropped);
      hide Retained, Rotated, Bytes, ClosedWhenFull, Ready, Consecutive;
      if size > 0 && size + |p| > max {
        ghost var d, m := dir, copies;
        Rotate();
        ReadyRotated(d, dir, p, m, max, keep);
      } else {
        ReadyAsIs(dir, p, copies, max);
      }
    }

    method Write(p: Line) returns (r: Result<nat, Error>)
      requires Valid()
      modifies this
      ensures Valid()
      ensures r == if old(open) then Success(|p|) else Failure(Closed)
      ensures written == old(written) + if old(open) then [p] else []
      ensures open == old(open) && (!open ==> dir == old(dir) && dropped == old(dropped))
    {
      if !open {
        return Failure(Closed);
      }
      hide Retained, Bytes, ClosedWhenFull, Ready;
      MakeRoom(p);
      Written(dir, p, copies, max, keep, written, dropped);
      dir := dir[0 := dir[0] + [p]];
      size := size + |p|;
      written := written + [p];
      return Success(|p|);
    }
  }
}
