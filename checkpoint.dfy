/**
 * Checkpoint rotation of `ModelCheckpointKeepLastSaver`.
 *
 * The file system is a map from file names to their contents; only regular
 * files are in it.  The saver manages the names
 *   filename, filename-1, ..., filename-(keepLast-1)
 * ("slots" 0 .. keepLast-1) as a shift register: each call moves every
 * existing version one slot up, dropping what was in the last slot, and then
 * writes the model's current state into slot 0.
 */
module Checkpoint {
  import opened Decimal

  type Bytes = seq<bv8>
  type Files = map<string, Bytes>

  /** Name of slot `k`: the base file for k == 0, `filename-k` otherwise. */
  function SlotName(filename: string, k: nat): string
  {
    if k == 0 then filename else filename + "-" + NatToString(k)
  }

  /** Different slots never share a name, whatever the base name is. */
  lemma SlotNameInjective(filename: string, a: nat, b: nat)
    ensures SlotName(filename, a) == SlotName(filename, b) <==> a == b
  {
    var sa, sb := SlotName(filename, a), SlotName(filename, b);
    if a != 0 && b != 0 && sa == sb {
      assert sa[|filename| + 1..] == NatToString(a);
      assert sb[|filename| + 1..] == NatToString(b);
      NatToStringInjective(a, b);
    }
  }

  lemma SlotNamesDistinct(filename: string)
    ensures forall a: nat, b: nat :: SlotName(filename, a) == SlotName(filename, b) ==> a == b
  {
    forall a: nat, b: nat | SlotName(filename, a) == SlotName(filename, b) ensures a == b {
      SlotNameInjective(filename, a, b);
    }
  }

  /** `k1` in `m1` and `k2` in `m2` are both absent, or both present with equal contents. */
  predicate SameEntry(m1: Files, k1: string, m2: Files, k2: string)
  {
    (k1 in m1 <==> k2 in m2) && (k1 in m1 ==> m1[k1] == m2[k2])
  }

  /** POSIX `rename(src, dst)`: `dst` is replaced by the contents of `src`, and `src` disappears. */
  function Renamed(files: Files, src: string, dst: string): Files
    requires src in files
  {
    (files - {src})[dst := files[src]]
  }

  /** One iteration of the rotation loop: renames slot i-1 onto slot i when slot i-1 is a file. */
  function RenameStep(files: Files, filename: string, i: nat): Files
    requires i >= 1
  {
    var newer := SlotName(filename, i - 1);
    if newer in files then Renamed(files, newer, SlotName(filename, i)) else files
  }

  /** The file map after the loop has run its iterations top, top-1, ..., i+1, in that order. */
  function ShiftFrom(files: Files, filename: string, top: int, i: nat): Files
    decreases top - i
  {
    if i >= top then files
    else RenameStep(ShiftFrom(files, filename, top, i + 1), filename, i + 1)
  }

  /** What one call leaves behind: the whole loop, then the state saved under the base name. */
  function Rotated(files: Files, filename: string, keepLast: int, state: Bytes): Files
  {
    ShiftFrom(files, filename, keepLast - 1, 0)[filename := state]
  }

  /** `n` is one of slots lo .. hi. */
  ghost predicate InWindow(filename: string, lo: nat, hi: int, n: string)
  {
    exists j: nat :: lo <= j <= hi && n == SlotName(filename, j)
  }

  /** `n` is one of the names a saver with this base name and bound manages. */
  ghost predicate Managed(filename: string, keepLast: int, n: string)
  {
    n == filename || InWindow(filename, 1, keepLast - 1, n)
  }

  /**
   * The rotation, slot by slot, independently of the loop that performs it:
   * slot 0 holds the new state; slot i (1 <= i < keepLast-1) holds what slot
   * i-1 held, and is absent when slot i-1 was; the last slot holds what slot
   * keepLast-2 held if it was a file, and otherwise keeps its own contents;
   * every other name is as it was.
   */
  ghost predicate RotationSpec(before: Files, after: Files, filename: string, keepLast: int, state: Bytes)
  {
    && filename in after && after[filename] == state
    && (forall i: nat :: 1 <= i < keepLast - 1 ==>
          SameEntry(before, SlotName(filename, i - 1), after, SlotName(filename, i)))
    && (keepLast >= 2 ==>
          var top := SlotName(filename, keepLast - 1);
          if SlotName(filename, keepLast - 2) in before
          then SameEntry(before, SlotName(filename, keepLast - 2), after, top)
          else SameEntry(before, top, after, top))
    && (forall n :: !Managed(filename, keepLast, n) ==> SameEntry(before, n, after, n))
  }

  /** The shape of the file map after the loop iterations top .. i+1 (for i < top). */
  ghost predicate ShiftedShape(files: Files, r: Files, filename: string, top: int, i: nat)
  {
    && (forall n :: !(i < top && InWindow(filename, i, top, n)) ==> SameEntry(files, n, r, n))
    && (i < top ==> SlotName(filename, i) !in r)
    && (forall j: nat :: i < j < top ==>
          SameEntry(files, SlotName(filename, j - 1), r, SlotName(filename, j)))
    && (i < top ==>
          if SlotName(filename, top - 1) in files
          then SameEntry(files, SlotName(filename, top - 1), r, SlotName(filename, top))
          else SameEntry(files, SlotName(filename, top), r, SlotName(filename, top)))
  }

  /** A name outside slots lo+1 .. hi that is not slot lo is outside slots lo .. hi. */
  lemma WindowShrink(filename: string, lo: nat, hi: int, n: string)
    requires lo <= hi
    requires !InWindow(filename, lo, hi, n)
    ensures !InWindow(filename, lo + 1, hi, n) && n != SlotName(filename, lo)
  {
  }

  /** Iteration i, name by name: slot i-1 moves to slot i, every other name stays. */
  lemma RenameStepAt(r: Files, filename: string, i: nat)
    requires i >= 1
    ensures var src, dst, r' := SlotName(filename, i - 1), SlotName(filename, i), RenameStep(r, filename, i);
      && (src in r ==> SameEntry(r, src, r', dst))
      && (src !in r ==> r' == r)
      && src !in r'
      && (forall n :: n != src && n != dst ==> SameEntry(r, n, r', n))
  {
    SlotNameInjective(filename, i - 1, i);
  }

  /** Names outside the window are untouched by iteration i+1. */
  lemma StepKeepsOutside(files: Files, r': Files, filename: string, top: int, i: nat)
    requires i < top
    requires ShiftedShape(files, r', filename, top, i + 1)
    ensures forall n :: !InWindow(filename, i, top, n) ==> SameEntry(files, n, RenameStep(r', filename, i + 1), n)
  {
    RenameStepAt(r', filename, i + 1);
    forall n | !InWindow(filename, i, top, n) ensures SameEntry(files, n, RenameStep(r', filename, i + 1), n) {
      WindowShrink(filename, i, top, n);
      assert n != SlotName(filename, i + 1);
    }
  }

  /** Iteration i+1 moves slot i, which no earlier iteration touched, to slot i+1. */
  lemma StepMovesSlot(files: Files, r': Files, filename: string, top: int, i: nat)
    requires i < top
    requires ShiftedShape(files, r', filename, top, i + 1)
    ensures var r := RenameStep(r', filename, i + 1);
      && SlotName(filename, i) !in r
      && (i + 1 < top ==> SameEntry(files, SlotName(filename, i), r, SlotName(filename, i + 1)))
      && (i + 1 == top ==>
            if SlotName(filename, i) in files
            then SameEntry(files, SlotName(filename, i), r, SlotName(filename, top))
            else SameEntry(files, SlotName(filename, top), r, SlotName(filename, top)))
  {
    var src := SlotName(filename, i);
    RenameStepAt(r', filename, i + 1);
    forall j: nat | i + 1 <= j <= top ensures SlotName(filename, j) != src {
      SlotNameInjective(filename, i, j);
    }
    assert !InWindow(filename, i + 1, top, src);
    assert SameEntry(files, src, r', src);
  }

  /** Slots above i+1 are untouched by iteration i+1. */
  lemma StepKeepsUpper(files: Files, r': Files, filename: string, top: int, i: nat)
    requires i < top
    requires ShiftedShape(files, r', filename, top, i + 1)
    ensures var r := RenameStep(r', filename, i + 1);
      && (forall j: nat :: i + 1 < j < top ==>
            SameEntry(files, SlotName(filename, j - 1), r, SlotName(filename, j)))
      && (i + 1 < top ==>
            if SlotName(filename, top - 1) in files
            then SameEntry(files, SlotName(filename, top - 1), r, SlotName(filename, top))
            else SameEntry(files, SlotName(filename, top), r, SlotName(filename, top)))
  {
    var r := RenameStep(r', filename, i + 1);
    RenameStepAt(r', filename, i + 1);
    forall j: nat | i + 1 < j <= top
      ensures SameEntry(r', SlotName(filename, j), r, SlotName(filename, j))
    {
      SlotNameInjective(filename, i, j);
      SlotNameInjective(filename, i + 1, j);
    }
  }

  /** Running iteration i+1 turns the shape for i+1 into the shape for i. */
  lemma StepKeepsShape(files: Files, r': Files, filename: string, top: int, i: nat)
    requires i < top
    requires ShiftedShape(files, r', filename, top, i + 1)
    ensures ShiftedShape(files, RenameStep(r', filename, i + 1), filename, top, i)
  {
    StepKeepsOutside(files, r', filename, top, i);
    StepMovesSlot(files, r', filename, top, i);
    StepKeepsUpper(files, r', filename, top, i);
  }

  /** The shape of the file map part-way through the loop. */
  lemma {:induction false} ShiftFromShape(files: Files, filename: string, top: int, i: nat)
    requires i <= top
    ensures ShiftedShape(files, ShiftFrom(files, filename, top, i), filename, top, i)
    decreases top - i
  {
    if i < top {
      ShiftFromShape(files, filename, top, i + 1);
      StepKeepsShape(files, ShiftFrom(files, filename, top, i + 1), filename, top, i);
    }
  }

  /** A name none of the managed names equals lies outside slots 0 .. keepLast-1. */
  lemma OutsideWindow(filename: string, keepLast: int, n: string)
    requires !Managed(filename, keepLast, n)
    ensures !InWindow(filename, 0, keepLast - 1, n)
  {
    forall j: nat | j <= keepLast - 1 ensures n != SlotName(filename, j) {
      if j > 0 {
        assert InWindow(filename, 1, keepLast - 1, SlotName(filename, j));
      }
    }
  }

  /** The call meets the slot-by-slot description. */
  lemma RotatedMeetsSpec(files: Files, filename: string, keepLast: int, state: Bytes)
    ensures RotationSpec(files, Rotated(files, filename, keepLast, state), filename, keepLast, state)
  {
    var top := keepLast - 1;
    var r := Rotated(files, filename, keepLast, state);
    if top <= 0 {
      assert ShiftFrom(files, filename, top, 0) == files;
      forall n | !Managed(filename, keepLast, n) ensures SameEntry(files, n, r, n) {
        assert n != filename;
      }
    } else {
      ShiftFromShape(files, filename, top, 0);
      forall n | !Managed(filename, keepLast, n) ensures SameEntry(files, n, r, n) {
        OutsideWindow(filename, keepLast, n);
      }
      forall i: nat | 1 <= i < keepLast - 1
        ensures SameEntry(files, SlotName(filename, i - 1), r, SlotName(filename, i))
      {
        SlotNameInjective(filename, 0, i);
      }
      SlotNameInjective(filename, 0, top);
    }
  }

  /** The slot-by-slot description pins the result down completely. */
  lemma RotationSpecUnique(before: Files, a1: Files, a2: Files, filename: string, keepLast: int, state: Bytes)
    requires RotationSpec(before, a1, filename, keepLast, state)
    requires RotationSpec(before, a2, filename, keepLast, state)
    ensures a1 == a2
  {
    forall n ensures (n in a1 <==> n in a2) && (n in a1 ==> a1[n] == a2[n]) {
      if n == filename {
      } else if Managed(filename, keepLast, n) {
        var j: nat :| 1 <= j <= keepLast - 1 && n == SlotName(filename, j);
        if j < keepLast - 1 {
          assert SameEntry(before, SlotName(filename, j - 1), a1, n);
          assert SameEntry(before, SlotName(filename, j - 1), a2, n);
        }
      } else {
        assert SameEntry(before, n, a1, n) && SameEntry(before, n, a2, n);
      }
    }
    assert a1.Keys == a2.Keys;
  }

  /** Shift by one: every slot whose predecessor existed now holds the predecessor's old contents. */
  lemma ShiftByOne(files: Files, filename: string, keepLast: int, state: Bytes, i: nat)
    requires 1 <= i < keepLast
    requires SlotName(filename, i - 1) in files
    ensures var r := Rotated(files, filename, keepLast, state);
      SlotName(filename, i) in r && r[SlotName(filename, i)] == files[SlotName(filename, i - 1)]
  {
    RotatedMeetsSpec(files, filename, keepLast, state);
  }

  /**
   * A slot whose predecessor was not a file: the last slot keeps its contents,
   * any lower slot is absent afterwards (its own version moved up a slot).
   */
  lemma MissingPredecessor(files: Files, filename: string, keepLast: int, state: Bytes, i: nat)
    requires 1 <= i < keepLast
    requires SlotName(filename, i - 1) !in files
    ensures var r := Rotated(files, filename, keepLast, state);
      if i == keepLast - 1
      then SameEntry(files, SlotName(filename, i), r, SlotName(filename, i))
      else SlotName(filename, i) !in r
  {
    RotatedMeetsSpec(files, filename, keepLast, state);
  }

  /** Slots `filename-k` with k >= keepLast are never touched. */
  lemma OlderSlotsUntouched(files: Files, filename: string, keepLast: int, state: Bytes, k: nat)
    requires 1 <= k && keepLast <= k
    ensures SameEntry(files, SlotName(filename, k), Rotated(files, filename, keepLast, state), SlotName(filename, k))
  {
    RotatedMeetsSpec(files, filename, keepLast, state);
    SlotNamesDistinct(filename);
    assert !Managed(filename, keepLast, SlotName(filename, k));
  }

  /** With keepLast <= 1 there is nothing to rotate: only the base file is written. */
  lemma SmallKeepLastOnlySaves(files: Files, filename: string, keepLast: int, state: Bytes)
    requires keepLast <= 1
    ensures Rotated(files, filename, keepLast, state) == files[filename := state]
  {
    RotatedMeetsSpec(files, filename, keepLast, state);
    RotationSpecUnique(files, Rotated(files, filename, keepLast, state), files[filename := state],
                       filename, keepLast, state);
  }

  /**
   * The oldest version is dropped: when slot keepLast-2 existed, every managed
   * slot afterwards holds either the new state (slot 0) or what the slot below
   * it held, so the old contents of slot keepLast-1 are kept under no name of
   * the window.
   */
  lemma OldestVersionDropped(files: Files, filename: string, keepLast: int, state: Bytes, k: nat)
    requires 2 <= keepLast && SlotName(filename, keepLast - 2) in files
    requires k < keepLast && SlotName(filename, k) in Rotated(files, filename, keepLast, state)
    ensures var r := Rotated(files, filename, keepLast, state);
      if k == 0 then r[filename] == state
      else SlotName(filename, k - 1) in files && r[SlotName(filename, k)] == files[SlotName(filename, k - 1)]
  {
    RotatedMeetsSpec(files, filename, keepLast, state);
  }

  /** The file system the saver works on; only regular files are in `files`. */
  class FileSystem {
    var files: Files

    constructor (initial: Files)
      ensures files == initial
    {
      files := initial;
    }

    /** `os.path.isfile`. */
    method IsFile(name: string) returns (b: bool)
      ensures b <==> name in files
    {
      b := name in files;
    }

    /** `os.rename`, which replaces an existing target. */
    method Rename(src: string, dst: string)
      requires src in files
      modifies this
      ensures files == Renamed(old(files), src, dst)
      ensures dst in files && files[dst] == old(files)[src]
      ensures src != dst ==> src !in files
    {
      files := Renamed(files, src, dst);
    }

    /** `torch.save` of already serialised contents: creates or overwrites `name`. */
    method Save(name: string, data: Bytes)
      modifies this
      ensures files == old(files)[name := data]
    {
      files := files[name := data];
    }
  }

  class ModelCheckpointKeepLastSaver {
    const filename: string
    const keepLast: int

    constructor (filename: string, keepLast: int := 5)
      ensures this.filename == filename && this.keepLast == keepLast
    {
      this.filename := filename;
      this.keepLast := keepLast;
    }

    /** Rotate the saved versions one slot up and save `state` (the serialised state dict) as the base file. */
    method Call(fs: FileSystem, state: Bytes)
      modifies fs
      ensures fs.files == Rotated(old(fs.files), filename, keepLast, state)
      ensures RotationSpec(old(fs.files), fs.files, filename, keepLast, state)
    {
      if keepLast >= 1 {
        for i := keepLast downto 1
          invariant fs.files == ShiftFrom(old(fs.files), filename, keepLast - 1, i - 1)
        {
          var older := filename + "-" + NatToString(i);
          var newer := if i > 1 then filename + "-" + NatToString(i - 1) else filename;
          assert older == SlotName(filename, i) && newer == SlotName(filename, i - 1);
          var isFile := fs.IsFile(newer);
          if isFile {
            fs.Rename(newer, older);
          }
        }
      }
      fs.Save(filename, state);
      RotatedMeetsSpec(old(fs.files), filename, keepLast, state);
    }
  }
}
