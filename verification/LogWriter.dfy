/** The size-bounded service log: an active file and numbered slots of history. */
module LogWriter {

  newtype Byte = x: int | 0 <= x < 256

  type Bytes = seq<Byte>

  /** The log's files: slot zero is the active file, slot one the newest history. */
  type Slots = map<nat, Bytes>

  function Get(slots: Slots, i: nat): Bytes {
    if i in slots then slots[i] else []
  }

  /** What is retained from slot `top` to the active file, oldest first. */
  function Retained(slots: Slots, top: nat): Bytes {
    Get(slots, top) + if top == 0 then [] else Retained(slots, top - 1)
  }

  ghost predicate Suffix(a: Bytes, b: Bytes) {
    |a| <= |b| && b[|b| - |a|..] == a
  }

  /** `after` keeps everything of `before`, or everything but its oldest slot. */
  ghost predicate DropsAtMostOldest(before: Slots, after: Slots, top: nat) {
    || Retained(before, top) == Retained(after, top)
    || Retained(before, top) == Get(before, top) + Retained(after, top)
  }

  /** The payload follows what was retained, of which at most the oldest slot is gone. */
  ghost predicate LosesAtMostOldest(before: Slots, after: Slots, top: nat, payload: Bytes) {
    || Retained(after, top) == Retained(before, top) + payload
    || Get(before, top) + Retained(after, top) == Retained(before, top) + payload
  }

  /** Slot `i` after the history has been shifted one slot back, when `top` is the oldest slot. */
  ghost predicate ShiftedAt(before: Slots, after: Slots, top: nat, i: nat) {
    if i == 0 || i > top || top == 1 then SameAt(before, after, i)
    else if i == 1 then i !in after
    else if i - 1 in before then i in after && after[i] == before[i - 1]
    else if i == top then SameAt(before, after, i)
    else i !in after
  }

  /** No file is larger than the bound, or than the largest payload. */
  ghost predicate Small(slots: Slots, top: nat, maxBytes: int, largest: nat) {
    forall i :: i in slots && i <= top ==> |slots[i]| <= maxBytes || |slots[i]| <= largest
  }

  ghost predicate SameAt(before: Slots, after: Slots, i: nat) {
    (i in after <==> i in before) && (i in before ==> after[i] == before[i])
  }

  ghost predicate Shifted(before: Slots, after: Slots, top: nat) {
    forall i :: ShiftedAt(before, after, top, i)
  }

  // ---------------------------------------------------------------------------
  // The writer
  // ---------------------------------------------------------------------------

  class RotatingLog {
    const maxBytes: int
    const maxFiles: int
    var slots: Slots
    var open: bool
    var written: int

    /** Everything that was ever written, the largest payload, and whether the active file could
        not be renamed once. */
    ghost var history: Bytes
    ghost var largest: nat
    ghost var stuck: bool

    /** The oldest slot that is used. */
    function Top(): (r: nat)
      ensures r >= 1
    {
      if maxFiles < 1 then 1 else maxFiles
    }

    ghost predicate Valid()
      reads this
    {
      && (open ==> 0 in slots && written == |slots[0]|)
      && Suffix(Retained(slots, Top()), history)
      && (!stuck ==> Small(slots, Top(), maxBytes, largest))
    }

    /** NewRotatingLog, over an empty directory. */
    constructor (maxBytes: int, maxFiles: int, openFails: bool)
      ensures Valid() && history == [] && largest == 0 && !stuck
      ensures this.maxBytes == maxBytes && this.maxFiles == maxFiles
    {
      this.maxBytes, this.maxFiles := maxBytes, maxFiles;
      slots, open, written := map[], false, 0;
      history, largest, stuck := [], 0, false;
      new;
      RetainsNothing(map[], Top());
      var ok := Open(openFails);
    }

    /** open: append to what is there. */
    method Open(fails: bool) returns (ok: bool)
      requires Valid()
      modifies `slots, `open, `written
      ensures Valid() && ok == open && (ok <==> old(open) || !fails)
      ensures slots == if ok && 0 !in old(slots) then old(slots)[0 := []] else old(slots)
      ensures old(open) ==> written == old(written)
      ensures Retained(slots, Top()) == Retained(old(slots), Top())
    {
      if open {
        return true;
      }
      if fails {
        return false;
      }
      ghost var before := slots;
      if 0 !in slots {
        slots := slots[0 := []];
      }
      open, written := true, |slots[0]|;
      SameRetained(before, slots, Top());
      ok := true;
    }

    /** rotate's loop: from the oldest slot down, each file moves one slot back. */
    method ShiftHistory()
      modifies `slots
      ensures Shifted(old(slots), slots, Top())
    {
      var index := maxFiles - 1;
      ghost var before, top := slots, Top();
      while index >= 1
        invariant index >= 1 || (if maxFiles <= 1 then slots == before else index == 0)
        invariant index <= maxFiles - 1
        invariant maxFiles > 1 ==> Midway(before, slots, top, index)
      {
        ghost var now := slots;
        if index in slots {
          var content := slots[index];
          slots := (slots - {index, index + 1})[index + 1 := content];
        }
        MidwayOn(before, now, slots, top, index, index - 1);
        index := index - 1;
      }
      if maxFiles > 1 {
        assert forall i :: MidwayAt(before, slots, top, 0, i) ==> ShiftedAt(before, slots, top, i);
      }
    }

    /** rotate. The history is shifted, the active file becomes the newest history, and a new
        active file is opened; if it cannot be renamed, the old one is opened again. */
    method Rotate(renameFails: bool, openFails: bool) returns (ok: bool)
      requires Valid() && open
      modifies `slots, `open, `written, `stuck
      ensures Valid() && (ok <==> !renameFails && !openFails)
      ensures open == !openFails
      ensures stuck == (old(stuck) || renameFails)
      ensures open && !renameFails ==> slots[0] == []
      ensures DropsAtMostOldest(old(slots), slots, Top())
    {
      open := false;
      ghost var before := slots;
      ShiftHistory();
      assert ShiftedAt(before, slots, Top(), 0);
      if renameFails {
        stuck := true;
        ShiftRetains(before, slots, slots, Top());
        DroppedIsSuffix(before, slots, Top(), history);
        var reopened := Open(openFails);
        return false;
      }
      ghost var shifted := slots;
      slots := (slots - {0})[1 := slots[0]];
      ShiftRetains(before, shifted, slots, Top());
      DroppedIsSuffix(before, slots, Top(), history);
      if !stuck {
        ShiftStaysSmall(before, shifted, slots, Top(), maxBytes, largest);
      }
      ok := Open(openFails);
    }

    /** Write. A payload that does not fit makes the log rotate first; it is then written whole,
        however large it is. */
    method Write(payload: Bytes, openFails: bool, renameFails: bool, reopenFails: bool) returns (count: nat, ok: bool)
      requires Valid()
      modifies this
      ensures Valid()
      ensures ok ==> count == |payload| && history == old(history) + payload && open
      ensures !ok ==> count == 0 && history == old(history)
      ensures !openFails && !reopenFails ==> ok
      ensures stuck ==> old(stuck) || renameFails
      ensures largest == if ok && |payload| > old(largest) then |payload| else old(largest)
      ensures ok ==> LosesAtMostOldest(old(slots), slots, Top(), payload)
    {
      hide Retained, Suffix, Small;
      var available := Open(openFails);
      if !available {
        return 0, false;
      }
      if written + |payload| > maxBytes {
        var rotated := Rotate(renameFails, reopenFails);
        if !open {
          return 0, false;
        }
      }
      Append(payload);
      count, ok := |payload|, true;
    }

    /** The active file is written whole, and counted. */
    method Append(payload: Bytes)
      requires Valid() && open
      requires stuck || slots[0] == [] || |slots[0]| + |payload| <= maxBytes
      modifies `slots, `written, `history, `largest
      ensures Valid() && history == old(history) + payload
      ensures Retained(slots, Top()) == Retained(old(slots), Top()) + payload
      ensures largest == if |payload| > old(largest) then |payload| else old(largest)
    {
      hide Retained, Suffix;
      Appended(slots, Top(), payload, history);
      slots := slots[0 := slots[0] + payload];
      written := written + |payload|;
      history := history + payload;
      if |payload| > largest {
        largest := |payload|;
      }
    }
  }

  /** Slot `i` while the history is being shifted: the slots above `index` are done. */
  ghost predicate MidwayAt(before: Slots, now: Slots, top: nat, index: int, i: nat) {
    if i <= index || i > top || index == top - 1 then SameAt(before, now, i)
    else if i == index + 1 then i !in now
    else ShiftedAt(before, now, top, i)
  }

  ghost predicate Midway(before: Slots, now: Slots, top: nat, index: int) {
    forall i :: MidwayAt(before, now, top, index, i)
  }

  lemma MidwayOn(before: Slots, now: Slots, next: Slots, top: nat, index: nat, below: int)
    requires 1 <= index <= top - 1 && below == index - 1 && Midway(before, now, top, index)
    requires next == if index in now then (now - {index, index + 1})[index + 1 := now[index]] else now
    ensures Midway(before, next, top, below)
  {
    assert MidwayAt(before, now, top, index, index) && MidwayAt(before, now, top, index, index + 1);
    forall i ensures MidwayAt(before, next, top, below, i) {
      assert MidwayAt(before, now, top, index, i);
    }
  }

  // ---------------------------------------------------------------------------
  // What is retained
  // ---------------------------------------------------------------------------

  lemma {:induction false} RetainsNothing(slots: Slots, top: nat)
    requires slots == map[]
    ensures Retained(slots, top) == []
  {
    if top > 0 {
      RetainsNothing(slots, top - 1);
    }
  }

  lemma {:induction false} SameRetained(a: Slots, b: Slots, top: nat)
    requires forall i :: 0 <= i <= top ==> Get(a, i) == Get(b, i)
    ensures Retained(a, top) == Retained(b, top)
  {
    if top > 0 {
      SameRetained(a, b, top - 1);
    }
  }

  lemma SuffixJoins(a: Bytes, b: Bytes, c: Bytes)
    requires Suffix(a, b) && Suffix(b, c)
    ensures Suffix(a, c)
  {
    assert c[|c| - |a|..] == c[|c| - |b|..][|b| - |a|..];
  }

  lemma SuffixOf(a: Bytes, b: Bytes)
    ensures Suffix(a, b + a) && Suffix(a, a)
  {
    assert (b + a)[|b|..] == a;
  }

  /** Appending to the active file appends to what is retained, and to the history. */
  lemma Appended(slots: Slots, top: nat, payload: Bytes, history: Bytes)
    requires 0 in slots && Suffix(Retained(slots, top), history)
    ensures Suffix(Retained(slots[0 := slots[0] + payload], top), history + payload)
    ensures Retained(slots[0 := slots[0] + payload], top) == Retained(slots, top) + payload
  {
    var kept := Retained(slots, top);
    RetainedGrows(slots, top, payload);
    assert (history + payload)[|history| - |kept|..] == kept + payload;
  }

  lemma {:induction false} RetainedGrows(slots: Slots, top: nat, payload: Bytes)
    requires 0 in slots
    ensures Retained(slots[0 := slots[0] + payload], top) == Retained(slots, top) + payload
  {
    if top > 0 {
      RetainedGrows(slots, top - 1, payload);
    }
  }

  /** Below the oldest slot, shifting only renumbers. */
  lemma {:induction false} Renumbered(before: Slots, next: Slots, k: nat)
    requires k >= 1 && Get(next, 1) + Get(next, 0) == Get(before, 0)
    requires forall i :: 2 <= i <= k ==> Get(next, i) == Get(before, i - 1)
    ensures Retained(next, k) == Retained(before, k - 1)
  {
    if k == 1 {
      assert Retained(next, 0) == Get(next, 0) && Retained(before, 0) == Get(before, 0);
    } else {
      Renumbered(before, next, k - 1);
    }
  }

  /** Rotation drops the oldest slot or nothing. `next` is the shifted history, with the active
      file renamed or left where it was. */
  lemma ShiftRetains(before: Slots, shifted: Slots, next: Slots, top: nat)
    requires top >= 1 && 0 in before && Shifted(before, shifted, top)
    requires next == shifted || next == (shifted - {0})[1 := before[0]]
    ensures DropsAtMostOldest(before, next, top)
  {
    assert ShiftedAt(before, shifted, top, 0) && ShiftedAt(before, shifted, top, 1);
    if top == 1 {
      OnlySlotDrops(before, next);
    } else {
      assert ShiftedAt(before, shifted, top, top);
      forall i | 2 <= i <= top - 1 ensures Get(next, i) == Get(before, i - 1) {
        assert ShiftedAt(before, shifted, top, i);
      }
      Renumbered(before, next, top - 1);
      OldestDrops(before, next, top);
    }
  }

  lemma OnlySlotDrops(before: Slots, next: Slots)
    requires 0 in before
    requires (Get(next, 1) == Get(before, 1) && Get(next, 0) == before[0]) ||
      (Get(next, 1) == before[0] && Get(next, 0) == [])
    ensures DropsAtMostOldest(before, next, 1)
  {
    assert Retained(next, 0) == Get(next, 0) && Retained(before, 0) == before[0];
  }

  lemma {:induction false} OldestDrops(before: Slots, next: Slots, top: nat)
    requires top >= 2 && Retained(next, top - 1) == Retained(before, top - 2)
    requires Get(next, top) == if top - 1 in before then before[top - 1] else Get(before, top)
    ensures DropsAtMostOldest(before, next, top)
  {
    var rest := Retained(before, top - 2);
    assert Retained(before, top) == Get(before, top) + (Get(before, top - 1) + rest);
    assert top - 1 !in before ==> Get(before, top - 1) + rest == rest;
  }

  lemma {:induction false} DroppedIsSuffix(before: Slots, after: Slots, top: nat, history: Bytes)
    requires DropsAtMostOldest(before, after, top) && Suffix(Retained(before, top), history)
    ensures Suffix(Retained(after, top), history)
  {
    hide Retained;
    if Retained(before, top) != Retained(after, top) {
      SuffixOf(Retained(after, top), Get(before, top));
      SuffixJoins(Retained(after, top), Retained(before, top), history);
    }
  }

  lemma ShiftStaysSmall(before: Slots, shifted: Slots, next: Slots, top: nat, maxBytes: int, largest: nat)
    requires top >= 1 && 0 in before && Shifted(before, shifted, top) && Small(before, top, maxBytes, largest)
    requires next == (shifted - {0})[1 := before[0]]
    ensures Small(next, top, maxBytes, largest)
  {
    forall i | i in next && i <= top ensures |next[i]| <= maxBytes || |next[i]| <= largest {
      assert ShiftedAt(before, shifted, top, i);
    }
  }
}
