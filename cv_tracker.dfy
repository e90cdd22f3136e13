/** The tracker pool: a list of slots, one per tracked object.  Each frame
    every slot is stepped; slots found outdated are removed; the surviving
    slots' objects are the tracking result.  Creating a tracker hands out a
    fresh handle; what an OpenCV tracker answers for a frame is the
    `track` oracle. */
module CvTrackers {
  import opened Wrappers
  import opened Geometry
  import opened CameraModel
  import opened TrackedObjects
  import opened CvTrackedObjects

  /** The elements of `xs` whose `drop` flag is false, in order. */
  function Keep<T>(xs: seq<T>, drop: seq<bool>): (r: seq<T>)
    requires |drop| == |xs|
    ensures |r| <= |xs|
    ensures forall x :: x in r ==> x in xs
    decreases |xs|
  {
    if |xs| == 0 then []
    else (if drop[0] then [] else [xs[0]]) + Keep(xs[1..], drop[1..])
  }

  /** An element survives exactly when some position holding it is not
      dropped; with distinct elements, exactly when its own position is not. */
  lemma {:induction false} KeepMembership<T>(xs: seq<T>, drop: seq<bool>, k: nat)
    requires |drop| == |xs| && k < |xs|
    requires forall i, j :: 0 <= i < j < |xs| ==> xs[i] != xs[j]
    ensures xs[k] in Keep(xs, drop) <==> !drop[k]
    decreases |xs|
  {
    if k > 0 {
      KeepMembership(xs[1..], drop[1..], k - 1);
      assert xs[k] == xs[1..][k - 1];
    } else {
      HeadNotInTail(xs);
    }
  }

  lemma HeadNotInTail<T>(xs: seq<T>)
    requires |xs| > 0 && forall i, j :: 0 <= i < j < |xs| ==> xs[i] != xs[j]
    ensures xs[0] !in xs[1..]
  {
    forall i | 0 <= i < |xs| - 1
      ensures xs[1..][i] != xs[0]
    {
      assert xs[1..][i] == xs[i + 1];
    }
  }

  /** `List.Remove`: deletes the first occurrence of `x`, if any. */
  function ListRemove<T(==)>(xs: seq<T>, x: T): (r: seq<T>)
    ensures x !in xs ==> r == xs
    decreases |xs|
  {
    if |xs| == 0 then []
    else if xs[0] == x then xs[1..]
    else [xs[0]] + ListRemove(xs[1..], x)
  }

  /** The elements of `xs` that are not in `gone`, in order. */
  function Without<T(==)>(xs: seq<T>, gone: set<T>): seq<T>
    decreases |xs|
  {
    if |xs| == 0 then []
    else (if xs[0] in gone then [] else [xs[0]]) + Without(xs[1..], gone)
  }

  lemma {:induction false} WithoutNotIn<T>(xs: seq<T>, gone: set<T>, x: T)
    requires x !in xs
    ensures x !in Without(xs, gone)
    decreases |xs|
  {
    if |xs| > 0 {
      WithoutNotIn(xs[1..], gone, x);
    }
  }

  /** Removing one more element from a duplicate-free list. */
  lemma {:induction false} RemoveFromWithout<T>(xs: seq<T>, gone: set<T>, x: T)
    requires Distinct(xs)
    requires x !in gone
    ensures ListRemove(Without(xs, gone), x) == Without(xs, gone + {x})
    decreases |xs|
  {
    if |xs| > 0 {
      var w := Without(xs[1..], gone);
      if xs[0] == x {
        HeadNotInTail(xs);
        WithoutSameOn(xs[1..], gone, gone + {x});
        calc {
          ListRemove(Without(xs, gone), x);
          ListRemove([x] + w, x);
          { assert ([x] + w)[0] == x && ([x] + w)[1..] == w; }
          w;
          Without(xs[1..], gone + {x});
          Without(xs, gone + {x});
        }
      } else {
        DistinctTail(xs);
        RemoveFromWithout(xs[1..], gone, x);
        if xs[0] in gone {
          calc {
            ListRemove(Without(xs, gone), x);
            { assert Without(xs, gone) == [] + w == w; }
            ListRemove(w, x);
            Without(xs[1..], gone + {x});
            Without(xs, gone + {x});
          }
        } else {
          calc {
            ListRemove(Without(xs, gone), x);
            ListRemove([xs[0]] + w, x);
            { assert ([xs[0]] + w)[0] == xs[0] && ([xs[0]] + w)[1..] == w; }
            [xs[0]] + ListRemove(w, x);
            [xs[0]] + Without(xs[1..], gone + {x});
            Without(xs, gone + {x});
          }
        }
      }
    }
  }

  lemma DistinctTail<T>(xs: seq<T>)
    requires |xs| > 0 && Distinct(xs)
    ensures Distinct(xs[1..])
  {
    forall i, j | 0 <= i < j < |xs| - 1
      ensures xs[1..][i] != xs[1..][j]
    {
      assert xs[1..][i] == xs[i + 1] && xs[1..][j] == xs[j + 1];
    }
  }

  lemma {:induction false} WithoutNothing<T>(xs: seq<T>)
    ensures Without(xs, {}) == xs
    decreases |xs|
  {
    if |xs| > 0 {
      WithoutNothing(xs[1..]);
    }
  }

  lemma {:induction false} WithoutSameOn<T>(xs: seq<T>, a: set<T>, b: set<T>)
    requires forall x :: x in xs ==> (x in a <==> x in b)
    ensures Without(xs, a) == Without(xs, b)
    decreases |xs|
  {
    if |xs| > 0 {
      WithoutSameOn(xs[1..], a, b);
    }
  }

  /** Removing every flagged element of a duplicate-free list keeps the
      unflagged ones. */
  lemma {:induction false} WithoutFlagged<T>(xs: seq<T>, drop: seq<bool>, gone: set<T>)
    requires |drop| == |xs|
    requires forall i, j :: 0 <= i < j < |xs| ==> xs[i] != xs[j]
    requires forall i :: 0 <= i < |xs| ==> (xs[i] in gone <==> drop[i])
    ensures Without(xs, gone) == Keep(xs, drop)
    decreases |xs|
  {
    if |xs| > 0 {
      WithoutFlagged(xs[1..], drop[1..], gone);
    }
  }

  /** The flagged elements of `xs`, in order. */
  function Flagged<T>(xs: seq<T>, flags: seq<bool>): (r: seq<T>)
    requires |flags| == |xs|
    ensures forall x :: x in r ==> x in xs
    decreases |xs|
  {
    if |xs| == 0 then []
    else (if flags[0] then [xs[0]] else []) + Flagged(xs[1..], flags[1..])
  }

  /** The verdicts of one pool step, slot by slot. */
  ghost function Verdicts(states: seq<SlotState>, slots: seq<CvTrackedObject>, frame: CameraFrame,
                          track: nat -> Option<Rect2d>): (v: seq<bool>)
    requires |states| == |slots| && frame.height != 0
    ensures |v| == |slots|
  {
    seq(|slots|, k requires 0 <= k < |slots| => Step(states[k], frame, track(slots[k].tracker), false).0)
  }

  function Elems<T>(xs: seq<T>): set<T> { set x | x in xs }

  predicate Distinct<T(==)>(xs: seq<T>) {
    forall i, j :: 0 <= i < j < |xs| ==> xs[i] != xs[j]
  }

  /** After a pool step, a slot is still in the pool exactly when its
      tracker reported a box for the frame. */
  lemma SurvivesIffTracked(states: seq<SlotState>, slots: seq<CvTrackedObject>, frame: CameraFrame,
                           track: nat -> Option<Rect2d>, k: nat)
    requires |states| == |slots| && frame.height != 0 && Distinct(slots) && k < |slots|
    ensures slots[k] in Keep(slots, Verdicts(states, slots, frame, track)) <==> track(slots[k].tracker).Some?
  {
    KeepMembership(slots, Verdicts(states, slots, frame, track), k);
    StepEvictsExactlyOnFailure(states[k], frame, track(slots[k].tracker));
  }

  /** `CvTracker`. */
  class CvTracker {
    var slots: seq<CvTrackedObject>
    var nextTracker: nat

    ghost predicate Valid()
      reads this
    {
      Distinct(slots)
    }

    /** The slots' states, as values. */
    ghost function Snapshot(): (s: seq<SlotState>)
      reads this, slots
      ensures |s| == |slots|
      ensures forall k :: 0 <= k < |slots| ==> s[k] == slots[k].State()
    {
      seq(|slots|, k reads this, slots requires 0 <= k < |slots| => slots[k].State())
    }

    /** The objects the pool reports: one per slot, in slot order. */
    ghost function Objects(): (objs: seq<TrackedObject>)
      reads this, slots
      ensures |objs| == |slots|
      ensures forall k :: 0 <= k < |slots| ==> objs[k] == slots[k].State().obj
    {
      seq(|slots|, k reads this, slots requires 0 <= k < |slots| => slots[k].trackedObject)
    }

    constructor()
      ensures Valid() && slots == [] && nextTracker == 0
    {
      slots := [];
      nextTracker := 0;
    }

    /** `Initialize`: creates a tracker, starts it on the box (its verdict,
        `started(handle)`, is only logged), and appends a slot for the new
        object, even when starting failed. */
    method Initialize(frame: CameraFrame, rect: Rect2d, tag: string, started: nat -> bool)
      returns (obj: TrackedObject)
      requires Valid() && frame.height != 0
      modifies this
      ensures Valid()
      ensures Success(obj) == NewTrackedObject(rect, tag, frame.intrinsic, frame.extrinsic, frame.height)
      ensures |slots| == |old(slots)| + 1 && slots[..|old(slots)|] == old(slots)
      ensures fresh(slots[|old(slots)|])
      ensures slots[|old(slots)|].State() == NewSlot(obj)
      ensures slots[|old(slots)|].tracker == old(nextTracker)
      ensures nextTracker == old(nextTracker) + 1
    {
      var handle := nextTracker;
      nextTracker := nextTracker + 1;
      var initialized := started(handle);
      obj := NewTrackedObject(rect, tag, frame.intrinsic, frame.extrinsic, frame.height).value;
      var slot := new CvTrackedObject(obj, handle);
      slots := slots + [slot];
    }

    /** `Update`: steps every slot on `frame`, removes the outdated ones and
        returns the objects of the survivors in their original order. */
    method Update(frame: CameraFrame, track: nat -> Option<Rect2d>) returns (result: seq<TrackedObject>)
      requires Valid() && frame.height != 0
      modifies this, slots
      ensures Valid()
      ensures slots == Keep(old(slots), Verdicts(old(Snapshot()), old(slots), frame, track))
      ensures forall k :: 0 <= k < |old(slots)| ==>
        old(slots)[k].State() == Step(old(Snapshot())[k], frame, track(old(slots)[k].tracker), false).1
      ensures result == Objects()
      ensures nextTracker == old(nextTracker)
    {
      if |slots| == 0 {
        return [];
      }
      ghost var before := Snapshot();
      ghost var all := slots;
      ghost var verdicts := Verdicts(before, slots, frame, track);
      var outdated := StepSlots(frame, track);
      FlaggedDistinct(all, verdicts);
      RemoveSlots(outdated);
      forall k | 0 <= k < |all|
        ensures all[k] in Elems(outdated) <==> verdicts[k]
      {
        FlaggedMembership(all, verdicts, k);
      }
      WithoutFlagged(all, verdicts, Elems(outdated));
      KeepDistinct(all, verdicts);
      result := CollectObjects();
    }

    /** The parallel loop of `Update`: each slot is updated with its
        tracker's answer and then asked whether it is outdated; the outdated
        ones are collected.  Processing order does not matter, since each
        slot only touches its own fields. */
    method StepSlots(frame: CameraFrame, track: nat -> Option<Rect2d>) returns (outdated: seq<CvTrackedObject>)
      requires Valid() && frame.height != 0
      modifies slots
      ensures outdated == Flagged(slots, Verdicts(old(Snapshot()), slots, frame, track))
      ensures forall k :: 0 <= k < |slots| ==>
        slots[k].State() == Step(old(Snapshot())[k], frame, track(slots[k].tracker), false).1
    {
      var ss := slots;
      ghost var before := Snapshot();
      ghost var verdicts := Verdicts(before, ss, frame, track);
      ghost var after := seq(|ss|, k requires 0 <= k < |ss| => Step(before[k], frame, track(ss[k].tracker), false).1);
      outdated := [];
      var i := 0;
      while i < |ss|
        invariant 0 <= i <= |ss|
        invariant forall k :: 0 <= k < |ss| ==> ss[k].State() == if k < i then after[k] else before[k]
        invariant outdated == Flagged(ss[..i], verdicts[..i])
      {
        var slot := ss[i];
        assert forall k :: 0 <= k < |ss| && k != i ==> ss[k] != slot;
        var isOutdated := StepSlot(slot, frame, track(slot.tracker));
        if isOutdated {
          outdated := outdated + [slot];
        }
        assert ss[..i + 1] == ss[..i] + [slot];
        assert verdicts[..i + 1] == verdicts[..i] + [verdicts[i]];
        FlaggedAppend(ss[..i], verdicts[..i], slot, verdicts[i]);
        i := i + 1;
      }
      assert ss[..i] == ss && verdicts[..i] == verdicts;
    }

    /** One slot's share of the parallel loop: update it with its
        tracker's answer, then ask whether it is outdated. */
    static method StepSlot(slot: CvTrackedObject, frame: CameraFrame, reported: Option<Rect2d>)
      returns (isOutdated: bool)
      requires frame.height != 0
      modifies slot
      ensures (isOutdated, slot.State()) == Step(old(slot.State()), frame, reported, false)
    {
      slot.Update(frame, reported);
      isOutdated := slot.IsOutdated();
    }

    /** The removal loop of `Update`: `List.Remove` of each outdated slot. */
    method RemoveSlots(outdated: seq<CvTrackedObject>)
      requires Valid() && Distinct(outdated)
      modifies this
      ensures slots == Without(old(slots), Elems(outdated))
      ensures nextTracker == old(nextTracker)
    {
      ghost var all := slots;
      WithoutNothing(all);
      assert outdated[..0] == [] && Elems<CvTrackedObject>([]) == {};
      var j := 0;
      while j < |outdated|
        invariant 0 <= j <= |outdated|
        invariant slots == Without(all, Elems(outdated[..j]))
        invariant nextTracker == old(nextTracker)
      {
        assert outdated[j] !in outdated[..j];
        RemoveFromWithout(all, Elems(outdated[..j]), outdated[j]);
        assert Elems(outdated[..j + 1]) == Elems(outdated[..j]) + {outdated[j]};
        slots := ListRemove(slots, outdated[j]);
        j := j + 1;
      }
      assert outdated[..j] == outdated;
    }

    /** `Select(GetTrackedObject).ToList()` over the slots. */
    method CollectObjects() returns (result: seq<TrackedObject>)
      ensures result == Objects()
    {
      result := [];
      var n := 0;
      while n < |slots|
        invariant 0 <= n <= |slots|
        invariant |result| == n
        invariant forall k :: 0 <= k < n ==> result[k] == slots[k].trackedObject
      {
        result := result + [slots[n].GetTrackedObject()];
        n := n + 1;
      }
    }

    /** `Reset`: forgets every slot. */
    method Reset()
      modifies this
      ensures Valid() && slots == [] && nextTracker == old(nextTracker)
    {
      slots := [];
    }
  }

  lemma FlaggedAppend<T>(xs: seq<T>, flags: seq<bool>, x: T, f: bool)
    requires |flags| == |xs|
    ensures Flagged(xs + [x], flags + [f]) == Flagged(xs, flags) + (if f then [x] else [])
    decreases |xs|
  {
    if |xs| > 0 {
      assert (xs + [x])[1..] == xs[1..] + [x];
      assert (flags + [f])[1..] == flags[1..] + [f];
      FlaggedAppend(xs[1..], flags[1..], x, f);
    }
  }

  lemma {:induction false} FlaggedDistinct<T>(xs: seq<T>, flags: seq<bool>)
    requires |flags| == |xs| && Distinct(xs)
    ensures Distinct(Flagged(xs, flags))
    decreases |xs|
  {
    if |xs| > 0 {
      FlaggedDistinct(xs[1..], flags[1..]);
      if flags[0] {
        HeadNotInTail(xs);
      }
    }
  }

  lemma {:induction false} FlaggedMembership<T>(xs: seq<T>, flags: seq<bool>, k: nat)
    requires |flags| == |xs| && k < |xs| && Distinct(xs)
    ensures xs[k] in Flagged(xs, flags) <==> flags[k]
    decreases |xs|
  {
    if k > 0 {
      DistinctTail(xs);
      FlaggedMembership(xs[1..], flags[1..], k - 1);
      assert xs[k] == xs[1..][k - 1];
      HeadNotInTail(xs);
    } else {
      HeadNotInTail(xs);
    }
  }

  lemma {:induction false} KeepDistinct<T>(xs: seq<T>, drop: seq<bool>)
    requires |drop| == |xs| && Distinct(xs)
    ensures Distinct(Keep(xs, drop))
    decreases |xs|
  {
    if |xs| > 0 {
      KeepDistinct(xs[1..], drop[1..]);
      HeadNotInTail(xs);
    }
  }
}
