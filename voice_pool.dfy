/** The fixed 16-slot voice arena shared by both synthesizers of
    engine/src/synth.rs, seen through the voices' `is_active` flags:
    which slot a note-on takes, and how many slots are sounding. */
module VoicePool {

  /** `MAX_VOICES`, the polyphony limit. */
  const MAX_VOICES: nat := 16

  /** Number of sounding slots (`active_voice_count`). */
  function CountActive(active: seq<bool>): (n: nat)
    ensures n <= |active|
  {
    if |active| == 0 then 0
    else CountActive(active[..|active| - 1]) + (if active[|active| - 1] then 1 else 0)
  }

  /** Index of the lowest silent slot at or after `from`, or `|active|`. */
  function FirstInactiveFrom(active: seq<bool>, from: nat): (i: nat)
    requires from <= |active|
    ensures from <= i <= |active|
    ensures i < |active| ==> !active[i]
    ensures forall j :: from <= j < i ==> active[j]
    decreases |active| - from
  {
    if from == |active| then from
    else if !active[from] then from
    else FirstInactiveFrom(active, from + 1)
  }

  /** The slot a note-on takes (`find_free_voice`): the lowest-index
      silent slot, or slot 0 when every slot is sounding. */
  function FreeSlot(active: seq<bool>): (i: nat)
    requires |active| > 0
    ensures i < |active|
    ensures (exists j :: 0 <= j < |active| && !active[j]) ==>
              !active[i] && forall j :: 0 <= j < i ==> active[j]
    ensures (forall j :: 0 <= j < |active| ==> active[j]) ==> i == 0
  {
    var k := FirstInactiveFrom(active, 0);
    if k < |active| then k else 0
  }

  /** All slots are sounding exactly when the count reaches the size. */
  lemma {:induction false} FullIffAllActive(active: seq<bool>)
    ensures CountActive(active) == |active| <==> forall j :: 0 <= j < |active| ==> active[j]
  {
    if |active| > 0 {
      var init := active[..|active| - 1];
      FullIffAllActive(init);
      assert forall j :: 0 <= j < |init| ==> init[j] == active[j];
    }
  }

  /** Nothing is sounding exactly when the count is zero. */
  lemma {:induction false} EmptyIffNoneActive(active: seq<bool>)
    ensures CountActive(active) == 0 <==> forall j :: 0 <= j < |active| ==> !active[j]
  {
    if |active| > 0 {
      var init := active[..|active| - 1];
      EmptyIffNoneActive(init);
      assert forall j :: 0 <= j < |init| ==> init[j] == active[j];
    }
  }

  /** Switching one slot on raises the count by one if it was silent and
      leaves it unchanged otherwise. */
  lemma {:induction false} OccupySlot(active: seq<bool>, i: nat)
    requires i < |active|
    ensures CountActive(active[i := true]) == CountActive(active) + (if active[i] then 0 else 1)
  {
    var last := |active| - 1;
    if i < last {
      OccupySlot(active[..last], i);
      assert active[i := true][..last] == active[..last][i := true];
    } else {
      assert active[i := true][..last] == active[..last];
    }
  }

  /** Changing one slot without switching it on never raises the count. */
  lemma {:induction false} CountPointwiseMonotone(before: seq<bool>, after: seq<bool>)
    requires |before| == |after|
    requires forall j :: 0 <= j < |after| ==> after[j] ==> before[j]
    ensures CountActive(after) <= CountActive(before)
  {
    if |before| > 0 {
      var last := |before| - 1;
      CountPointwiseMonotone(before[..last], after[..last]);
    }
  }

  /** Voice allocation in terms of the count: a note-on adds one sounding
      voice while a slot is free, and steals (keeping the count at the
      limit) otherwise; the count never exceeds the number of slots. */
  lemma AllocateSlot(active: seq<bool>)
    requires |active| > 0
    ensures var n := CountActive(active[FreeSlot(active) := true]);
      n <= |active| &&
      n == if CountActive(active) < |active| then CountActive(active) + 1 else CountActive(active)
  {
    FullIffAllActive(active);
    OccupySlot(active, FreeSlot(active));
  }
}
