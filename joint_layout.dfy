/** The qpos address listing of the joint-order check: joints are visited in
    id order, a free joint (type 0) occupies seven qpos slots and every other
    joint one, and each joint's slots start where the previous joint's end.

    The model's joint types are the only input; the printed listing is the
    sequence of `(start, end)` slot ranges, one per joint. */
module JointLayout {

  /** MuJoCo's joint type code for a free joint. */
  const FreeJoint := 0

  /** The number of qpos slots a joint of type `jntType` occupies. */
  function QposWidth(jntType: int): nat {
    if jntType == FreeJoint then 7 else 1
  }

  /** The number of free joints among `types`. */
  function FreeCount(types: seq<int>): nat {
    if |types| == 0 then 0
    else FreeCount(types[..|types| - 1]) + (if types[|types| - 1] == FreeJoint then 1 else 0)
  }

  /** The total number of qpos slots of the joints `types`, in id order. */
  function TotalWidth(types: seq<int>): nat {
    if |types| == 0 then 0
    else TotalWidth(types[..|types| - 1]) + QposWidth(types[|types| - 1])
  }

  /** Every joint takes one slot, and each free joint six more. */
  lemma {:induction false} TotalWidthCounts(types: seq<int>)
    ensures TotalWidth(types) == |types| + 6 * FreeCount(types)
    ensures |types| <= TotalWidth(types) <= 7 * |types|
    ensures FreeCount(types) == 0 ==> TotalWidth(types) == |types|
  {
    if |types| > 0 {
      TotalWidthCounts(types[..|types| - 1]);
    }
  }

  /** Extending the joint list by one joint adds that joint's width. */
  lemma PrefixWidthStep(types: seq<int>, i: nat)
    requires i < |types|
    ensures TotalWidth(types[..i + 1]) == TotalWidth(types[..i]) + QposWidth(types[i])
  {
    assert types[..i + 1][..i] == types[..i];
  }

  /** `ranges` lists joint `i` at slots `[TotalWidth(types[..i]), TotalWidth(types[..i]) + QposWidth(types[i]))`. */
  ghost predicate ListsJoints(types: seq<int>, ranges: seq<(nat, nat)>) {
    && |ranges| == |types|
    && forall i | 0 <= i < |types| ::
         ranges[i].0 == TotalWidth(types[..i]) && ranges[i].1 == ranges[i].0 + QposWidth(types[i])
  }

  /** Listed ranges start at slot 0, abut one another and end at the total width. */
  lemma ListedRangesContiguous(types: seq<int>, ranges: seq<(nat, nat)>)
    requires ListsJoints(types, ranges)
    ensures forall i | 0 <= i < |types| - 1 :: ranges[i].1 == ranges[i + 1].0
    ensures |types| > 0 ==> ranges[0].0 == 0 && ranges[|types| - 1].1 == TotalWidth(types)
  {
    forall i | 0 <= i < |types| - 1
      ensures ranges[i].1 == ranges[i + 1].0
    {
      PrefixWidthStep(types, i);
    }
    if |types| > 0 {
      PrefixWidthStep(types, |types| - 1);
      assert types[..|types|] == types;
    }
  }

  /** The slot loop: `qpos_idx` starts at 0 and grows by each joint's width;
      joint `i` is listed with the range `qpos_idx : qpos_idx + width`. */
  method JointRanges(types: seq<int>) returns (ranges: seq<(nat, nat)>, qposIdx: nat)
    ensures ListsJoints(types, ranges)
    ensures forall i | 0 <= i < |types| - 1 :: ranges[i].1 == ranges[i + 1].0
    ensures |types| > 0 ==> ranges[0].0 == 0 && ranges[|types| - 1].1 == qposIdx
    ensures qposIdx == TotalWidth(types)
  {
    ranges := [];
    qposIdx := 0;
    for i := 0 to |types|
      invariant ListsJoints(types[..i], ranges)
      invariant qposIdx == TotalWidth(types[..i])
    {
      var width := QposWidth(types[i]);
      PrefixWidthStep(types, i);
      ranges := ranges + [(qposIdx, qposIdx + width)];
      qposIdx := qposIdx + width;
      forall k | 0 <= k <= i
        ensures ranges[k].0 == TotalWidth(types[..i + 1][..k]) && ranges[k].1 == ranges[k].0 + QposWidth(types[..i + 1][k])
      {
        if k < i {
          assert types[..i + 1][..k] == types[..i][..k];
        } else {
          assert types[..i + 1][..k] == types[..i];
        }
      }
    }
    assert types[..|types|] == types;
    ListedRangesContiguous(types, ranges);
  }

  /** The ranges of two different joints do not overlap: an earlier joint's
      range ends no later than a later joint's begins. */
  lemma {:induction false} JointRangesDisjoint(types: seq<int>, i: nat, j: nat)
    requires i < j <= |types|
    ensures TotalWidth(types[..i]) + QposWidth(types[i]) <= TotalWidth(types[..j])
    decreases j
  {
    PrefixWidthStep(types, i);
    if j > i + 1 {
      JointRangesDisjoint(types, i, j - 1);
      PrefixWidthStep(types, j - 1);
    }
  }
}
