/** The slide position rules of `next` and `prev` (src/flexiSlider.js:148-169):
    the position runs over `0 .. slideCount - slideGroup` and wraps at both
    ends. */
module Position {

  /** The position `next` moves to. */
  function NextPos(pos: int, count: int, group: int): (r: int)
    ensures r != 0 ==> r == pos + 1 && r <= count - group
    ensures pos + 1 <= count - group ==> r == pos + 1
  {
    if pos < count - group then pos + 1 else 0
  }

  /** The position `prev` moves to. */
  function PrevPos(pos: int, count: int, group: int): (r: int)
    ensures r != count - group ==> r == pos - 1 && r >= 0
    ensures pos >= 1 ==> r == pos - 1
  {
    if pos > 0 then pos - 1 else count - group
  }

  /** The positions a full group of slides can start at. */
  predicate InRange(pos: int, count: int, group: int)
  {
    0 <= pos <= count - group
  }

  /** `next` and `prev` keep a position that is in range in range. */
  lemma StepsStayInRange(pos: int, count: int, group: int)
    requires InRange(pos, count, group)
    ensures InRange(NextPos(pos, count, group), count, group)
    ensures InRange(PrevPos(pos, count, group), count, group)
  {
  }

  /** `prev` undoes `next`, and `next` undoes `prev`, wrap-around included. */
  lemma PrevUndoesNext(pos: int, count: int, group: int)
    requires InRange(pos, count, group)
    ensures PrevPos(NextPos(pos, count, group), count, group) == pos
    ensures NextPos(PrevPos(pos, count, group), count, group) == pos
  {
  }

  /** With fewer slides than a group, `next` stays at 0 but `prev` moves to
      the negative position `count - group`: the code does not keep the
      position at 0 there. */
  lemma FewSlidesPrevGoesNegative(count: int, group: int)
    requires count < group
    ensures NextPos(0, count, group) == 0
    ensures PrevPos(0, count, group) < 0
  {
  }

  /** `next` applied `k` times. */
  function NextTimes(k: nat, pos: int, count: int, group: int): int
  {
    if k == 0 then pos else NextPos(NextTimes(k - 1, pos, count, group), count, group)
  }

  /** `prev` applied `k` times. */
  function PrevTimes(k: nat, pos: int, count: int, group: int): int
  {
    if k == 0 then pos else PrevPos(PrevTimes(k - 1, pos, count, group), count, group)
  }

  /** From 0, `next` visits every start position in order. */
  lemma {:induction false} NextCounts(k: nat, count: int, group: int)
    requires k <= count - group
    ensures NextTimes(k, 0, count, group) == k
  {
    if k > 0 {
      NextCounts(k - 1, count, group);
    }
  }

  /** From 0, `count - group + 1` calls of `next` come back to 0. */
  lemma NextCycle(count: int, group: int)
    requires count >= group
    ensures NextTimes(count - group + 1, 0, count, group) == 0
  {
    NextCounts(count - group, count, group);
  }

  /** From 0, `prev` visits the start positions backwards, beginning at the last. */
  lemma {:induction false} PrevCounts(k: nat, count: int, group: int)
    requires 1 <= k <= count - group + 1
    ensures PrevTimes(k, 0, count, group) == count - group + 1 - k
  {
    if k > 1 {
      PrevCounts(k - 1, count, group);
    }
  }

  /** From 0, `count - group + 1` calls of `prev` come back to 0. */
  lemma PrevCycle(count: int, group: int)
    requires count >= group
    ensures PrevTimes(count - group + 1, 0, count, group) == 0
  {
    PrevCounts(count - group + 1, count, group);
  }
}
