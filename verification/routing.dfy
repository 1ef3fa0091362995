/** Which level loads next: on goal completion (`world.next ?? (i+1) % n`),
    on Space in a screen level (`world.next ?? 0`) and on N (`(i+1) % n`). */
module Routing {
  import opened Nullish
  import opened Levels

  /** Default round-robin successor `(i + 1) % n`, always a valid index. */
  function Successor(i: int, n: int): (r: int)
    requires 0 <= i && n > 0
    ensures 0 <= r < n
    ensures i < n - 1 ==> r == i + 1
    ensures i == n - 1 ==> r == 0
  {
    (i + 1) % n
  }

  /** The level loaded when level `i` is completed. */
  function CompletionTarget(levels: seq<Level>, i: int): (r: int)
    requires WellFormed(levels) && 0 <= i < |levels|
    ensures 0 <= r < |levels|
    ensures levels[i].next.Some? ==> r == levels[i].next.value
    ensures levels[i].next.None? ==> r == Successor(i, |levels|)
  {
    Coalesce(levels[i].next, Successor(i, |levels|))
  }

  /** The level loaded when Space is pressed on screen level `i`. */
  function AdvanceTarget(levels: seq<Level>, i: int): (r: int)
    requires WellFormed(levels) && 0 <= i < |levels|
    ensures 0 <= r < |levels|
    ensures levels[i].next.Some? ==> r == levels[i].next.value
    ensures levels[i].next.None? ==> r == 0
  {
    Coalesce(levels[i].next, 0)
  }

  /** What completion routing would be had the code used the falsy `||`
      instead of the nullish `??`: an explicit `next` of 0 would be ignored. */
  function FalsyCompletionTarget(levels: seq<Level>, i: int): int
    requires WellFormed(levels) && 0 <= i < |levels|
  {
    if levels[i].next.Some? && levels[i].next.value != 0 then levels[i].next.value
    else Successor(i, |levels|)
  }

  /** `??` and `||` routing differ exactly when a level routes explicitly
      to level 0 and is not the last level (where the default wraps to 0
      anyway): the explicit 0 is honoured. */
  lemma NullishHonoursZero(levels: seq<Level>, i: int)
    requires WellFormed(levels) && 0 <= i < |levels|
    ensures CompletionTarget(levels, i) != FalsyCompletionTarget(levels, i)
            <==> levels[i].next == Some(0) && i != |levels| - 1
  {
  }

  /** `k` successive default advances from level `i`. */
  function Advance(i: int, n: int, k: nat): (r: int)
    requires 0 <= i < n
    ensures 0 <= r < n
  {
    if k == 0 then i else Successor(Advance(i, n, k - 1), n)
  }

  /** Default routing is a rotation: `k` advances from `i` land on
      `i + k`, wrapped once past the last level. */
  lemma {:induction false} AdvanceIsRotation(i: int, n: int, k: nat)
    requires 0 <= i < n && i + k < 2 * n
    ensures Advance(i, n, k) == if i + k < n then i + k else i + k - n
  {
    if k > 0 {
      AdvanceIsRotation(i, n, k - 1);
    }
  }

  /** Default routing visits every level: from level `i`, level `j` is
      reached after fewer than `n` advances, and after exactly `n` advances
      the cycle is back at its start. */
  lemma DefaultRoutingCycles(i: int, n: int, j: int)
    requires 0 <= i < n && 0 <= j < n
    ensures Advance(i, n, n) == i
    ensures var k := if i <= j then j - i else j - i + n;
            0 <= k < n && Advance(i, n, k) == j
  {
    AdvanceIsRotation(i, n, n);
    AdvanceIsRotation(i, n, if i <= j then j - i else j - i + n);
  }
}
