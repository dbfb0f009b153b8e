/** The rotating tip card (src/components/BusinessTips.tsx): a timer moves
    the current tip forward, wrapping around, and a row of dots highlights
    the current one. The timer is modelled by counting its ticks. */
module BusinessTips {
  import opened Collections

  /** The tip shown first. */
  const InitialTip: nat := 0

  /** One timer tick: the next tip, wrapping after the last. */
  function Tick(current: nat, n: nat): (next: nat)
    requires n > 0
    ensures next < n
    ensures current < n - 1 ==> next == current + 1
    ensures current == n - 1 ==> next == 0
  {
    (current + 1) % n
  }

  /** The tip after `k` ticks. */
  function Ticks(current: nat, n: nat, k: nat): (r: nat)
    requires n > 0
    ensures k > 0 ==> r < n
    decreases k
  {
    if k == 0 then current else Tick(Ticks(current, n, k - 1), n)
  }

  /** Within one cycle, `k` ticks move `k` places forward, wrapping once
      past the last tip. */
  lemma {:induction false} TicksAdvance(current: nat, n: nat, k: nat)
    requires n > 0 && current < n && k <= n
    ensures Ticks(current, n, k) == if current + k < n then current + k else current + k - n
    decreases k
  {
    if k > 0 {
      TicksAdvance(current, n, k - 1);
    }
  }

  /** A full cycle of `n` ticks returns to the starting tip. */
  lemma FullCycle(current: nat, n: nat)
    requires n > 0 && current < n
    ensures Ticks(current, n, n) == current
  {
    TicksAdvance(current, n, n);
  }

  /** Every tip is shown within one cycle from the first tip: tip `t`
      after exactly `t` ticks. */
  lemma EveryTipShown(n: nat, t: nat)
    requires n > 0 && t < n
    ensures Ticks(InitialTip, n, t) == t
  {
    TicksAdvance(InitialTip, n, t);
  }

  /** The indicator row: one dot per tip, highlighted exactly at the
      current tip's position. */
  function Indicators(n: nat, current: nat): (dots: seq<bool>)
    ensures |dots| == n
    ensures forall i :: 0 <= i < n ==> (dots[i] <==> i == current)
  {
    seq(n, i => i == current)
  }

  /** For a valid current tip exactly one dot is highlighted. */
  lemma {:induction false} ExactlyOneHighlighted(n: nat, current: nat)
    requires current < n
    ensures Count(Highlighted, Indicators(n, current)) == 1
  {
    var dots := Indicators(n, current);
    assert dots == dots[..current] + [true] + dots[current + 1..];
    FilterConcat(Highlighted, dots[..current] + [true], dots[current + 1..]);
    FilterConcat(Highlighted, dots[..current], [true]);
    FilterKeepsNone(Highlighted, dots[..current]);
    FilterKeepsNone(Highlighted, dots[current + 1..]);
  }

  function Highlighted(dot: bool): bool
  {
    dot
  }
}
