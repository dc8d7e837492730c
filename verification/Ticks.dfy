// Tick arithmetic.  portTickType is an unsigned 32-bit integer in this build
// (sources/config/FreeRTOSConfig.h:100), so sums and differences wrap.  "True"
// time is an unbounded natural number; the kernel only ever sees it modulo WRAP.
module Ticks {
  import opened Basics

  type Tick = t: int | 0 <= t < WRAP

  // A timer period or a delay: a tick count that is not zero.
  type Period = p: int | 1 <= p < WRAP witness 1

  // Unsigned 32-bit addition and subtraction.
  function Add(a: Tick, b: Tick): Tick { (a + b) % WRAP }

  function Sub(a: Tick, b: Tick): Tick { (a - b) % WRAP }

  // The tick count the kernel shows at true time t, and the number of times it has wrapped.
  function Of(t: nat): Tick { t % WRAP }

  function Epoch(t: nat): nat { t / WRAP }

  // The true time at which the tick count wrapped for the k-th time.
  function Boundary(k: nat): nat { k * WRAP }

  lemma AddOf(t: nat, p: Period)
    ensures Add(Of(t), p) == Of(t + p)
  {
  }

  lemma Parts(t: nat)
    ensures t == Of(t) + Boundary(Epoch(t))
  {
  }

  lemma PartsUnique(v: Tick, k: nat)
    ensures Of(v + Boundary(k)) == v && Epoch(v + Boundary(k)) == k
    ensures Boundary(k + 1) == Boundary(k) + WRAP
  {
  }

  // A backward step of the visible tick count shows a wrap, provided time was
  // sampled less than one wrap ago.
  lemma WrapIsVisible(last: nat, now: nat)
    requires last <= now < last + WRAP
    ensures Of(now) < Of(last) <==> Epoch(now) == Epoch(last) + 1
    ensures Of(now) >= Of(last) <==> Epoch(now) == Epoch(last)
  {
  }
}
