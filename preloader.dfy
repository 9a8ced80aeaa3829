/** The preloader's progress counter: an interval adds one per tick, the value is capped at
    100, and the interval clears itself on the tick that reaches the cap. */
module Preloader {

  const Cap: int := 100

  /** The `setProgress` updater applied on every tick. */
  function Advance(prev: int): (r: int)
    ensures r <= Cap
    ensures r == if prev + 1 < Cap then prev + 1 else Cap
    ensures prev <= Cap ==> prev <= r
    ensures prev >= Cap ==> r == Cap
  {
    var next := prev + 1;
    if next > Cap then Cap else next
  }

  /** Whether the tick that starts from `prev` clears the interval. */
  predicate StopsInterval(prev: int)
    ensures StopsInterval(prev) <==> Advance(prev) == Cap
  {
    prev + 1 >= Cap
  }

  /** The progress after `n` applications of the updater. */
  function ProgressAfter(start: int, n: nat): int
    decreases n
  {
    if n == 0 then start else Advance(ProgressAfter(start, n - 1))
  }

  /** From 0, tick k shows k, up to the cap. */
  lemma {:induction false} CountsUp(n: nat)
    requires n <= Cap
    ensures ProgressAfter(0, n) == n
    decreases n
  {
    if n > 0 {
      CountsUp(n - 1);
    }
  }

  /** From 0 the interval runs exactly 100 ticks: none of the first 99 clears it, the
      100th does, and it leaves the progress at 100. */
  lemma HundredTicks(k: nat)
    ensures k < Cap - 1 ==> !StopsInterval(ProgressAfter(0, k))
    ensures StopsInterval(ProgressAfter(0, Cap - 1))
    ensures ProgressAfter(0, Cap) == Cap
  {
    if k < Cap - 1 {
      CountsUp(k);
    }
    CountsUp(Cap - 1);
    CountsUp(Cap);
  }

  /** Once at the cap, further ticks change nothing. */
  lemma {:induction false} StaysAtCap(n: nat)
    ensures ProgressAfter(Cap, n) == Cap
    decreases n
  {
    if n > 0 {
      StaysAtCap(n - 1);
    }
  }

  /** The interval's whole run: the updater is applied on every tick until the tick on which
      it clears the interval. Returns the final progress and the number of ticks. */
  method RunInterval(start: int) returns (progress: int, ticks: nat)
    ensures progress == Cap
    ensures ticks == if start < Cap then Cap - start else 1
    ensures progress == ProgressAfter(start, ticks)
  {
    progress, ticks := start, 0;
    var running := true;
    while running
      invariant progress == ProgressAfter(start, ticks)
      invariant running ==> ticks == 0 || progress < Cap
      invariant ticks == 0 ==> running && progress == start
      invariant start < Cap && ticks > 0 ==> progress == start + ticks
      invariant start >= Cap && ticks > 0 ==> ticks == 1 && progress == Cap && !running
      invariant !running ==> progress == Cap && ticks > 0
      decreases if running then (if progress < Cap then Cap + 1 - progress else 1) else 0
    {
      running := !StopsInterval(progress);
      progress := Advance(progress);
      ticks := ticks + 1;
    }
  }

  /** The mounted preloader: its progress and whether its interval is still scheduled. */
  class Loader {
    var progress: int
    var running: bool

    ghost predicate Valid()
      reads this
    {
      0 <= progress <= Cap && (running <==> progress < Cap)
    }

    constructor ()
      ensures Valid() && progress == 0 && running
    {
      progress := 0;
      running := true;
    }

    /** The interval fires; it can only while it has not been cleared. */
    method Tick()
      requires Valid() && running
      modifies this
      ensures Valid()
      ensures progress == Advance(old(progress)) && old(progress) < progress
      ensures running == !StopsInterval(old(progress))
    {
      var next := progress + 1;
      if next >= Cap {
        running := false;
      }
      progress := if next > Cap then Cap else next;
    }
  }
}
