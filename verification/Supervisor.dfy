/**
 The supervisor of a profile run: it grows and shrinks a stack of worker tasks. A task
 is known by the number it was spawned with; its cancellation token and its join handle
 carry that number, so that the two vectors can be compared.
 */
module Supervisor {
  import opened LoadProfile

  /** The numbers below `n`, once each. */
  function Ids(n: nat): multiset<nat> {
    if n == 0 then multiset{} else Ids(n - 1) + multiset{n - 1}
  }

  lemma {:induction false} IdsOnce(n: nat, id: nat)
    ensures Ids(n)[id] == if id < n then 1 else 0
  {
    if n > 0 {
      IdsOnce(n - 1, id);
    }
  }

  /** Every task ever spawned is in exactly one place: running, waiting to be joined, or joined. */
  ghost predicate Placed(handles: seq<nat>, reaped: seq<nat>, joined: seq<nat>, spawned: nat) {
    multiset(handles) + multiset(reaped) + multiset(joined) == Ids(spawned)
  }

  lemma PlacedSpawn(handles: seq<nat>, reaped: seq<nat>, joined: seq<nat>, spawned: nat)
    requires Placed(handles, reaped, joined, spawned)
    ensures Placed(handles + [spawned], reaped, joined, spawned + 1)
  {
  }

  lemma PlacedReap(handles: seq<nat>, reaped: seq<nat>, joined: seq<nat>, spawned: nat)
    requires Placed(handles, reaped, joined, spawned) && handles != []
    ensures var m := |handles| - 1; Placed(handles[..m], reaped + [handles[m]], joined, spawned)
  {
    assert handles == handles[..|handles| - 1] + [handles[|handles| - 1]];
  }

  lemma PlacedJoin(handles: seq<nat>, reaped: seq<nat>, joined: seq<nat>, spawned: nat)
    requires Placed(handles, reaped, joined, spawned) && reaped != []
    ensures Placed(handles, reaped[1..], joined + [reaped[0]], spawned)
  {
    assert reaped == [reaped[0]] + reaped[1..];
  }

  lemma PlacedTeardown(handles: seq<nat>, reaped: seq<nat>, joined: seq<nat>, spawned: nat)
    requires Placed(handles, reaped, joined, spawned) && handles != []
    ensures Placed(handles[1..], reaped, joined + [handles[0]], spawned)
  {
    assert handles == [handles[0]] + handles[1..];
  }

  /** With nothing left to join, every task ever spawned was cancelled and awaited once. */
  lemma AllJoined(joined: seq<nat>, spawned: nat, cancelled: set<nat>)
    requires Placed([], [], joined, spawned) && forall id :: id in joined ==> id in cancelled
    ensures multiset(joined) == Ids(spawned)
    ensures forall id :: 0 <= id < spawned ==> id in cancelled
  {
    assert multiset(joined) == Ids(spawned);
    forall id | 0 <= id < spawned ensures id in cancelled {
      IdsOnce(spawned, id);
      assert id in multiset(joined);
    }
  }

  // ------------------------------------------------------------- what a profile asks for

  /** What the supervisor sees when it wakes up. */
  datatype Wake = Wake(elapsedMs: nat, interrupted: bool)

  /** The tasks running, oldest first; those awaited, in order; tasks spawned; most tasks unjoined at once. */
  datatype Pool = Pool(running: seq<nat>, joined: seq<nat>, spawned: nat, peak: nat)

  const EMPTY := Pool([], [], 0, 0)

  function Larger(a: nat, b: nat): nat { if a >= b then a else b }

  function Newcomers(first: nat, count: nat): seq<nat> {
    if count == 0 then [] else Newcomers(first, count - 1) + [first + count - 1]
  }

  function Reversed(s: seq<nat>): seq<nat> {
    if s == [] then [] else Reversed(s[1..]) + [s[0]]
  }

  /** To `target` tasks: newcomers on top of the stack, or the youngest awaited first. */
  function ScaledTo(p: Pool, target: nat): Pool {
    var n := |p.running|;
    if target >= n then
      Pool(p.running + Newcomers(p.spawned, target - n), p.joined, p.spawned + target - n, Larger(p.peak, target))
    else
      p.(running := p.running[..target], joined := p.joined + Reversed(p.running[target..]))
  }

  predicate Stops(profile: Profile, wake: Wake) {
    wake.elapsedMs >= 1000 * TotalDuration(profile) || wake.interrupted
  }

  /** The wake-ups before `n` are acted on, and no more. */
  ghost predicate ActsOn(profile: Profile, wakes: seq<Wake>, n: nat) {
    && n <= |wakes|
    && (forall i :: 0 <= i < n ==> !Stops(profile, wakes[i]))
    && (n < |wakes| ==> Stops(profile, wakes[n]))
  }

  function Wanted(profile: Profile, wakes: seq<Wake>, i: nat): nat
    requires i < |wakes|
  {
    TargetConcurrency(profile, wakes[i].elapsedMs)
  }

  /** The pool once the first `n` wake-ups have been acted on. */
  function After(profile: Profile, wakes: seq<Wake>, n: nat): Pool
    requires n <= |wakes|
  {
    if n == 0 then EMPTY else ScaledTo(After(profile, wakes, n - 1), Wanted(profile, wakes, n - 1))
  }

  /** How far the profile climbs over the first `n` wake-ups, descents left out. */
  function Climb(profile: Profile, wakes: seq<Wake>, n: nat): nat
    requires n <= |wakes|
  {
    if n == 0 then 0
    else
      var before := if n == 1 then 0 else Wanted(profile, wakes, n - 2);
      Climb(profile, wakes, n - 1) + Larger(before, Wanted(profile, wakes, n - 1)) - before
  }

  /** The most the profile asks for over the first `n` wake-ups. */
  function Highest(profile: Profile, wakes: seq<Wake>, n: nat): nat
    requires n <= |wakes|
  {
    if n == 0 then 0 else Larger(Highest(profile, wakes, n - 1), Wanted(profile, wakes, n - 1))
  }

  lemma ScaledCounts(p: Pool, target: nat)
    ensures var q := ScaledTo(p, target);
            && |q.running| == target
            && q.spawned == p.spawned + Larger(|p.running|, target) - |p.running|
            && (|p.running| <= p.peak ==> q.peak == Larger(p.peak, target))
  {
    if target >= |p.running| {
      NewcomersCount(p.spawned, target - |p.running|);
    }
  }

  lemma {:induction false} NewcomersCount(first: nat, count: nat)
    ensures |Newcomers(first, count)| == count
  {
    if count > 0 {
      NewcomersCount(first, count - 1);
    }
  }

  /**
   Whatever the wake-ups: after each one the pool has as many tasks as the profile asks for, it has
   spawned exactly what the profile climbs, and never held more than the profile's highest demand.
   */
  lemma {:induction false} PoolFollowsProfile(profile: Profile, wakes: seq<Wake>, n: nat)
    requires n <= |wakes|
    ensures var p := After(profile, wakes, n);
            && |p.running| == (if n == 0 then 0 else Wanted(profile, wakes, n - 1))
            && p.spawned == Climb(profile, wakes, n)
            && p.peak == Highest(profile, wakes, n)
            && |p.running| <= p.peak <= UpperBound(profile)
  {
    hide TargetConcurrency, UpperBound, ScaledTo;
    if n > 0 {
      PoolFollowsProfile(profile, wakes, n - 1);
      TargetBounded(profile, wakes[n - 1].elapsedMs);
      ScaledCounts(After(profile, wakes, n - 1), Wanted(profile, wakes, n - 1));
    }
  }

  /** A descent followed by a climb back never revives a task: whoever is still running never left. */
  lemma {:induction false} StackKept(profile: Profile, wakes: seq<Wake>, n: nat, m: nat, k: nat)
    requires n <= m <= |wakes| && k <= |After(profile, wakes, n).running|
    requires forall i :: n <= i < m ==> k <= Wanted(profile, wakes, i)
    ensures k <= |After(profile, wakes, m).running|
    ensures After(profile, wakes, m).running[..k] == After(profile, wakes, n).running[..k]
    decreases m
  {
    hide TargetConcurrency, Newcomers, Reversed;
    if n < m {
      StackKept(profile, wakes, n, m - 1, k);
      var p := After(profile, wakes, m - 1);
      var target := Wanted(profile, wakes, m - 1);
      assert ScaledTo(p, target).running[..k] == p.running[..k];
    }
  }

  class Supervisor {
    var childTokens: seq<nat>
    var handles: seq<nat>
    var reaped: seq<nat>
    var current: nat
    /** Tasks spawned so far; the next one gets this number. */
    var spawned: nat
    /** Tokens cancelled, handles awaited, and the most tasks ever unjoined at once. */
    ghost var cancelled: set<nat>
    ghost var joined: seq<nat>
    ghost var peak: nat

    /**
     Tokens and handles are aligned, there are as many as counted, no task is lost or
     joined twice, and what is reaped or joined was cancelled first.
     */
    ghost predicate Valid()
      reads this
    {
      && childTokens == handles
      && |handles| == current
      && Placed(handles, reaped, joined, spawned)
      && (forall id :: id in reaped || id in joined ==> id in cancelled)
      && |handles| + |reaped| <= peak
    }

    /** The pool as it stands between two turns of the loop. */
    ghost function View(): Pool
      reads this
    {
      Pool(handles, joined, spawned, peak)
    }

    constructor ()
      ensures Valid() && reaped == [] && View() == EMPTY
    {
      childTokens, handles, reaped, current := [], [], [], 0;
      spawned, cancelled, joined, peak := 0, {}, [], 0;
    }

    method SpawnOne()
      requires Valid()
      modifies this
      ensures Valid() && current == old(current) + 1 && spawned == old(spawned) + 1
      ensures handles == old(handles) + [old(spawned)]
      ensures reaped == old(reaped) && joined == old(joined) && cancelled == old(cancelled)
      ensures peak == Larger(old(peak), |handles| + |reaped|)
    {
      hide Placed;
      PlacedSpawn(handles, reaped, joined, spawned);
      childTokens := childTokens + [spawned];
      handles := handles + [spawned];
      current := current + 1;
      spawned := spawned + 1;
      peak := Larger(peak, |handles| + |reaped|);
    }

    /** Pop the youngest task: cancel its token and set its handle aside. */
    method ReapOne()
      requires Valid() && current > 0
      modifies this
      ensures Valid() && current == old(current) - 1
      ensures handles == old(handles)[..current] && reaped == old(reaped) + [old(handles)[current]]
      ensures cancelled == old(cancelled) + {old(handles)[current]}
      ensures spawned == old(spawned) && joined == old(joined) && peak == old(peak)
    {
      hide Placed;
      PlacedReap(handles, reaped, joined, spawned);
      var n := |childTokens| - 1;
      var token := childTokens[n];
      childTokens := childTokens[..n];
      cancelled := cancelled + {token};
      var m := |handles| - 1;
      var handle := handles[m];
      handles := handles[..m];
      reaped := reaped + [handle];
      current := current - 1;
    }

    /** Await the first handle set aside. */
    method AwaitReaped()
      requires Valid() && reaped != []
      modifies this`reaped, this`joined
      ensures Valid() && reaped == old(reaped)[1..] && joined == old(joined) + [old(reaped)[0]]
    {
      hide Placed;
      PlacedJoin(handles, reaped, joined, spawned);
      joined := joined + [reaped[0]];
      reaped := reaped[1..];
    }

    /** Await the first handle still running, once it has been cancelled. */
    method AwaitRunning()
      requires Valid() && handles != [] && handles[0] in cancelled
      modifies this`handles, this`childTokens, this`current, this`joined
      ensures Valid() && handles == old(handles)[1..] && joined == old(joined) + [old(handles)[0]]
    {
      hide Placed;
      PlacedTeardown(handles, reaped, joined, spawned);
      joined := joined + [handles[0]];
      handles := handles[1..];
      childTokens := childTokens[1..];
      current := current - 1;
    }

    /** Await every handle set aside, in order. */
    method JoinReaped()
      requires Valid()
      modifies this`reaped, this`joined
      ensures Valid() && reaped == [] && joined == old(joined) + old(reaped)
    {
      hide Placed;
      ghost var done := 0;
      while reaped != []
        invariant Valid() && done <= |old(reaped)|
        invariant reaped == old(reaped)[done..] && joined == old(joined) + old(reaped)[..done]
        decreases |reaped|
      {
        AwaitReaped();
        assert old(reaped)[..done + 1] == old(reaped)[..done] + [old(reaped)[done]];
        done := done + 1;
      }
    }

    /** Spawn up to `target` tasks. */
    method Grow(target: nat)
      requires Valid() && reaped == []
      modifies this
      ensures Valid() && reaped == []
      ensures View() == if current == target then ScaledTo(old(View()), target) else old(View())
      ensures current == Larger(old(current), target)
    {
      hide Placed;
      while current < target
        invariant Valid() && reaped == [] && joined == old(joined)
        invariant old(current) <= current <= Larger(old(current), target)
        invariant handles == old(handles) + Newcomers(old(spawned), current - old(current))
        invariant spawned == old(spawned) + current - old(current)
        invariant peak == if current == old(current) then old(peak) else Larger(old(peak), current)
      {
        SpawnOne();
      }
    }

    /** Cancel down to `target` tasks, then await those set aside. */
    method Shrink(target: nat)
      requires Valid() && reaped == []
      modifies this
      ensures Valid() && reaped == []
      ensures View() == if old(current) > target then ScaledTo(old(View()), target) else old(View())
      ensures current <= target
    {
      hide Placed;
      while current > target
        invariant Valid() && joined == old(joined) && spawned == old(spawned) && peak == old(peak)
        invariant current <= old(current)
        invariant if old(current) > target then current >= target else current == old(current)
        invariant handles == old(handles)[..current] && reaped == Reversed(old(handles)[current..])
      {
        ReapOne();
        assert old(handles)[current..][1..] == old(handles)[current + 1..];
      }
      assert old(handles)[..|old(handles)|] == old(handles);
      JoinReaped();
    }

    /** One turn of the loop: grow or shrink to `target`, and await what was reaped. */
    method Scale(target: nat)
      requires Valid() && reaped == []
      modifies this
      ensures Valid() && reaped == [] && current == target
      ensures View() == ScaledTo(old(View()), target)
    {
      Grow(target);
      Shrink(target);
    }

    /** Cancel and await whatever is still running. */
    method Teardown()
      requires Valid() && reaped == []
      modifies this`handles, this`childTokens, this`current, this`joined, this`cancelled
      ensures Valid() && handles == [] && joined == old(joined) + old(handles)
    {
      hide Placed;
      CancelAll();
      ghost var done := 0;
      while handles != []
        invariant Valid() && done <= |old(handles)|
        invariant handles == old(handles)[done..] && joined == old(joined) + old(handles)[..done]
        invariant forall id :: id in handles ==> id in cancelled
        decreases |handles|
      {
        assert handles[0] in handles;
        AwaitRunning();
        assert old(handles)[..done + 1] == old(handles)[..done] + [old(handles)[done]];
        done := done + 1;
      }
    }

    method CancelAll()
      requires Valid()
      modifies this`cancelled
      ensures Valid() && cancelled == old(cancelled) + set id | id in childTokens
    {
      for i := 0 to |childTokens|
        invariant cancelled == old(cancelled) + set id | id in childTokens[..i]
      {
        assert childTokens[..i + 1] == childTokens[..i] + [childTokens[i]];
        cancelled := cancelled + {childTokens[i]};
      }
      assert childTokens[..|childTokens|] == childTokens;
    }

    /**
     The supervisor: `wakes` is what it sees each time round its loop, up to any point. It acts on
     every wake-up before the first that stops it, following the profile, and then joins all that runs.
     */
    method Run(profile: Profile, wakes: seq<Wake>) returns (acted: nat, ghost pools: seq<Pool>)
      requires Valid() && reaped == [] && View() == EMPTY
      modifies this
      ensures Valid() && reaped == [] && ActsOn(profile, wakes, acted)
      ensures |pools| == acted && forall i :: 0 <= i < acted ==> pools[i] == After(profile, wakes, i + 1)
      ensures var p := After(profile, wakes, acted);
              View() == p.(running := [], joined := p.joined + p.running)
      ensures multiset(joined) == Ids(spawned)
      ensures forall id :: 0 <= id < spawned ==> id in cancelled
      ensures spawned == Climb(profile, wakes, acted) && peak == Highest(profile, wakes, acted) <= UpperBound(profile)
    {
      hide Placed, ScaledTo, TargetConcurrency, TotalDuration, UpperBound, Climb, Highest;
      acted, pools := 0, [];
      while acted < |wakes| && !Stops(profile, wakes[acted])
        invariant acted <= |wakes| && Valid() && reaped == [] && View() == After(profile, wakes, acted)
        invariant forall i :: 0 <= i < acted ==> !Stops(profile, wakes[i])
        invariant |pools| == acted && forall i :: 0 <= i < acted ==> pools[i] == After(profile, wakes, i + 1)
      {
        Scale(TargetConcurrency(profile, wakes[acted].elapsedMs));
        acted := acted + 1;
        pools := pools + [View()];
      }
      PoolFollowsProfile(profile, wakes, acted);
      Teardown();
      AllJoined(joined, spawned, cancelled);
    }
  }
}
