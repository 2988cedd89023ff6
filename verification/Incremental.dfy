/**
 Incremental parsing in general. A parser looks at the pending input and either
 wants more, gives up, or takes one item off the front; between calls it may drop
 leading filler. When its answers are stable, what it delivers does not depend on
 how the input was cut into pieces.
 */
module Incremental {
  import opened Wrappers

  /** `used` is the number of input elements the item takes up. */
  datatype Outcome<+T, +E> = Incomplete | Malformed(error: E) | Complete(item: T, used: nat)

  function Skipping<T, E>(n: nat, r: Outcome<T, E>): Outcome<T, E> {
    if r.Complete? then r.(used := n + r.used) else r
  }

  function Drop<A>(n: nat, s: seq<A>): seq<A> {
    if n <= |s| then s[n..] else []
  }

  /**
   What chunk invariance rests on: `next` takes at least one element and no more
   than there are, an answer other than `Incomplete` is not changed by more input,
   and dropping the filler in front of an incomplete item loses nothing.
   */
  ghost predicate Resumable<A(!new), T, E>(next: seq<A> -> Outcome<T, E>, filler: seq<A> -> nat) {
    && (forall p :: next(p).Complete? ==> 0 < next(p).used <= |p|)
    && (forall p :: filler(p) <= |p|)
    && (forall p, q :: !next(p).Incomplete? ==> next(p + q) == next(p))
    && (forall p, q :: next(p).Incomplete? ==>
          && filler(p + q) == filler(p) + filler(Drop(filler(p), p) + q)
          && next(p + q) == Skipping(filler(p), next(Drop(filler(p), p) + q)))
  }

  // ---------- one push of everything ----------

  datatype End<A, +E> = Starved(left: seq<A>) | Failed(error: E)

  /** All items up to the first error, then that error or the input that is left over. */
  datatype Drained<A, +T, +E> = Drained(items: seq<T>, end: End<A, E>)

  function Then<A, T, E>(items: seq<T>, d: Drained<A, T, E>): Drained<A, T, E> {
    Drained(items + d.items, d.end)
  }

  function Drain<A, T, E>(next: seq<A> -> Outcome<T, E>, filler: seq<A> -> nat, p: seq<A>): Drained<A, T, E>
    decreases |p|
  {
    match next(p)
    case Malformed(e) => Drained([], Failed(e))
    case Complete(x, used) =>
      if 0 < used <= |p| then Then([x], Drain(next, filler, p[used..])) else Drained([], Starved(p))
    case Incomplete => Drained([], Starved(Drop(filler(p), p)))
  }

  lemma DrainSkips<A(!new), T, E>(next: seq<A> -> Outcome<T, E>, filler: seq<A> -> nat, p: seq<A>, q: seq<A>)
    requires Resumable(next, filler) && next(p).Incomplete?
    ensures Drain(next, filler, p + q) == Drain(next, filler, Drop(filler(p), p) + q)
  {
    var k := filler(p);
    var p' := Drop(k, p);
    assert next(p + q) == Skipping(k, next(p' + q)) && filler(p + q) == k + filler(p' + q);
    var r := next(p' + q);
    assert k <= |p| && filler(p' + q) <= |p' + q| && (r.Complete? ==> 0 < r.used <= |p' + q|);
    hide Resumable;
    if r.Complete? {
      assert (p + q)[k + r.used..] == (p' + q)[r.used..];
    } else {
      assert Drop(filler(p + q), p + q) == Drop(filler(p' + q), p' + q);
    }
  }

  // ---------- arbitrary interleavings of pushes and pulls ----------

  datatype Op<A> = Push(data: seq<A>) | Pull

  function DataOf<A>(op: Op<A>): seq<A> {
    if op.Push? then op.data else []
  }

  /** A reader: what is pending, and what it has handed out so far. */
  datatype Reader<A, +T, +E> = Reader(pending: seq<A>, items: seq<T>, error: Option<E>)

  function Apply<A, T, E>(next: seq<A> -> Outcome<T, E>, filler: seq<A> -> nat, s: Reader<A, T, E>, op: Op<A>)
    : Reader<A, T, E>
  {
    match op
    case Push(data) => s.(pending := s.pending + data)
    case Pull =>
      if s.error.Some? then s
      else
        match next(s.pending)
        case Incomplete => s.(pending := Drop(filler(s.pending), s.pending))
        case Malformed(e) => s.(pending := Drop(filler(s.pending), s.pending), error := Some(e))
        case Complete(x, used) => s.(pending := Drop(used, s.pending), items := s.items + [x])
  }

  function Run<A, T, E>(next: seq<A> -> Outcome<T, E>, filler: seq<A> -> nat, s: Reader<A, T, E>, ops: seq<Op<A>>)
    : Reader<A, T, E>
    decreases |ops|
  {
    if ops == [] then s else Run(next, filler, Apply(next, filler, s, ops[0]), ops[1..])
  }

  function Pushed<A>(ops: seq<Op<A>>): seq<A> {
    if ops == [] then [] else DataOf(ops[0]) + Pushed(ops[1..])
  }

  /** What a reader will have delivered once `more` has arrived and been drained. */
  function Eventually<A, T, E>(next: seq<A> -> Outcome<T, E>, filler: seq<A> -> nat, s: Reader<A, T, E>, more: seq<A>)
    : Drained<A, T, E>
  {
    if s.error.Some? then Drained(s.items, Failed(s.error.value))
    else Then(s.items, Drain(next, filler, s.pending + more))
  }

  lemma PullKeepsFuture<A(!new), T, E>(
    next: seq<A> -> Outcome<T, E>, filler: seq<A> -> nat, s: Reader<A, T, E>, more: seq<A>)
    requires Resumable(next, filler) && s.error.None?
    ensures Eventually(next, filler, Apply(next, filler, s, Pull), more) == Eventually(next, filler, s, more)
  {
    var p := s.pending;
    match next(p)
    case Incomplete =>
      DrainSkips(next, filler, p, more);
    case Malformed(e) =>
      assert next(p + more) == next(p);
      assert s.items + [] == s.items;
    case Complete(x, used) =>
      assert next(p + more) == next(p);
      assert (p + more)[used..] == Drop(used, p) + more;
      var d := Drain(next, filler, Drop(used, p) + more);
      assert s.items + ([x] + d.items) == s.items + [x] + d.items;
  }

  /** No operation changes what will eventually be delivered. */
  lemma StepKeepsFuture<A(!new), T, E>(
    next: seq<A> -> Outcome<T, E>, filler: seq<A> -> nat, s: Reader<A, T, E>, op: Op<A>, more: seq<A>)
    requires Resumable(next, filler)
    ensures Eventually(next, filler, Apply(next, filler, s, op), more)
            == Eventually(next, filler, s, DataOf(op) + more)
  {
    match op
    case Push(data) =>
      assert s.pending + data + more == s.pending + (data + more);
    case Pull =>
      assert [] + more == more;
      if s.error.None? {
        PullKeepsFuture(next, filler, s, more);
      }
  }

  /** Hence no run of operations does, from any state. */
  lemma {:induction false} RunKeepsFuture<A(!new), T, E>(
    next: seq<A> -> Outcome<T, E>, filler: seq<A> -> nat, s: Reader<A, T, E>, ops: seq<Op<A>>, more: seq<A>)
    requires Resumable(next, filler)
    ensures Eventually(next, filler, Run(next, filler, s, ops), more)
            == Eventually(next, filler, s, Pushed(ops) + more)
    decreases |ops|
  {
    if ops == [] {
      assert [] + more == more;
    } else {
      RunKeepsFuture(next, filler, Apply(next, filler, s, ops[0]), ops[1..], more);
      StepKeepsFuture(next, filler, s, ops[0], Pushed(ops[1..]) + more);
      assert DataOf(ops[0]) + (Pushed(ops[1..]) + more) == Pushed(ops) + more;
    }
  }

  /**
   Chunk invariance. Whatever the pushes and pulls, the items handed out are a prefix
   of those of the whole input; after an error they are all of them and the error is
   the same; otherwise draining what is pending completes them exactly.
   */
  lemma ChunkInvariance<A(!new), T, E>(
    next: seq<A> -> Outcome<T, E>, filler: seq<A> -> nat, ops: seq<Op<A>>)
    requires Resumable(next, filler)
    ensures var s := Run(next, filler, Reader([], [], None), ops);
            var whole := Drain(next, filler, Pushed(ops));
            && s.items <= whole.items
            && (s.error.Some? ==> Drained(s.items, Failed(s.error.value)) == whole)
            && (s.error.None? ==> Then(s.items, Drain(next, filler, s.pending)) == whole)
  {
    var start: Reader<A, T, E> := Reader([], [], None);
    var s := Run(next, filler, start, ops);
    RunKeepsFuture(next, filler, start, ops, []);
    assert [] + (Pushed(ops) + []) == Pushed(ops);
    assert s.pending + [] == s.pending;
    var whole := Drain(next, filler, Pushed(ops));
    assert Then([], whole) == whole;
  }
}
