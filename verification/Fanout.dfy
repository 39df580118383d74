/** The bounded concurrent fan-out of client.go: an errgroup with a limit, one result slot per
    item, and the results joined in item order. */
module Fanout {
  import opened Prelude

  /** The sequential program the fan-out stands for. */
  function MapConcat<T, R>(items: seq<T>, fn: T -> seq<R>): seq<R>
  {
    if items == [] then []
    else MapConcat(items[..|items| - 1], fn) + fn(items[|items| - 1])
  }

  /** Items in a row give their results in a row. */
  lemma {:induction false} MapConcatJoins<T, R>(a: seq<T>, b: seq<T>, fn: T -> seq<R>)
    ensures MapConcat(a + b, fn) == MapConcat(a, fn) + MapConcat(b, fn)
    ensures |a| == 1 ==> MapConcat(a, fn) == fn(a[0])
  {
    if |a| == 1 {
      assert MapConcat(a[..0], fn) == [];
    }
    if b == [] {
      assert a + b == a;
    } else {
      var n := |b| - 1;
      assert (a + b)[..|a + b| - 1] == a + b[..n];
      MapConcatJoins(a, b[..n], fn);
    }
  }

  lemma {:induction false} MapConcatHas<T, R>(items: seq<T>, fn: T -> seq<R>, x: R)
    ensures x in MapConcat(items, fn) <==> exists i :: 0 <= i < |items| && x in fn(items[i])
  {
    if items != [] {
      var n := |items| - 1;
      MapConcatHas(items[..n], fn, x);
      if i :| 0 <= i < n && x in fn(items[..n][i]) {
        assert x in fn(items[i]);
      }
    }
  }

  /** One moment of the fan-out: items before next have been handed to a goroutine, those in
      running have not returned yet, and every other one has filled its slot. */
  datatype Moment<R> = Moment(next: nat, running: set<nat>, slots: seq<Option<seq<R>>>)

  datatype Event<R> = Go | Return(i: nat, out: seq<R>)

  function Start<R>(n: nat): Moment<R>
  {
    Moment(0, {}, seq(n, _ => None))
  }

  /** Go blocks while limit goroutines are running; a goroutine returns whenever it likes. */
  predicate Enabled<R>(m: Moment<R>, limit: nat, e: Event<R>)
  {
    match e
    case Go => m.next < |m.slots| && |m.running| < limit
    case Return(i, _) => i in m.running && i < |m.slots|
  }

  function Take<R>(m: Moment<R>, e: Event<R>): Moment<R>
    requires e.Return? ==> e.i < |m.slots|
  {
    match e
    case Go => m.(next := m.next + 1, running := m.running + {m.next})
    case Return(i, out) => m.(running := m.running - {i}, slots := m.slots[i := Some(out)])
  }

  /** Wait returns: everything has been handed out and has come back. */
  predicate Done<R>(m: Moment<R>)
  {
    m.next == |m.slots| && m.running == {}
  }

  predicate Runs<R>(m: Moment<R>, limit: nat, schedule: seq<Event<R>>)
    decreases |schedule|
  {
    schedule == [] || (Enabled(m, limit, schedule[0]) && Runs(Take(m, schedule[0]), limit, schedule[1..]))
  }

  function After<R>(m: Moment<R>, limit: nat, schedule: seq<Event<R>>): Moment<R>
    requires Runs(m, limit, schedule)
    decreases |schedule|
  {
    if schedule == [] then m else After(Take(m, schedule[0]), limit, schedule[1..])
  }

  /** The joined result. */
  function Joined<R>(slots: seq<Option<seq<R>>>): seq<R>
  {
    if slots == [] then []
    else
      var n := |slots| - 1;
      Joined(slots[..n]) + if slots[n].Some? then slots[n].value else []
  }

  predicate Consistent<R>(m: Moment<R>, limit: nat)
  {
    && m.next <= |m.slots| && |m.running| <= limit
    && (forall i :: i in m.running ==> i < m.next)
    && forall i :: 0 <= i < |m.slots| ==> (m.slots[i].Some? <==> i < m.next && i !in m.running)
  }

  /** Each slot is filled at most once, each event brings the end nearer by one, and an event is
      possible until the end. */
  lemma ConsistentStep<R>(m: Moment<R>, limit: nat, e: Event<R>)
    requires Consistent(m, limit) && Enabled(m, limit, e)
    ensures Consistent(Take(m, e), limit) && Remaining(Take(m, e)) == Remaining(m) - 1
    ensures e.Return? ==> m.slots[e.i].None?
  {
    assert m.next !in m.running;
  }

  /** Goroutines still to be started and to come back. */
  function Remaining<R>(m: Moment<R>): int
  {
    2 * (|m.slots| - m.next) + |m.running|
  }

  ghost predicate Answers<T, R>(schedule: seq<Event<R>>, items: seq<T>, fn: T -> seq<R>)
  {
    forall k :: 0 <= k < |schedule| && schedule[k].Return? ==>
      schedule[k].i < |items| && schedule[k].out == fn(items[schedule[k].i])
  }

  ghost predicate Filled<T, R>(m: Moment<R>, items: seq<T>, fn: T -> seq<R>)
  {
    |m.slots| == |items| && forall i :: 0 <= i < |items| && m.slots[i].Some? ==> m.slots[i].value == fn(items[i])
  }

  lemma {:induction false} RunKeeps<T, R>(m: Moment<R>, limit: nat, schedule: seq<Event<R>>, items: seq<T>,
                                          fn: T -> seq<R>)
    requires Consistent(m, limit) && Runs(m, limit, schedule)
    requires Answers(schedule, items, fn) && Filled(m, items, fn)
    ensures var t := After(m, limit, schedule);
      Consistent(t, limit) && Filled(t, items, fn) && Remaining(t) == Remaining(m) - |schedule|
    decreases |schedule|
  {
    if schedule != [] {
      ConsistentStep(m, limit, schedule[0]);
      assert forall k :: 0 <= k < |schedule[1..]| ==> schedule[1..][k] == schedule[k + 1];
      RunKeeps(Take(m, schedule[0]), limit, schedule[1..], items, fn);
    }
  }

  lemma {:induction false} JoinedIsMapConcat<T, R>(slots: seq<Option<seq<R>>>, items: seq<T>, fn: T -> seq<R>)
    requires |slots| == |items| && forall i :: 0 <= i < |items| ==> slots[i] == Some(fn(items[i]))
    ensures Joined(slots) == MapConcat(items, fn)
  {
    if items != [] {
      JoinedIsMapConcat(slots[..|items| - 1], items[..|items| - 1], fn);
    }
  }

  /** Every schedule: never more than limit callbacks at once, at most two events per item, the
      end is reached exactly after two events per item, and the result is then the sequential one. */
  lemma EverySchedule<T, R>(items: seq<T>, fn: T -> seq<R>, limit: nat, schedule: seq<Event<R>>)
    requires Runs(Start(|items|), limit, schedule) && Answers(schedule, items, fn)
    ensures var t := After(Start(|items|), limit, schedule);
      && |t.running| <= limit
      && |schedule| <= 2 * |items|
      && (Done(t) <==> |schedule| == 2 * |items|)
      && (Done(t) ==> Joined(t.slots) == MapConcat(items, fn))
  {
    RunKeeps(Start(|items|), limit, schedule, items, fn);
    var t := After(Start(|items|), limit, schedule);
    if Done(t) {
      JoinedIsMapConcat(t.slots, items, fn);
    }
  }

  /** The fan-out never gets stuck if and only if the limit is at least one or there is nothing to do. */
  lemma NeverStuckIff<R(!new)>(n: nat, limit: nat)
    ensures limit >= 1 || n == 0 <==>
      forall m: Moment<R> :: Consistent(m, limit) && |m.slots| == n && !Done(m) ==> exists e :: Enabled(m, limit, e)
  {
    if limit >= 1 || n == 0 {
      forall m: Moment<R> | Consistent(m, limit) && |m.slots| == n && !Done(m)
        ensures exists e :: Enabled(m, limit, e)
      {
        if m.running == {} {
          assert Enabled(m, limit, Go);
        } else {
          var i :| i in m.running;
          assert Enabled(m, limit, Return(i, []));
        }
      }
    } else {
      var m := Start<R>(n);
      assert Consistent(m, limit) && |m.slots| == n && !Done(m);
      assert forall e :: !Enabled(m, limit, e);
    }
  }

  /** The program itself, under any scheduler: the choice between the two cases is not ours. */
  method ParallelSamples<T, R(0)>(items: seq<T>, limit: nat, fn: T -> seq<R>) returns (samples: seq<R>)
    requires limit >= 1
    ensures samples == MapConcat(items, fn)
  {
    var per := new seq<R>[|items|];
    var next: nat, running: set<nat> := 0, {};
    while next < |items| || running != {}
      invariant next <= |items| && |running| <= limit
      invariant forall i :: i in running ==> i < next
      invariant forall i :: 0 <= i < next && i !in running ==> per[i] == fn(items[i])
      decreases 2 * (|items| - next) + |running|
    {
      if {
        case next < |items| && |running| < limit =>
          running, next := running + {next}, next + 1;
        case running != {} =>
          var i :| i in running;
          per[i] := fn(items[i]);
          running := running - {i};
      }
    }
    samples := [];
    for i := 0 to |items|
      invariant samples == MapConcat(items[..i], fn)
    {
      assert items[..i + 1][..i] == items[..i];
      samples := samples + per[i];
    }
    assert items[..|items|] == items;
  }
}
