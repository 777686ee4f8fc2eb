/** The bridge between the interleaved protocol and one undisturbed reconcile: when
    nothing else moves and reads are current, the protocol's steps compute `Once`.
 */
module Undisturbed {
  import opened Types
  import opened ApiServer
  import opened Reconcile
  import opened Protocol

  /** How many client calls the rest of an undisturbed reconcile makes. */
  function Calls(parse: Parser, st: Store, key: Key, now: int, w: Worker): nat
    decreases Rank(w)
  {
    if w.Done? then 0
    else
      var (next, w') := Advance(parse, st, st, key, now, false, w);
      1 + Calls(parse, next, key, now, w')
  }

  function Repeat(l: Label, n: nat): seq<Label> {
    if n == 0 then [] else [l] + Repeat(l, n - 1)
  }

  lemma ExecFromFront(parse: Parser, w: World, l: Label, ls: seq<Label>)
    ensures Exec(parse, w, [l] + ls) == Exec(parse, Next(parse, w, l), ls)
  {
    ExecSplit(parse, w, [l], ls);
    assert Exec(parse, w, [l][..0]) == w;
  }

  lemma {:induction false} ContinuesRunToEnd(parse: Parser, w: World, key: Key)
    requires key in w.workers
    ensures
      var n := Calls(parse, w.store, key, w.clock, w.workers[key]);
      var end := Exec(parse, w, Repeat(Continue(key, None, false), n));
      var (st, outcome) := RunToEnd(parse, w.store, key, w.clock, w.workers[key]);
      end.store == st && key in end.workers && end.workers[key] == Done(outcome)
    decreases Rank(w.workers[key])
  {
    var worker := w.workers[key];
    if !worker.Done? {
      var l := Continue(key, None, false);
      var next := Next(parse, w, l);
      ContinuesRunToEnd(parse, next, key);
      ExecFromFront(parse, w, l, Repeat(l, Calls(parse, next.store, key, w.clock, next.workers[key])));
    }
  }

  lemma StartBegins(parse: Parser, w: World, key: Key)
    requires key !in w.workers
    ensures
      var started := Next(parse, w, Start(key, None));
      && started.store == w.store && started.clock == w.clock
      && key in started.workers && started.workers[key] == Begin(w.store, key)
  {
  }

  /** The labels of one reconcile that nothing disturbs. */
  function OneReconcile(parse: Parser, w: World, key: Key): seq<Label> {
    var n := Calls(parse, w.store, key, w.clock, Begin(w.store, key));
    [Start(key, None)] + Repeat(Continue(key, None, false), n)
  }

  /** Starting a reconcile and letting it make its calls, with nothing in between, ends
      in the store and with the outcome of `Once`. */
  lemma UndisturbedRunIsOnce(parse: Parser, w: World, key: Key)
    requires key !in w.workers
    ensures
      var end := Exec(parse, w, OneReconcile(parse, w, key));
      && end.store == Once(parse, w.store, key, w.clock).0
      && key in end.workers && end.workers[key] == Done(Once(parse, w.store, key, w.clock).1)
  {
    var started := Next(parse, w, Start(key, None));
    StartBegins(parse, w, key);
    ContinuesRunToEnd(parse, started, key);
    var n := Calls(parse, w.store, key, w.clock, Begin(w.store, key));
    ExecFromFront(parse, w, Start(key, None), Repeat(Continue(key, None, false), n));
  }
}
