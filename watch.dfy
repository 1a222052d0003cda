/**
 * Watch mode of internal/output/watch.go: clear the screen and run the
 * refresh function once, then on every tick clear and run it again, until
 * the context is cancelled or a run fails.
 *
 * The ticker, the context and Go's choice between two ready select cases
 * are replaced by a finite trace of events, each the case select took; a
 * trace that ends without a cancel leaves the loop still waiting. The
 * refresh function is `fn`, mapping the number of the call (0 for the
 * first) to the error it returns, if any.
 */
module Watch {
  import opened Common

  datatype Event = Tick | Cancel

  /** What Watch does to the outside world, in order. */
  datatype Effect = ClearScreen | Call(n: nat)

  /** Returned(None) is Go's `return nil`; Waiting means the trace ran out inside the loop. */
  datatype Ending = Returned(err: Option<string>) | Waiting

  datatype Outcome = Outcome(ending: Ending, calls: nat)

  /** One clear followed by one call, for calls 0 .. n - 1. */
  function Effects(n: nat): (r: seq<Effect>)
    ensures |r| == 2 * n
    ensures forall i :: 0 <= i < n ==> r[2 * i] == ClearScreen && r[2 * i + 1] == Call(i)
  {
    if n == 0 then [] else Effects(n - 1) + [ClearScreen, Call(n - 1)]
  }

  // ---------------------------------------------------------------------
  // Step semantics: one event at a time, as the select loop consumes them
  // ---------------------------------------------------------------------

  /** The select loop with `k` calls already made. */
  function Loop(trace: seq<Event>, fn: nat -> Option<string>, k: nat): (o: Outcome)
    ensures o.calls >= k
    decreases |trace|
  {
    if trace == [] then Outcome(Waiting, k)
    else if trace[0] == Cancel then Outcome(Returned(None), k)
    else if fn(k).Some? then Outcome(Returned(fn(k)), k + 1)
    else Loop(trace[1..], fn, k + 1)
  }

  /** Watch: the first call, then the loop if it succeeded. */
  function WatchRun(trace: seq<Event>, fn: nat -> Option<string>): (o: Outcome)
    ensures o.calls >= 1
  {
    if fn(0).Some? then Outcome(Returned(fn(0)), 1) else Loop(trace, fn, 1)
  }

  // ---------------------------------------------------------------------
  // Closed form: how far the trace gets and which call fails first
  // ---------------------------------------------------------------------

  /** Position of the first cancel, or the trace length when there is none. */
  function CancelIndex(trace: seq<Event>): (c: nat)
    ensures c <= |trace|
    ensures forall j :: 0 <= j < c ==> trace[j] == Tick
    ensures c < |trace| ==> trace[c] == Cancel
  {
    match FirstIndex(trace, e => e == Cancel)
    case Some(c) => c
    case None => |trace|
  }

  /** The first call in [from, from + count) that fails. */
  function FirstFailure(fn: nat -> Option<string>, from: nat, count: nat): (r: Option<nat>)
    ensures r.Some? ==> from <= r.value < from + count && fn(r.value).Some?
    ensures r.Some? ==> forall j :: from <= j < r.value ==> fn(j).None?
    ensures r.None? ==> forall j :: from <= j < from + count ==> fn(j).None?
    decreases count
  {
    if count == 0 then None
    else if fn(from).Some? then Some(from)
    else FirstFailure(fn, from + 1, count - 1)
  }

  /**
   * Watch makes the first call and one more per tick before the first
   * cancel; it stops at the first failing call among those, returning its
   * error, and otherwise returns nil at the cancel or is still waiting.
   */
  function ClosedForm(trace: seq<Event>, fn: nat -> Option<string>, k: nat): Outcome {
    var c := CancelIndex(trace);
    match FirstFailure(fn, k, c)
    case Some(j) => Outcome(Returned(fn(j)), j + 1)
    case None => if c < |trace| then Outcome(Returned(None), k + c) else Outcome(Waiting, k + c)
  }

  lemma {:induction false} LoopClosedForm(trace: seq<Event>, fn: nat -> Option<string>, k: nat)
    ensures Loop(trace, fn, k) == ClosedForm(trace, fn, k)
    decreases |trace|
  {
    if trace != [] && trace[0] == Tick {
      LoopClosedForm(trace[1..], fn, k + 1);
      var c := CancelIndex(trace[1..]);
      assert CancelIndex(trace) == c + 1 by {
        assert FirstIndex(trace, e => e == Cancel) ==
          match FirstIndex(trace[1..], e => e == Cancel)
          case None => None
          case Some(i) => Some(i + 1);
      }
    }
  }

  /**
   * The two descriptions agree: Watch calls fn once plus once per tick
   * before the first cancel, and stops at the first failing call.
   */
  lemma WatchClosedForm(trace: seq<Event>, fn: nat -> Option<string>)
    ensures var c := CancelIndex(trace);
            WatchRun(trace, fn) ==
              match FirstFailure(fn, 0, c + 1)
              case Some(j) => Outcome(Returned(fn(j)), j + 1)
              case None => if c < |trace| then Outcome(Returned(None), c + 1) else Outcome(Waiting, c + 1)
  {
    LoopClosedForm(trace, fn, 1);
  }

  /** A returned error is the one the last call produced; no call comes after it. */
  lemma ErrorIsLastCall(trace: seq<Event>, fn: nat -> Option<string>)
    requires WatchRun(trace, fn).ending.Returned? && WatchRun(trace, fn).ending.err.Some?
    ensures WatchRun(trace, fn).ending.err == fn(WatchRun(trace, fn).calls - 1)
    ensures forall j :: 0 <= j < WatchRun(trace, fn).calls - 1 ==> fn(j).None?
  {
    WatchClosedForm(trace, fn);
  }

  /** Returning nil means a cancel was reached after every call had succeeded. */
  lemma NilMeansCancelled(trace: seq<Event>, fn: nat -> Option<string>)
    requires WatchRun(trace, fn).ending == Returned(None)
    ensures CancelIndex(trace) < |trace|
    ensures WatchRun(trace, fn).calls == CancelIndex(trace) + 1
    ensures forall j :: 0 <= j < WatchRun(trace, fn).calls ==> fn(j).None?
  {
    WatchClosedForm(trace, fn);
  }

  /** The ticker loop itself, over the trace; `effects` is what it did, in order. */
  method Watch(trace: seq<Event>, fn: nat -> Option<string>) returns (ending: Ending, effects: seq<Effect>)
    ensures ending == WatchRun(trace, fn).ending
    ensures effects == Effects(WatchRun(trace, fn).calls)
    ensures fn(0).Some? ==> ending == Returned(fn(0)) && effects == [ClearScreen, Call(0)]
  {
    effects := [ClearScreen, Call(0)];
    var result := fn(0);
    if result.Some? {
      return Returned(result), effects;
    }
    var i, calls := 0, 1;
    while i < |trace|
      invariant 0 <= i <= |trace| && calls == i + 1
      invariant effects == Effects(calls)
      invariant WatchRun(trace, fn) == Loop(trace[i..], fn, calls)
    {
      if trace[i] == Cancel {
        return Returned(None), effects;
      }
      effects := effects + [ClearScreen, Call(calls)];
      result := fn(calls);
      calls := calls + 1;
      if result.Some? {
        return Returned(result), effects;
      }
      assert trace[i..][1..] == trace[i + 1..];
      i := i + 1;
    }
    return Waiting, effects;
  }
}
