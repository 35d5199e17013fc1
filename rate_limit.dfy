// The windowed log limiter shared by the console filters: within a window
// the first `limit` counted messages are passed on, the next one is replaced
// by a single notice and the rest are dropped; a message that arrives more
// than `span` milliseconds after the window opened starts a new window.
module RateLimit {

  /** What a filter does with one counted message. */
  datatype Action = Forward | Notice | Drop

  /** The counter and the time its window opened (`errorCount`, `lastErrorTime`, ...). */
  datatype Window = Window(count: nat, start: int)

  /** The reset that runs first on every message. */
  function Refresh(w: Window, now: int, span: nat): (r: Window)
    ensures r.start == w.start || r.start == now
    ensures r.count <= w.count
  {
    if now - w.start > span then Window(0, now) else w
  }

  /** What the counter allows: pass below the limit, one notice at it, nothing above. */
  function Decide(count: nat, limit: nat): (a: Action)
    ensures a == Forward <==> count < limit
    ensures a == Notice <==> count == limit
  {
    if count < limit then Forward else if count == limit then Notice else Drop
  }

  /** One counted message: refresh the window, decide, count the message. */
  function Step(w: Window, now: int, span: nat, limit: nat): (r: (Window, Action))
    ensures r.0.count == Refresh(w, now, span).count + 1
    ensures r.0.start == Refresh(w, now, span).start
    ensures r.1 == Decide(Refresh(w, now, span).count, limit)
  {
    var f := Refresh(w, now, span);
    (Window(f.count + 1, f.start), Decide(f.count, limit))
  }

  /** What reaches the underlying console for one decision. */
  function Emit(a: Action, message: string, notice: string): (out: seq<string>)
    ensures |out| <= 1
    ensures out == [message] <==> a == Forward || (a == Notice && notice == message)
  {
    match a
    case Forward => [message]
    case Notice => [notice]
    case Drop => []
  }

  /** The actions taken for counted messages arriving at `times`, in order. */
  function Run(w: Window, times: seq<int>, span: nat, limit: nat): (r: seq<Action>)
    ensures |r| == |times|
    decreases |times|
  {
    if times == [] then []
    else
      var (w', a) := Step(w, times[0], span, limit);
      [a] + Run(w', times[1..], span, limit)
  }

  /** The number of `a` actions in `acts`. */
  function CountOf(acts: seq<Action>, a: Action): (n: nat)
    ensures n <= |acts|
  {
    if acts == [] then 0
    else CountOf(acts[..|acts| - 1], a) + (if acts[|acts| - 1] == a then 1 else 0)
  }

  /**
   * While no message falls outside the window, the i-th message is decided
   * on the count the window had plus i.
   */
  lemma {:induction false} RunInWindow(w: Window, times: seq<int>, span: nat, limit: nat)
    requires forall i :: 0 <= i < |times| ==> times[i] - w.start <= span
    ensures forall i :: 0 <= i < |times| ==> Run(w, times, span, limit)[i] == Decide(w.count + i, limit)
    decreases |times|
  {
    if times != [] {
      var (w', a) := Step(w, times[0], span, limit);
      assert w' == Window(w.count + 1, w.start);
      RunInWindow(w', times[1..], span, limit);
      var r := Run(w, times, span, limit);
      assert r == [a] + Run(w', times[1..], span, limit);
      forall i | 0 <= i < |times|
        ensures r[i] == Decide(w.count + i, limit)
      {
        if i > 0 {
          assert r[i] == Run(w', times[1..], span, limit)[i - 1];
        }
      }
    }
  }

  /** Counting the decisions for the counts 0 .. n-1. */
  lemma {:induction false} CountDecisions(acts: seq<Action>, limit: nat)
    requires forall i :: 0 <= i < |acts| ==> acts[i] == Decide(i, limit)
    ensures CountOf(acts, Forward) == (if |acts| < limit then |acts| else limit)
    ensures CountOf(acts, Notice) == (if |acts| > limit then 1 else 0)
  {
    if acts != [] {
      CountDecisions(acts[..|acts| - 1], limit);
    }
  }

  /**
   * A burst of counted messages that all arrive within one window opened by
   * the first of them: exactly `min(n, limit)` are passed on, and exactly
   * one notice is written when there are more than `limit`.
   */
  lemma BurstIsCapped(w: Window, times: seq<int>, span: nat, limit: nat)
    requires times != [] && times[0] - w.start > span
    requires forall i :: 0 <= i < |times| ==> times[0] <= times[i] <= times[0] + span
    ensures var acts := Run(w, times, span, limit);
            CountOf(acts, Forward) == (if |times| < limit then |times| else limit) &&
            CountOf(acts, Notice) == (if |times| > limit then 1 else 0)
  {
    var acts := Run(w, times, span, limit);
    var w' := Window(1, times[0]);
    assert Step(w, times[0], span, limit) == (w', Decide(0, limit));
    RunInWindow(w', times[1..], span, limit);
    forall i | 0 <= i < |acts|
      ensures acts[i] == Decide(i, limit)
    {
      if i > 0 {
        assert acts[i] == Run(w', times[1..], span, limit)[i - 1];
      }
    }
    CountDecisions(acts, limit);
  }
}
