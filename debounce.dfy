/** The trailing-edge debounce shared by the ingredient box of the stock screen and the
    recipe search box: an effect that depends on `query` clears the previous timer and
    arms a new one, and the callback reads the query of the render that armed it. */
module Debounce {
  import opened Outcomes

  /** The one `setTimeout` an effect may have outstanding: none, or due at an absolute time. */
  datatype Timer = Idle | Pending(deadline: nat)

  /** What the environment does to a debounced text field: a keystroke that sets the text,
      or a number of milliseconds passing. */
  datatype Event = Type(text: string) | Wait(ms: nat)

  /** The part of a component's state that the debounce effect reads and writes. */
  datatype Clock = Clock(query: string, timer: Timer, now: nat)

  /** One event. `Type` re-runs the effect only when the text changes (React bails out on
      an equal state value); the effect's cleanup cancels the old timer. `Wait` fires the
      pending timer if its deadline falls within the interval, yielding the query it saw. */
  function Step(c: Clock, e: Event, delay: nat): (r: (Clock, Option<string>))
    ensures e.Type? ==> r.1.None? && r.0.query == e.text && r.0.now == c.now
    ensures e.Type? && e.text != c.query ==> r.0.timer == Pending(c.now + delay)
    ensures e.Type? && e.text == c.query ==> r.0.timer == c.timer
    ensures e.Wait? ==> r.0.query == c.query && r.0.now == c.now + e.ms
    ensures e.Wait? ==> (r.1.Some? <==> c.timer.Pending? && c.timer.deadline <= c.now + e.ms)
    ensures r.1.Some? ==> r.1.value == c.query && r.0.timer.Idle?
    ensures r.1.None? && e.Wait? ==> r.0.timer == c.timer
  {
    match e
    case Type(text) =>
      if text == c.query then (c, None) else (Clock(text, Pending(c.now + delay), c.now), None)
    case Wait(ms) =>
      var t := c.now + ms;
      if c.timer.Pending? && c.timer.deadline <= t then (Clock(c.query, Idle, t), Some(c.query))
      else (c.(now := t), None)
  }

  /** Number of `Wait` events in a trace. */
  function Waits(events: seq<Event>): nat
  {
    if events == [] then 0 else (if events[0].Wait? then 1 else 0) + Waits(events[1..])
  }

  /** Total time a trace lets pass. */
  function Elapsed(events: seq<Event>): nat
  {
    if events == [] then 0 else (if events[0].Wait? then events[0].ms else 0) + Elapsed(events[1..])
  }

  /** A whole trace: the final clock and the queries seen by the timers that fired, in order. */
  function Run(c: Clock, events: seq<Event>, delay: nat): (r: (Clock, seq<string>))
    ensures |r.1| <= Waits(events)
    ensures r.0.now == c.now + Elapsed(events)
    decreases |events|
  {
    if events == [] then (c, [])
    else
      var (c1, fired) := Step(c, events[0], delay);
      var rest := Run(c1, events[1..], delay);
      (rest.0, (if fired.Some? then [fired.value] else []) + rest.1)
  }

  /** Running two traces one after the other is running their concatenation. */
  lemma {:induction false} RunAppend(c: Clock, a: seq<Event>, b: seq<Event>, delay: nat)
    ensures Run(c, a + b, delay).0 == Run(Run(c, a, delay).0, b, delay).0
    ensures Run(c, a + b, delay).1 == Run(c, a, delay).1 + Run(Run(c, a, delay).0, b, delay).1
    decreases |a|
  {
    if a != [] {
      assert (a + b)[0] == a[0];
      assert (a + b)[1..] == a[1..] + b;
      RunAppend(Step(c, a[0], delay).0, a[1..], b, delay);
    } else {
      assert a + b == b;
    }
  }

  /** Keystrokes as they reach `onChangeText`: each one changes the text. */
  predicate Keystrokes(start: string, texts: seq<string>)
  {
    && |texts| > 0
    && texts[0] != start
    && forall i :: 0 <= i < |texts| - 1 ==> texts[i] != texts[i + 1]
  }

  /** A burst of keystrokes `texts[0]`, then `texts[1]` after `gaps[0]` ms, and so on. */
  function Burst(texts: seq<string>, gaps: seq<nat>): seq<Event>
    requires |texts| == |gaps| + 1
    decreases |gaps|
  {
    if gaps == [] then [Type(texts[0])]
    else [Type(texts[0]), Wait(gaps[0])] + Burst(texts[1..], gaps[1..])
  }

  /** After a burst whose gaps are all shorter than the delay, followed by `quiet` ms with no
      keystroke, the timer has fired exactly once, with the last text typed, if and only if
      `quiet` reaches the delay; no timer armed earlier in the burst ever fires. */
  lemma {:induction false} BurstThenQuiet(c: Clock, texts: seq<string>, gaps: seq<nat>, quiet: nat, delay: nat)
    requires |texts| == |gaps| + 1
    requires Keystrokes(c.query, texts)
    requires forall i :: 0 <= i < |gaps| ==> gaps[i] < delay
    ensures Run(c, Burst(texts, gaps) + [Wait(quiet)], delay).1
            == if quiet >= delay then [texts[|texts| - 1]] else []
    ensures Run(c, Burst(texts, gaps) + [Wait(quiet)], delay).0.query == texts[|texts| - 1]
    ensures Run(c, Burst(texts, gaps) + [Wait(quiet)], delay).0.timer.Idle? <==> quiet >= delay
    decreases |gaps|
  {
    var events := Burst(texts, gaps) + [Wait(quiet)];
    var c1 := Step(c, Type(texts[0]), delay).0;
    assert c1 == Clock(texts[0], Pending(c.now + delay), c.now);
    if gaps == [] {
      assert events == [Type(texts[0]), Wait(quiet)];
      assert events[1..] == [Wait(quiet)];
      assert events[1..][1..] == [];
      var c2 := Step(c1, Wait(quiet), delay);
      var w := [Wait(quiet)];
      assert w[0] == Wait(quiet) && w[1..] == [];
      assert Run(c2.0, w[1..], delay) == (c2.0, []);
      assert Run(c1, w, delay).0 == c2.0;
      assert Run(c1, w, delay).1 == (if c2.1.Some? then [c2.1.value] else []);
    } else {
      var tail := Burst(texts[1..], gaps[1..]) + [Wait(quiet)];
      assert events == [Type(texts[0]), Wait(gaps[0])] + tail;
      assert events[1..] == [Wait(gaps[0])] + tail;
      assert events[1..][1..] == tail;
      var c2 := Step(c1, Wait(gaps[0]), delay);
      assert c2 == (Clock(texts[0], Pending(c.now + delay), c.now + gaps[0]), None);
      assert Keystrokes(c2.0.query, texts[1..]) by {
        forall i | 0 <= i < |texts[1..]| - 1 ensures texts[1..][i] != texts[1..][i + 1] {
          assert texts[1..][i] == texts[i + 1] && texts[1..][i + 1] == texts[i + 2];
        }
      }
      BurstThenQuiet(c2.0, texts[1..], gaps[1..], quiet, delay);
      assert texts[1..][|texts[1..]| - 1] == texts[|texts| - 1];
    }
  }

  /** With no timer pending and no keystroke, nothing ever fires. */
  lemma {:induction false} IdleStaysQuiet(c: Clock, events: seq<Event>, delay: nat)
    requires c.timer.Idle?
    requires forall i :: 0 <= i < |events| ==> events[i].Wait?
    ensures Run(c, events, delay).1 == []
    ensures Run(c, events, delay).0.timer.Idle?
    decreases |events|
  {
    if events != [] {
      IdleStaysQuiet(Step(c, events[0], delay).0, events[1..], delay);
    }
  }

  /** The debounce guarantee: a burst of keystrokes with gaps shorter than the delay, then at
      least `delay` ms of silence and any further waiting, makes exactly one call, with the
      last text typed. */
  lemma ExactlyOneFiring(c: Clock, texts: seq<string>, gaps: seq<nat>, quiet: nat,
                         later: seq<Event>, delay: nat)
    requires |texts| == |gaps| + 1
    requires Keystrokes(c.query, texts)
    requires forall i :: 0 <= i < |gaps| ==> gaps[i] < delay
    requires quiet >= delay
    requires forall i :: 0 <= i < |later| ==> later[i].Wait?
    ensures Run(c, Burst(texts, gaps) + [Wait(quiet)] + later, delay).1 == [texts[|texts| - 1]]
  {
    var head := Burst(texts, gaps) + [Wait(quiet)];
    BurstThenQuiet(c, texts, gaps, quiet, delay);
    RunAppend(c, head, later, delay);
    IdleStaysQuiet(Run(c, head, delay).0, later, delay);
  }
}
