/** Sequences of invocations of the command, one after the other, and the
    rate limit the cooldown imposes on the requests they issue. */
module Trace {
  import opened Cooldown
  import opened Doro

  /** One invocation: the gate's clock, what the request would produce, and the completion clock. */
  datatype Event = Event(now: real, fetch: Fetch, doneAt: real)

  /** A request that was issued: when the gate let it through and when the `finally` ran. */
  datatype Span = Span(start: real, done: real)

  datatype Run = Run(plugin: Plugin, replies: seq<Reply>, fetches: seq<Span>)

  /** Runs the invocations in order, threading the plugin state. */
  function RunAll(p: Plugin, events: seq<Event>): (r: Run)
    ensures |r.replies| <= |events|
    ensures (forall i :: 0 <= i < |events| ==> events[i].fetch.Completed?) ==> |r.replies| == |events|
    ensures |r.fetches| <= |events|
    ensures r.plugin.period == p.period
    ensures r.plugin.lastCalled == if r.fetches == [] then p.lastCalled else r.fetches[|r.fetches| - 1].done
    ensures r.fetches != [] ==> r.fetches[0].start - p.lastCalled >= p.period
    decreases |events|
  {
    if events == [] then
      Run(p, [], [])
    else
      var e := events[0];
      var step := Invoke(p, e.now, e.fetch, e.doneAt);
      var rest := RunAll(step.plugin, events[1..]);
      Run(rest.plugin, step.replies + rest.replies,
          (if step.fetched then [Span(e.now, e.doneAt)] else []) + rest.fetches)
  }

  /** Requests are spaced by the cooldown: each one starts at least `period`
      seconds after the previous one completed. */
  ghost predicate Spaced(fetches: seq<Span>, period: real) {
    forall k :: 0 <= k < |fetches| - 1 ==> fetches[k + 1].start - fetches[k].done >= period
  }

  lemma {:induction false} RateLimited(p: Plugin, events: seq<Event>)
    ensures Spaced(RunAll(p, events).fetches, p.period)
    decreases |events|
  {
    if events != [] {
      var e := events[0];
      var step := Invoke(p, e.now, e.fetch, e.doneAt);
      RateLimited(step.plugin, events[1..]);
    }
  }

  /** Every invocation completes no earlier than it starts. */
  ghost predicate WellTimed(events: seq<Event>) {
    forall i :: 0 <= i < |events| ==> events[i].now <= events[i].doneAt
  }

  /** Every request span completes no earlier than it starts. */
  ghost predicate Ordered(fetches: seq<Span>) {
    forall k :: 0 <= k < |fetches| ==> fetches[k].start <= fetches[k].done
  }

  /** The last request starts at least (n - 1) periods after the first. */
  ghost predicate Spread(fetches: seq<Span>, period: real) {
    fetches != [] ==> fetches[|fetches| - 1].start - fetches[0].start >= (|fetches| - 1) as real * period
  }

  lemma {:induction false} FetchesWellTimed(p: Plugin, events: seq<Event>)
    requires WellTimed(events)
    ensures Ordered(RunAll(p, events).fetches)
    decreases |events|
  {
    if events != [] {
      var e := events[0];
      var step := Invoke(p, e.now, e.fetch, e.doneAt);
      assert WellTimed(events[1..]) by {
        forall i | 0 <= i < |events[1..]|
          ensures events[1..][i].now <= events[1..][i].doneAt
        {
          assert events[1..][i] == events[i + 1];
        }
      }
      FetchesWellTimed(step.plugin, events[1..]);
    }
  }

  /** Spaced, ordered spans are spread over (n - 1) periods. */
  lemma {:induction false} SpacedSpan(fetches: seq<Span>, period: real)
    requires Spaced(fetches, period)
    requires Ordered(fetches)
    ensures Spread(fetches, period)
    decreases |fetches|
  {
    if |fetches| > 1 {
      var n := |fetches|;
      var init := fetches[..n - 1];
      assert Spaced(init, period);
      assert Ordered(init);
      SpacedSpan(init, period);
      assert fetches[n - 1].start - fetches[n - 2].done >= period;
      assert fetches[n - 2].start <= fetches[n - 2].done;
      assert (n - 1) as real * period == (n - 2) as real * period + period;
    }
  }

  /** Over any run of invocations, n requests take at least (n - 1) cooldown periods:
      the cooldown bounds how often the sticker API is called. */
  lemma RequestsSpreadOverPeriods(p: Plugin, events: seq<Event>)
    requires WellTimed(events)
    ensures Spread(RunAll(p, events).fetches, p.period)
  {
    RateLimited(p, events);
    FetchesWellTimed(p, events);
    SpacedSpan(RunAll(p, events).fetches, p.period);
  }
}
