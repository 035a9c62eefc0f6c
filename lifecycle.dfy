/** The table over time: a run is a sequence of events, each a handled
    request or one firing of the periodic cleanup. The timer itself is not
    modelled; only the order in which cleanups and requests happen. */
module Lifecycle {
  import opened Wrappers
  import opened Animals

  datatype Event = Call(req: Request) | Cleanup

  /** The table after one event. */
  function Step(apiKey: Option<string>, records: seq<Animal>, e: Event): seq<Animal>
  {
    match e
    case Call(req) => Dispatch(req, apiKey, records).records
    case Cleanup => Cleared(records)
  }

  /** The table after a whole run, events taken from first to last. */
  function Run(apiKey: Option<string>, records: seq<Animal>, events: seq<Event>): seq<Animal>
    decreases |events|
  {
    if events == [] then records
    else Step(apiKey, Run(apiKey, records, events[..|events| - 1]), events[|events| - 1])
  }

  /** The records the requests of a run would append, in order, ignoring
      cleanups. */
  function Posted(apiKey: Option<string>, events: seq<Event>): seq<Animal>
    decreases |events|
  {
    if events == [] then []
    else
      var last := events[|events| - 1];
      Posted(apiKey, events[..|events| - 1])
        + (if last.Call? then AsSeq(Admitted(last.req, apiKey)) else [])
  }

  /** The events after the last cleanup of a run (all of them if there is
      none). */
  function SinceLastCleanup(events: seq<Event>): (r: seq<Event>)
    ensures Cleanup !in r
    decreases |events|
  {
    if events == [] then []
    else if events[|events| - 1] == Cleanup then []
    else SinceLastCleanup(events[..|events| - 1]) + [events[|events| - 1]]
  }

  /** What one event does to the table: a request appends what it
      admits, a cleanup empties it. */
  lemma StepEffect(apiKey: Option<string>, records: seq<Animal>, e: Event)
    ensures Step(apiKey, records, e)
         == if e.Call? then records + AsSeq(Admitted(e.req, apiKey)) else []
  {
    if e.Call? {
      DispatchAppendsAdmitted(e.req, apiKey, records);
    }
  }

  lemma RunSnoc(apiKey: Option<string>, records: seq<Animal>, init: seq<Event>, e: Event)
    ensures Run(apiKey, records, init + [e]) == Step(apiKey, Run(apiKey, records, init), e)
  {
    assert (init + [e])[..|init|] == init;
  }

  lemma PostedSnoc(apiKey: Option<string>, init: seq<Event>, e: Event)
    ensures Posted(apiKey, init + [e])
         == Posted(apiKey, init) + (if e.Call? then AsSeq(Admitted(e.req, apiKey)) else [])
  {
    assert (init + [e])[..|init|] == init;
  }

  lemma SinceLastCleanupSnoc(init: seq<Event>, e: Event)
    ensures SinceLastCleanup(init + [e]) == if e == Cleanup then [] else SinceLastCleanup(init) + [e]
  {
    assert (init + [e])[..|init|] == init;
  }

  /** After any run the table holds exactly the records appended since the
      last cleanup, in order, preceded by the initial table only when no
      cleanup has happened: nothing survives a cleanup, and nothing but a
      valid authorised POST ever adds to the table. */
  lemma {:induction false} RunKeepsSinceLastCleanup(apiKey: Option<string>, records: seq<Animal>, events: seq<Event>)
    ensures Run(apiKey, records, events)
         == (if Cleanup in events then [] else records) + Posted(apiKey, SinceLastCleanup(events))
    decreases |events|
  {
    if events != [] {
      var init, last := events[..|events| - 1], events[|events| - 1];
      assert events == init + [last];
      RunKeepsSinceLastCleanup(apiKey, records, init);
      RunSnoc(apiKey, records, init, last);
      StepEffect(apiKey, Run(apiKey, records, init), last);
      SinceLastCleanupSnoc(init, last);
      if last.Call? {
        PostedSnoc(apiKey, SinceLastCleanup(init), last);
        assert (Cleanup in events) == (Cleanup in init);
      }
    }
  }

  /** Without a cleanup the table only grows, by the posted records. */
  lemma {:induction false} RunWithoutCleanupAppends(apiKey: Option<string>, records: seq<Animal>, events: seq<Event>)
    requires Cleanup !in events
    ensures Run(apiKey, records, events) == records + Posted(apiKey, events)
  {
    SinceLastCleanupWithout(events);
    RunKeepsSinceLastCleanup(apiKey, records, events);
  }

  lemma {:induction false} SinceLastCleanupWithout(events: seq<Event>)
    requires Cleanup !in events
    ensures SinceLastCleanup(events) == events
    decreases |events|
  {
    if events != [] {
      var init := events[..|events| - 1];
      assert events == init + [events[|events| - 1]];
      SinceLastCleanupWithout(init);
    }
  }

  /** Whatever the table held and whatever happened before a cleanup, the
      table afterwards depends only on the requests after it. */
  lemma CleanupForgetsThePast(apiKey: Option<string>, records: seq<Animal>,
                              before: seq<Event>, after: seq<Event>)
    requires Cleanup !in after
    ensures Run(apiKey, records, before + [Cleanup] + after) == Posted(apiKey, after)
  {
    var events := before + [Cleanup] + after;
    RunKeepsSinceLastCleanup(apiKey, records, events);
    SinceLastCleanupSuffix(before, after);
    assert events[|before|] == Cleanup;
  }

  lemma {:induction false} SinceLastCleanupSuffix(before: seq<Event>, after: seq<Event>)
    requires Cleanup !in after
    ensures SinceLastCleanup(before + [Cleanup] + after) == after
    decreases |after|
  {
    var events := before + [Cleanup] + after;
    if after == [] {
      assert events[|events| - 1] == Cleanup;
    } else {
      var init := after[..|after| - 1];
      assert events[..|events| - 1] == before + [Cleanup] + init;
      assert after == init + [after[|after| - 1]];
      SinceLastCleanupSuffix(before, init);
    }
  }

  /** POST does not deduplicate: the same valid record posted twice is
      stored twice. */
  lemma DuplicatePostKeptTwice(apiKey: Option<string>, records: seq<Animal>, req: Request)
    requires Admitted(req, apiKey).Some?
    ensures Run(apiKey, records, [Call(req), Call(req)])
         == records + [Admitted(req, apiKey).value, Admitted(req, apiKey).value]
    ensures |Run(apiKey, records, [Call(req), Call(req)])| == |records| + 2
  {
    var events, a := [Call(req), Call(req)], Admitted(req, apiKey).value;
    assert events[..1] == [Call(req)];
    assert events[..1][..0] == [];
    DispatchAppendsAdmitted(req, apiKey, records);
    assert Run(apiKey, records, events[..1]) == records + [a];
    DispatchAppendsAdmitted(req, apiKey, records + [a]);
  }
}
