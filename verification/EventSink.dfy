/** The session's event queue: observations may be skipped, nothing else may. */
module EventSink {
  import opened Common

  /** `number` tells emitted events apart. */
  datatype Event = Observation(number: nat) | Other(number: nat)

  /** `emitted` and `delivered` list every event that went in and out. */
  datatype Sink = Sink(queue: seq<Event>, emitted: seq<Event>, delivered: seq<Event>)

  const INITIAL := Sink([], [], [])

  function Others(events: seq<Event>): seq<Event> {
    if events == [] then []
    else
      var last := events[|events| - 1];
      Others(events[..|events| - 1]) + if last.Observation? then [] else [last]
  }

  function Observations(events: seq<Event>): seq<Event> {
    if events == [] then []
    else
      var last := events[|events| - 1];
      Observations(events[..|events| - 1]) + if last.Observation? then [last] else []
  }

  /** The queue after `emit`. */
  function Enqueue(queue: seq<Event>, event: Event): seq<Event> {
    (if event.Observation? then Others(queue) else queue) + [event]
  }

  datatype Step = Emit(event: Event) | Get

  function Next(s: Sink, step: Step): Sink {
    match step
    case Emit(event) => s.(queue := Enqueue(s.queue, event), emitted := s.emitted + [event])
    case Get => if s.queue == [] then s else s.(queue := s.queue[1..], delivered := s.delivered + [s.queue[0]])
  }

  function After(steps: seq<Step>): Sink {
    if steps == [] then INITIAL else Next(After(steps[..|steps| - 1]), steps[|steps| - 1])
  }

  /** `kept` is `all` with some observations dropped, in the same order. */
  predicate Thins(all: seq<Event>, kept: seq<Event>) {
    if all == [] then kept == []
    else
      var last := all[|all| - 1];
      || (kept != [] && kept[|kept| - 1] == last && Thins(all[..|all| - 1], kept[..|kept| - 1]))
      || (last.Observation? && Thins(all[..|all| - 1], kept))
  }

  lemma {:induction false} ThinsBoth(all: seq<Event>, kept: seq<Event>, tail: seq<Event>)
    requires Thins(all, kept)
    ensures Thins(all + tail, kept + tail)
  {
    if tail == [] {
      assert all + tail == all && kept + tail == kept;
    } else {
      var n := |tail| - 1;
      ThinsBoth(all, kept, tail[..n]);
      assert (all + tail)[..|all + tail| - 1] == all + tail[..n];
      assert (kept + tail)[..|kept + tail| - 1] == kept + tail[..n];
    }
  }

  lemma {:induction false} ThinsTwice(all: seq<Event>, kept: seq<Event>, fewer: seq<Event>)
    requires Thins(all, kept) && Thins(kept, fewer)
    ensures Thins(all, fewer)
  {
    if all != [] {
      var front := all[..|all| - 1];
      if kept != [] && kept[|kept| - 1] == all[|all| - 1] && Thins(front, kept[..|kept| - 1]) {
        if fewer != [] && fewer[|fewer| - 1] == kept[|kept| - 1] && Thins(kept[..|kept| - 1], fewer[..|fewer| - 1]) {
          ThinsTwice(front, kept[..|kept| - 1], fewer[..|fewer| - 1]);
        } else {
          ThinsTwice(front, kept[..|kept| - 1], fewer);
        }
      } else {
        ThinsTwice(front, kept, fewer);
      }
    }
  }

  lemma {:induction false} ThinsOthers(before: seq<Event>, events: seq<Event>)
    ensures Thins(before + events, before + Others(events))
  {
    if events == [] {
      ThinsSelf(before);
      assert before + events == before && before + Others(events) == before;
    } else {
      var front, last := events[..|events| - 1], events[|events| - 1];
      ThinsOthers(before, front);
      assert (before + events)[..|before + events| - 1] == before + front;
      if last.Observation? {
        assert Others(events) == Others(front);
      } else {
        var kept := before + Others(events);
        assert kept[..|kept| - 1] == before + Others(front);
      }
    }
  }

  lemma {:induction false} ThinsSelf(events: seq<Event>)
    ensures Thins(events, events)
  {
    if events != [] {
      ThinsSelf(events[..|events| - 1]);
    }
  }

  /** Dropping observations keeps every other event, once and in order. */
  lemma {:induction false} ThinsKeepsOthers(all: seq<Event>, kept: seq<Event>)
    requires Thins(all, kept)
    ensures Others(kept) == Others(all)
  {
    if all != [] {
      var front := all[..|all| - 1];
      if kept != [] && kept[|kept| - 1] == all[|all| - 1] && Thins(front, kept[..|kept| - 1]) {
        ThinsKeepsOthers(front, kept[..|kept| - 1]);
      } else {
        ThinsKeepsOthers(front, kept);
        assert Others(front) + [] == Others(front);
      }
    }
  }

  lemma {:induction false} SplitObservations(a: seq<Event>, b: seq<Event>)
    ensures Observations(a + b) == Observations(a) + Observations(b)
  {
    if b == [] {
      assert a + b == a;
    } else {
      var n := |b| - 1;
      assert (a + b)[..|a + b| - 1] == a + b[..n];
      SplitObservations(a, b[..n]);
    }
  }

  lemma {:induction false} OthersHaveNone(events: seq<Event>)
    ensures Observations(Others(events)) == []
  {
    if events != [] {
      OthersHaveNone(events[..|events| - 1]);
      var front, last := Others(events[..|events| - 1]), events[|events| - 1];
      if last.Observation? {
        assert Others(events) == front;
      } else {
        SplitObservations(front, [last]);
        assert [last][..0] == [];
      }
    }
  }

  /** The newest observation, if any was emitted. */
  function Newest(events: seq<Event>): Option<Event> {
    var seen := Observations(events);
    if seen == [] then None else Some(seen[|seen| - 1])
  }

  predicate Inv(s: Sink) {
    && Thins(s.emitted, s.delivered + s.queue)
    && |Observations(s.queue)| <= 1
    && Newest(s.delivered + s.queue) == Newest(s.emitted)
  }

  lemma ObservationsSnoc(events: seq<Event>, event: Event)
    ensures Observations(events + [event]) == Observations(events) + if event.Observation? then [event] else []
  {
    assert (events + [event])[..|events|] == events;
  }

  lemma NewestSnoc(events: seq<Event>, event: Event)
    ensures Newest(events + [event]) == if event.Observation? then Some(event) else Newest(events)
  {
    ObservationsSnoc(events, event);
  }

  lemma EmitKeepsOne(queue: seq<Event>, event: Event)
    requires |Observations(queue)| <= 1
    ensures |Observations(Enqueue(queue, event))| <= 1
  {
    OthersHaveNone(queue);
    ObservationsSnoc(if event.Observation? then Others(queue) else queue, event);
  }

  lemma EmitKeepsNewest(s: Sink, event: Event, kept: seq<Event>)
    requires Newest(s.delivered + s.queue) == Newest(s.emitted)
    requires kept == if event.Observation? then Others(s.queue) else s.queue
    ensures Newest((s.delivered + kept) + [event]) == Newest(s.emitted + [event])
  {
    NewestSnoc(s.delivered + kept, event);
    NewestSnoc(s.emitted, event);
  }

  lemma Regroup(a: seq<Event>, b: seq<Event>, c: seq<Event>)
    ensures a + (b + c) == (a + b) + c
  {
  }

  lemma EmitKeepsInv(s: Sink, event: Event)
    requires Inv(s)
    ensures Inv(Next(s, Emit(event)))
  {
    var kept := if event.Observation? then Others(s.queue) else s.queue;
    EmitThins(s, event, kept);
    EmitKeepsOne(s.queue, event);
    EmitKeepsNewest(s, event, kept);
    Regroup(s.delivered, kept, [event]);
  }

  lemma EmitThins(s: Sink, event: Event, kept: seq<Event>)
    requires Thins(s.emitted, s.delivered + s.queue)
    requires kept == if event.Observation? then Others(s.queue) else s.queue
    ensures Thins(s.emitted + [event], (s.delivered + kept) + [event])
  {
    if event.Observation? {
      ThinsOthers(s.delivered, s.queue);
      ThinsTwice(s.emitted, s.delivered + s.queue, s.delivered + kept);
    }
    ThinsBoth(s.emitted, s.delivered + kept, [event]);
  }

  /** Over every run of emits and gets: what was delivered and is still queued is what was
      emitted, less some observations; at most one observation is queued; and the newest
      observation emitted is never among those dropped. */
  lemma {:induction false} NothingElseIsLost(steps: seq<Step>)
    ensures var s := After(steps);
            && Thins(s.emitted, s.delivered + s.queue)
            && Others(s.delivered + s.queue) == Others(s.emitted)
            && |Observations(s.queue)| <= 1
            && Newest(s.delivered + s.queue) == Newest(s.emitted)
  {
    RunInv(steps);
    ThinsKeepsOthers(After(steps).emitted, After(steps).delivered + After(steps).queue);
  }

  lemma {:induction false} RunInv(steps: seq<Step>)
    ensures Inv(After(steps))
  {
    if steps != [] {
      var s, step := After(steps[..|steps| - 1]), steps[|steps| - 1];
      RunInv(steps[..|steps| - 1]);
      match step
      case Emit(event) => EmitKeepsInv(s, event);
      case Get =>
        if s.queue != [] {
          assert s.delivered + [s.queue[0]] + s.queue[1..] == s.delivered + s.queue;
          assert s.queue == [s.queue[0]] + s.queue[1..];
          SplitObservations([s.queue[0]], s.queue[1..]);
        }
    }
  }

  lemma {:induction false} ObservationIsListed(events: seq<Event>, i: nat)
    requires i < |events| && events[i].Observation?
    ensures events[i] in Observations(events)
  {
    if i < |events| - 1 {
      ObservationIsListed(events[..|events| - 1], i);
    }
  }

  /** A queued observation is the newest one emitted. */
  lemma QueuedObservationIsNewest(steps: seq<Step>, i: nat)
    requires i < |After(steps).queue| && After(steps).queue[i].Observation?
    ensures Newest(After(steps).emitted) == Some(After(steps).queue[i])
  {
    var s := After(steps);
    RunInv(steps);
    ObservationIsListed(s.queue, i);
    assert Observations(s.queue) == [s.queue[i]];
    SplitObservations(s.delivered, s.queue);
  }

  // -------------------------------------------------------------------------- the object

  class QueueEventSink {
    var events: seq<Event>

    constructor ()
      ensures events == []
    {
      events := [];
    }

    method Emit(event: Event)
      modifies this
      ensures events == Enqueue(old(events), event)
    {
      if event.Observation? {
        var kept: seq<Event> := [];
        for i := 0 to |events|
          invariant kept == Others(events[..i]) && events == old(events)
        {
          assert events[..i + 1][..i] == events[..i];
          if !events[i].Observation? {
            kept := kept + [events[i]];
          }
        }
        assert events[..|events|] == events;
        events := kept;
      }
      events := events + [event];
    }

    /** None stands for `queue.Empty`. */
    method GetNowait() returns (event: Option<Event>)
      modifies this
      ensures old(events) == [] ==> event.None? && events == []
      ensures old(events) != [] ==> event.Some? && [event.value] + events == old(events)
    {
      if events == [] {
        return None;
      }
      event := Some(events[0]);
      events := events[1..];
    }
  }
}
