/** From `publish` to Kafka: what the bus puts in the outbox is what the worker delivers. */
module Publishing {
  import opened Prelude
  import opened Events
  import opened Outbox
  import opened OutboxProgress
  import opened OutboxDelivery
  import opened EventBus

  /** The events that are not audit-only. */
  function Carried(events: seq<Event>): seq<Event> {
    Kept(events, (k: nat) => k < |events| && events[k].eventType != "ApiKeyVerified")
  }

  /** With Kafka, an outbox and every insert answered, a batch leaves its carried events in the outbox and sends none itself. */
  lemma BatchIsStored(events: seq<Event>, env: nat -> PublishEnv)
    requires forall k: nat :: k < |events| ==> env(k).enqueue.Answered?
    ensures var ch := PublishBatch(Config(true, true), Channels([], [], []), events, env).0;
            Payloads(ch.rows) == Encoded(Carried(events)) && ch.sends == []
  {
    var c, ch := Config(true, true), Channels([], [], []);
    DispatchedEvents(c, ch, events, env);
    EachByChannel(c, ch, events, env);
    AppendByChannel(c, DispatchAll(c, ch, events, env), ch, events, env);
    KeptSame(events, IsStored(c, events, env), (k: nat) => k < |events| && events[k].eventType != "ApiKeyVerified");
    KeptSame(events, IsSent(c, events, env), (k: nat) => false);
    KeptNone(events);
    InsertPayloads([], Encoded(Carried(events)));
  }

  lemma {:induction false} KeptNone(events: seq<Event>)
    ensures Kept(events, (k: nat) => false) == []
  {
    if events != [] {
      KeptNone(events[..|events| - 1]);
    }
  }

  /**
    End to end: a published batch whose inserts are answered, enqueued at any moments of a fault-free run.
    Kafka receives exactly its events, audit events left out and null payloads dropped, in this order and
    once each; and all that were enqueued in the first part of the run after a further tick per hundred.
   */
  lemma PublishedReachKafka(events: seq<Event>, env: nat -> PublishEnv, before: seq<TickEnv>, after: seq<TickEnv>) returns (n: nat)
    requires forall k: nat :: k < |events| ==> env(k).enqueue.Answered?
    requires forall k :: 0 <= k < |before| ==> FaultFree(before[k])
    requires forall k :: 0 <= k < |after| ==> FaultFree(after[k])
    requires var start := Drain([], []);
             && Arrivals(start, before) + Arrivals(RunTicks(start, before), after)
                == Payloads(PublishBatch(Config(true, true), Channels([], [], []), events, env).0.rows)
             && 100 * |after| >= |Arrivals(start, before)|
    ensures |Arrivals(Drain([], []), before)| <= n <= |Carried(events)|
    ensures RunTicks(RunTicks(Drain([], []), before), after).log == Normalised(Carried(events)[..n])
  {
    BatchIsStored(events, env);
    n := EnqueuedReachKafka(Carried(events), before, after);
  }
}
