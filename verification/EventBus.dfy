/** Publishing to the Redis stream with a Kafka dual-write through the outbox. */
module EventBus {
  import opened Prelude
  import opened Events
  import opened Outbox

  /** Which channels are configured. */
  datatype Config = Config(kafka: bool, outbox: bool)

  /** The outbox table, the fire-and-forget Kafka sends, and the Redis stream. */
  datatype Channels = Channels(rows: Table, sends: seq<Event>, stream: seq<Json>)

  /** The two awaited calls made for one event. */
  datatype PublishEnv = PublishEnv(enqueue: Reply, xadd: Reply)

  /** Audit-only events stay off Kafka. */
  predicate SkipKafka(eventType: string) {
    eventType == "ApiKeyVerified"
  }

  /** `dispatch_kafka`. */
  function Dispatch(c: Config, ch: Channels, e: Event, enqueue: Reply): Channels {
    if SkipKafka(e.eventType) || !c.kafka then ch
    else if c.outbox then
      ch.(rows := if enqueue.Applied() then Inserted(ch.rows, Encode(e)) else ch.rows,
          sends := if enqueue.Answered? then ch.sends else ch.sends + [e])
    else ch.(sends := ch.sends + [e])
  }

  /** XADD. */
  function Append(ch: Channels, e: Event, xadd: Reply): Channels {
    if xadd.Applied() then ch.(stream := ch.stream + [Encode(e)]) else ch
  }

  /** `publish`, one event. */
  function Publish(c: Config, ch: Channels, e: Event, env: PublishEnv): Channels {
    Append(Dispatch(c, ch, e, env.enqueue), e, env.xadd)
  }

  function PublishEach(c: Config, ch: Channels, events: seq<Event>, env: nat -> PublishEnv): Channels {
    if events == [] then ch
    else
      var last := |events| - 1;
      Publish(c, PublishEach(c, ch, events[..last], env), events[last], env(last))
  }

  function DispatchAll(c: Config, ch: Channels, events: seq<Event>, env: nat -> PublishEnv): Channels {
    if events == [] then ch
    else
      var last := |events| - 1;
      Dispatch(c, DispatchAll(c, ch, events[..last], env), events[last], env(last).enqueue)
  }

  /** The stream loop of a batch gives up at the first error. */
  function AppendUntilError(ch: Channels, events: seq<Event>, env: nat -> PublishEnv): (Channels, bool) {
    if events == [] then (ch, true)
    else
      var last := |events| - 1;
      var (ch', ok) := AppendUntilError(ch, events[..last], env);
      if ok then (Append(ch', events[last], env(last).xadd), env(last).xadd.Answered?) else (ch', false)
  }

  /** `publish_batch`. */
  function PublishBatch(c: Config, ch: Channels, events: seq<Event>, env: nat -> PublishEnv): (Channels, bool) {
    AppendUntilError(if c.kafka then DispatchAll(c, ch, events, env) else ch, events, env)
  }

  // ---- A batch is its events published one by one ----------------------------------------------

  lemma {:induction false} EachByChannel(c: Config, ch: Channels, events: seq<Event>, env: nat -> PublishEnv)
    ensures var one, all := PublishEach(c, ch, events, env), DispatchAll(c, ch, events, env);
            one.rows == all.rows && one.sends == all.sends && all.stream == ch.stream
  {
    if events != [] {
      EachByChannel(c, ch, events[..|events| - 1], env);
    }
  }

  lemma {:induction false} DispatchWithoutKafka(c: Config, ch: Channels, events: seq<Event>, env: nat -> PublishEnv)
    requires !c.kafka
    ensures DispatchAll(c, ch, events, env) == ch
  {
    if events != [] {
      DispatchWithoutKafka(c, ch, events[..|events| - 1], env);
    }
  }

  /** Appending only touches the stream, and without errors it appends every event. */
  lemma {:induction false} AppendByChannel(c: Config, ch: Channels, ch0: Channels, events: seq<Event>, env: nat -> PublishEnv)
    requires ch.stream == ch0.stream
    ensures var (end, ok) := AppendUntilError(ch, events, env);
            && end.rows == ch.rows && end.sends == ch.sends
            && (ok <==> forall k :: 0 <= k < |events| ==> env(k).xadd.Answered?)
            && (ok ==> end.stream == PublishEach(c, ch0, events, env).stream)
  {
    if events != [] {
      AppendByChannel(c, ch, ch0, events[..|events| - 1], env);
    }
  }

  /**
    A batch leaves exactly the channels its events published one by one leave, provided no stream
    write fails; and whatever the stream does, its Kafka side is that of the single publications.
   */
  lemma BatchIsEach(c: Config, ch: Channels, events: seq<Event>, env: nat -> PublishEnv)
    ensures var (batch, ok) := PublishBatch(c, ch, events, env);
            var each := PublishEach(c, ch, events, env);
            && (ok <==> forall k :: 0 <= k < |events| ==> env(k).xadd.Answered?)
            && (ok ==> batch == each)
            && batch.rows == each.rows && batch.sends == each.sends
  {
    EachByChannel(c, ch, events, env);
    if !c.kafka {
      DispatchWithoutKafka(c, ch, events, env);
    }
    AppendByChannel(c, if c.kafka then DispatchAll(c, ch, events, env) else ch, ch, events, env);
  }

  // ---- The first failing stream write ends a batch --------------------------------------------------

  lemma {:induction false} AppendAll(ch: Channels, events: seq<Event>, env: nat -> PublishEnv)
    requires forall k :: 0 <= k < |events| ==> env(k).xadd.Answered?
    ensures AppendUntilError(ch, events, env) == (ch.(stream := ch.stream + Encoded(events)), true)
  {
    if events == [] {
      assert ch.stream + Encoded(events) == ch.stream;
    } else {
      var last := |events| - 1;
      AppendAll(ch, events[..last], env);
      assert ch.stream + Encoded(events) == ch.stream + Encoded(events[..last]) + [Encode(events[last])];
    }
  }

  lemma {:induction false} AppendStops(ch: Channels, events: seq<Event>, env: nat -> PublishEnv, m: nat)
    requires m < |events| && !env(m).xadd.Answered?
    requires forall k :: 0 <= k < m ==> env(k).xadd.Answered?
    ensures var sent := if env(m).xadd.Applied() then m + 1 else m;
            AppendUntilError(ch, events, env) == (ch.(stream := ch.stream + Encoded(events[..sent])), false)
  {
    var last := |events| - 1;
    if m == last {
      AppendAll(ch, events[..last], env);
      assert events[..last + 1] == events;
      assert ch.stream + Encoded(events) == ch.stream + Encoded(events[..last]) + [Encode(events[last])];
    } else {
      AppendStops(ch, events[..last], env, m);
      assert events[..last][..m] == events[..m] && events[..last][..m + 1] == events[..m + 1];
    }
  }

  /**
    A batch whose m-th stream write is the first to fail reports the failure and leaves on the stream
    exactly its first m events, and the m-th too if that write had taken effect; no later one.
   */
  lemma BatchStopsAtError(c: Config, ch: Channels, events: seq<Event>, env: nat -> PublishEnv, m: nat)
    requires m < |events| && !env(m).xadd.Answered?
    requires forall k :: 0 <= k < m ==> env(k).xadd.Answered?
    ensures var (end, ok) := PublishBatch(c, ch, events, env);
            !ok && end.stream == ch.stream + Encoded(events[..if env(m).xadd.Applied() then m + 1 else m])
  {
    EachByChannel(c, ch, events, env);
    AppendStops(if c.kafka then DispatchAll(c, ch, events, env) else ch, events, env, m);
  }

  // ---- Every event takes exactly one road to Kafka ---------------------------------------------

  function CountIf(n: nat, p: nat -> bool): nat {
    if n == 0 then 0 else CountIf(n - 1, p) + (if p(n - 1) then 1 else 0)
  }

  /**
    Conservation with Kafka and an outbox: the outbox and the background sends together grow by one
    for every event that is not audit-only, plus one duplicate for every insert that landed without
    being acknowledged. So each such event takes exactly one road when no insert ends that way.
   */
  lemma {:induction false} KafkaConservation(ch: Channels, events: seq<Event>, env: nat -> PublishEnv)
    ensures var end := DispatchAll(Config(true, true), ch, events, env);
            var routed := (k: nat) => k < |events| && !SkipKafka(events[k].eventType);
            var doubled := (k: nat) => k < |events| && !SkipKafka(events[k].eventType) && env(k).enqueue.Unacknowledged?;
            |end.rows| + |end.sends|
              == |ch.rows| + |ch.sends| + CountIf(|events|, routed) + CountIf(|events|, doubled)
  {
    if events != [] {
      var last := |events| - 1;
      var front := events[..last];
      KafkaConservation(ch, front, env);
      CountSame(last, (k: nat) => k < |front| && !SkipKafka(front[k].eventType),
                (k: nat) => k < |events| && !SkipKafka(events[k].eventType));
      CountSame(last, (k: nat) => k < |front| && !SkipKafka(front[k].eventType) && env(k).enqueue.Unacknowledged?,
                (k: nat) => k < |events| && !SkipKafka(events[k].eventType) && env(k).enqueue.Unacknowledged?);
    }
  }

  lemma {:induction false} CountSame(n: nat, p: nat -> bool, q: nat -> bool)
    requires forall k: nat :: k < n ==> p(k) == q(k)
    ensures CountIf(n, p) == CountIf(n, q)
  {
    if n > 0 {
      CountSame(n - 1, p, q);
    }
  }

  /** One event: outbox or background send, never both unless the insert was applied and then lost its answer. */
  lemma OneRoad(ch: Channels, e: Event, enqueue: Reply)
    ensures var end := Dispatch(Config(true, true), ch, e, enqueue);
            var stored, sent := end.rows != ch.rows, end.sends != ch.sends;
            && (SkipKafka(e.eventType) ==> !stored && !sent)
            && (!SkipKafka(e.eventType) ==> stored || sent)
            && ((stored && sent) <==> !SkipKafka(e.eventType) && enqueue.Unacknowledged?)
  {
  }

  // ---- Which events travel ------------------------------------------------------------------------

  /** `rows'` is `rows` with one pending row that reads back as the event, save a null payload. */
  ghost predicate RowAdded(rows: Table, rows': Table, e: Event) {
    exists payload :: rows' == rows + [Row(payload, PENDING, 0)] && Decode(payload) == Some(Normal(e))
  }

  /**
    What becomes of one event. An audit event, or any without Kafka, goes nowhere; another is added to the
    outbox if there is one and the insert takes effect, and is sent as it is unless that insert is answered.
   */
  ghost predicate Routed(c: Config, ch: Channels, ch': Channels, e: Event, enqueue: Reply) {
    var carried := c.kafka && e.eventType != "ApiKeyVerified";
    && ch'.stream == ch.stream
    && (if carried && c.outbox && enqueue.Applied() then RowAdded(ch.rows, ch'.rows, e) else ch'.rows == ch.rows)
    && ch'.sends == if carried && !(c.outbox && enqueue.Answered?) then ch.sends + [e] else ch.sends
  }

  lemma DispatchRoutes(c: Config, ch: Channels, e: Event, enqueue: Reply)
    ensures Routed(c, ch, Dispatch(c, ch, e, enqueue), e, enqueue)
  {
    EventRoundTrip(e);
    var rows := Dispatch(c, ch, e, enqueue).rows;
    assert rows == ch.rows || rows == ch.rows + [Row(Encode(e), PENDING, 0)];
  }

  /** The events whose place is kept, in order. */
  function Kept(events: seq<Event>, keep: nat -> bool): seq<Event> {
    if events == [] then []
    else
      var last := |events| - 1;
      Kept(events[..last], keep) + (if keep(last) then [events[last]] else [])
  }

  /** Which events of a batch go into the outbox, and which are sent in the background. */
  function IsStored(c: Config, events: seq<Event>, env: nat -> PublishEnv): nat -> bool {
    (k: nat) => k < |events| && c.kafka && c.outbox && events[k].eventType != "ApiKeyVerified" && env(k).enqueue.Applied()
  }

  function IsSent(c: Config, events: seq<Event>, env: nat -> PublishEnv): nat -> bool {
    (k: nat) => k < |events| && c.kafka && events[k].eventType != "ApiKeyVerified" && !(c.outbox && env(k).enqueue.Answered?)
  }

  lemma {:induction false} KeptSame(events: seq<Event>, p: nat -> bool, q: nat -> bool)
    requires forall k: nat :: k < |events| ==> p(k) == q(k)
    ensures Kept(events, p) == Kept(events, q)
  {
    if events != [] {
      KeptSame(events[..|events| - 1], p, q);
    }
  }

  lemma InsertLast(t: Table, payloads: seq<Json>, payload: Json)
    ensures InsertedAll(t, payloads + [payload]) == Inserted(InsertedAll(t, payloads), payload)
  {
    var all, front := InsertedAll(t, payloads + [payload]), InsertedAll(t, payloads);
    forall i | 0 <= i < |all|
      ensures all[i] == Inserted(front, payload)[i]
    {
      if i >= |t| {
        assert all[|t| + (i - |t|)] == Row((payloads + [payload])[i - |t|], PENDING, 0);
        assert i < |front| ==> front[|t| + (i - |t|)] == Row(payloads[i - |t|], PENDING, 0);
      } else {
        assert all[..|t|] == t == front[..|t|];
        assert all[..|t|][i] == all[i] && front[..|t|][i] == front[i];
      }
    }
  }

  /** A batch adds exactly the stored events to the outbox and exactly the sent ones to the background sends, in order. */
  lemma {:induction false} DispatchedEvents(c: Config, ch: Channels, events: seq<Event>, env: nat -> PublishEnv)
    ensures var end := DispatchAll(c, ch, events, env);
            && end.rows == InsertedAll(ch.rows, Encoded(Kept(events, IsStored(c, events, env))))
            && end.sends == ch.sends + Kept(events, IsSent(c, events, env))
  {
    if events == [] {
      assert Encoded(Kept(events, IsStored(c, events, env))) == [];
    } else {
      var last := |events| - 1;
      var front, e := events[..last], events[last];
      DispatchedEvents(c, ch, front, env);
      KeptSame(front, IsStored(c, front, env), IsStored(c, events, env));
      KeptSame(front, IsSent(c, front, env), IsSent(c, events, env));
      var stored, sent := Kept(front, IsStored(c, events, env)), Kept(front, IsSent(c, events, env));
      OneMore(c, DispatchAll(c, ch, front, env), ch, e, env(last).enqueue, stored, sent);
      assert IsStored(c, events, env)(last) <==> c.kafka && c.outbox && e.eventType != "ApiKeyVerified" && env(last).enqueue.Applied();
      assert IsSent(c, events, env)(last) <==> c.kafka && e.eventType != "ApiKeyVerified" && !(c.outbox && env(last).enqueue.Answered?);
    }
  }

  lemma OneMore(c: Config, ch: Channels, ch0: Channels, e: Event, enqueue: Reply, stored: seq<Event>, sent: seq<Event>)
    requires ch.rows == InsertedAll(ch0.rows, Encoded(stored)) && ch.sends == ch0.sends + sent
    ensures var end, carried := Dispatch(c, ch, e, enqueue), c.kafka && e.eventType != "ApiKeyVerified";
            && end.rows == InsertedAll(ch0.rows, Encoded(stored + if carried && c.outbox && enqueue.Applied() then [e] else []))
            && end.sends == ch0.sends + (sent + if carried && !(c.outbox && enqueue.Answered?) then [e] else [])
  {
    assert Encoded(stored + [e]) == Encoded(stored) + [Encode(e)];
    InsertLast(ch0.rows, Encoded(stored), Encode(e));
    assert stored + [] == stored && sent + [] == sent;
    assert ch0.sends + sent + [e] == ch0.sends + (sent + [e]);
  }

  // ---- The bus as it runs ---------------------------------------------------------------------

  class EventBus {
    const config: Config
    const outbox: OutboxRepository
    var sends: seq<Event>
    var stream: seq<Json>

    constructor (config: Config, outbox: OutboxRepository)
      ensures this.config == config && this.outbox == outbox && sends == [] && stream == []
    {
      this.config := config;
      this.outbox := outbox;
      sends := [];
      stream := [];
    }

    ghost function State(): Channels
      reads this, outbox
    {
      Channels(outbox.rows, sends, stream)
    }

    method SpawnKafkaPublish(event: Event)
      modifies this
      ensures State() == old(State()).(sends := if config.kafka then old(sends) + [event] else old(sends))
    {
      if config.kafka {
        sends := sends + [event];
      }
    }

    method DispatchKafka(event: Event, enqueue: Reply)
      modifies this, outbox
      ensures State() == Dispatch(config, old(State()), event, enqueue)
      ensures Routed(config, old(State()), State(), event, enqueue)
    {
      DispatchRoutes(config, State(), event, enqueue);
      if SkipKafka(event.eventType) {
        return;
      }
      if config.outbox && config.kafka {
        var ok := outbox.Enqueue(event, enqueue);
        if !ok {
          SpawnKafkaPublish(event);
        }
      } else {
        SpawnKafkaPublish(event);
      }
    }

    method AppendToStream(event: Event, xadd: Reply) returns (ok: bool)
      modifies this
      ensures State() == Append(old(State()), event, xadd)
      ensures ok == xadd.Answered?
    {
      if xadd.Applied() {
        stream := stream + [Encode(event)];
      }
      ok := xadd.Answered?;
    }

    method PublishRaw(event: Event, env: PublishEnv) returns (ok: bool)
      modifies this, outbox
      ensures State() == Publish(config, old(State()), event, env)
      ensures ok == env.xadd.Answered?
    {
      DispatchKafka(event, env.enqueue);
      ok := AppendToStream(event, env.xadd);
    }

    method DispatchBatch(events: seq<Event>, env: nat -> PublishEnv)
      modifies this, outbox
      ensures State() == DispatchAll(config, old(State()), events, env)
    {
      for k := 0 to |events|
        invariant State() == DispatchAll(config, old(State()), events[..k], env)
      {
        assert events[..k + 1][..k] == events[..k];
        DispatchKafka(events[k], env(k).enqueue);
      }
      assert events[..|events|] == events;
    }

    method PublishBatchRaw(events: seq<Event>, env: nat -> PublishEnv) returns (ok: bool)
      modifies this, outbox
      ensures (State(), ok) == PublishBatch(config, old(State()), events, env)
    {
      if config.kafka {
        DispatchBatch(events, env);
      }
      ghost var start := State();
      for k := 0 to |events|
        invariant (State(), true) == AppendUntilError(start, events[..k], env)
      {
        assert events[..k + 1][..k] == events[..k];
        ok := AppendToStream(events[k], env(k).xadd);
        if !ok {
          StopsForGood(start, events, env, k + 1);
          return;
        }
      }
      assert events[..|events|] == events;
      ok := true;
    }
  }

  /** Once an append has failed, the rest of the batch adds nothing. */
  lemma {:induction false} StopsForGood(ch: Channels, events: seq<Event>, env: nat -> PublishEnv, m: nat)
    requires m <= |events| && !AppendUntilError(ch, events[..m], env).1
    ensures AppendUntilError(ch, events, env) == AppendUntilError(ch, events[..m], env)
  {
    if m == |events| {
      assert events[..m] == events;
    } else {
      var front := events[..|events| - 1];
      assert front[..m] == events[..m];
      StopsForGood(ch, front, env, m);
    }
  }
}
