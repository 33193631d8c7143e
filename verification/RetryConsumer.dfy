/** The consume callback, run to its end on one delivery. */
module RetryConsumer {
  import opened Common
  import opened RetryQueue

  // A delivery that was not dead-lettered is acknowledged.
  function Callback(service: Service, s: State, k: nat, fault: Fault, now: int): State
    requires k < |s.unacked| && |s.retry| == 3
  {
    var t := Handled(service, s, k, fault, now);
    if |t.unacked| == |s.unacked| then Acked(t, k) else t
  }

  // The callback is a run of the machine without a crash, so all that holds of such runs holds of it.
  lemma CallbackIsARun(service: Service, s: State, k: nat, fault: Fault, now: int) returns (acts: seq<Action>)
    requires Enabled(s, Handle(k, fault, now))
    ensures IsRun(service, s, acts) && CrashFree(acts) && |acts| <= 2
    ensures After(service, s, acts) == Callback(service, s, k, fault, now)
  {
    var t := Handled(service, s, k, fault, now);
    RunExtends(service, s, [], Handle(k, fault, now), t);
    acts := [] + [Handle(k, fault, now)];
    if |t.unacked| == |s.unacked| {
      StageAfterHandling(service, s, k, fault, now);
      RunExtends(service, s, acts, Ack(k), Acked(t, k));
      acts := acts + [Ack(k)];
    }
  }

  lemma StageAfterHandling(service: Service, s: State, k: nat, fault: Fault, now: int)
    requires k < |s.unacked| && |s.retry| == 3
    ensures var t := Handled(service, s, k, fault, now);
            && |t.retry| == 3
            && (|t.unacked| == |s.unacked| ==> !t.unacked[k].stage.Fetched?)
  {
  }

  lemma WithoutOne(ds: seq<Delivery>, k: nat, d: Delivery)
    requires k < |ds|
    ensures |Without(ds, k)| == |ds| - 1 && Without(ds[k := d], k) == Without(ds, k)
  {
  }

  // Where the delivery ends up: dead-lettered, settled, or on its way again as its retry message.
  lemma DeliveryEnds(service: Service, s: State, k: nat, fault: Fault, now: int)
    requires k < |s.unacked| && |s.retry| == 3
    ensures var m, t := s.unacked[k].message, Callback(service, s, k, fault, now);
            var done := s.(unacked := Without(s.unacked, k));
            match ParseMessage(m.content, now)
            case None => t == done.(dlq := s.dlq + [m])
            case Some((payload, metadata)) =>
              if service.Providers? && !payload.isProvider then
                t == done.(settled := s.settled + [m])
              else
                var attempt := CreateRow(service, s.table, payload, fault);
                var tried := done.(table := attempt.table, attempts := s.attempts + [m.origin]);
                var failed := tried.(failures := s.failures + [m.origin]);
                var rc := metadata.retryCount;
                if attempt.ok then
                  t == tried.(settled := s.settled + [m])
                else if 0 <= rc < MAX_RETRIES then
                  var copy := Message(m.origin, CreateRetryMessage(payload, metadata));
                  t == failed.(retry := s.retry[rc := s.retry[rc] + [copy]])
                else
                  t == failed.(dlq := s.dlq + [m])
  {
    hide CreateRow, CreateRetryMessage;
    WithoutOne(s.unacked, k, Delivery(s.unacked[k].message, Finished));
    WithoutOne(s.unacked, k, Delivery(s.unacked[k].message, Handed));
  }

  class Consumer {
    const service: Service
    var main: seq<Message>
    var unacked: seq<Delivery>
    var retry: seq<seq<Message>>
    var dlq: seq<Message>
    var settled: seq<Message>
    var table: Table
    ghost var published: map<Id, Message>
    ghost var attempts: seq<Id>
    ghost var failures: seq<Id>

    ghost function Snapshot(): State
      reads this
    {
      State(main, unacked, retry, dlq, settled, table, published, attempts, failures)
    }

    constructor (service: Service)
      ensures this.service == service && Snapshot() == Init
    {
      this.service := service;
      main, unacked, retry, dlq, settled, table := [], [], [[], [], []], [], [], map[];
      published, attempts, failures := map[], [], [];
    }

    method Ack(k: nat, handedOver: bool)
      requires k < |unacked|
      modifies this`unacked, this`settled
      ensures unacked == Without(old(unacked), k)
      ensures settled == if handedOver then old(settled) else old(settled) + [old(unacked)[k].message]
    {
      if !handedOver {
        settled := settled + [unacked[k].message];
      }
      unacked := unacked[..k] + unacked[k + 1..];
    }

    // Rejected without requeueing: the broker moves the message to the dead-letter queue.
    method Nack(k: nat)
      requires k < |unacked|
      modifies this`unacked, this`dlq
      ensures unacked == Without(old(unacked), k) && dlq == old(dlq) + [old(unacked)[k].message]
    {
      dlq := dlq + [unacked[k].message];
      unacked := unacked[..k] + unacked[k + 1..];
    }

    method SendToQueue(i: nat, m: Message)
      requires i < |retry|
      modifies this`retry
      ensures retry == old(retry)[i := old(retry)[i] + [m]]
    {
      retry := retry[i := retry[i] + [m]];
    }

    method CreateRow(payload: Payload, fault: Fault) returns (ok: bool)
      modifies this`table
      ensures Attempt(table, ok) == RetryQueue.CreateRow(service, old(table), payload, fault)
    {
      if fault == NotWritten {
        return false;
      }
      if payload.identity in table {
        return fault == NoFault;
      }
      if service.Users? {
        if exists id :: id in table && payload.email.Some? && table[id].email == payload.email {
          return false;
        }
        if exists id :: id in table && payload.phone.Some? && table[id].phone == payload.phone {
          return false;
        }
      }
      table := table[payload.identity := Row(payload.name, payload.email, payload.phone)];
      return fault == NoFault;
    }

    method OnMessage(k: nat, fault: Fault, now: int)
      requires k < |unacked| && |retry| == 3
      modifies this
      ensures Snapshot() == Callback(service, old(Snapshot()), k, fault, now)
    {
      hide Without, RetryQueue.CreateRow, CreateRetryMessage, Callback;
      DeliveryEnds(service, Snapshot(), k, fault, now);
      var m := unacked[k].message;
      var read := ParseMessage(m.content, now);
      if read.None? {
        Nack(k);
        return;
      }
      var (payload, metadata) := read.value;
      if service.Providers? && !payload.isProvider {
        Ack(k, false);
        return;
      }
      attempts := attempts + [m.origin];
      var ok := CreateRow(payload, fault);
      if ok {
        Ack(k, false);
        return;
      }
      failures := failures + [m.origin];
      var retryCount := metadata.retryCount;
      if retryCount >= MAX_RETRIES {
        Nack(k);
        return;
      }
      if retryCount < 0 {
        // There is no such retry queue: reading its name throws, and the message is rejected.
        Nack(k);
        return;
      }
      SendToQueue(retryCount, Message(m.origin, CreateRetryMessage(payload, metadata)));
      Ack(k, true);
    }
  }
}
