/**
 The USER_SIGNED_UP consumers: a main queue, three retry queues that hand their messages back to the
 main queue, a dead-letter queue, and the table the consumer writes to.  A delivery is unacknowledged
 from the moment the broker hands it out; a crash puts all such deliveries back.
 */
module RetryQueue {
  import opened Common

  const MAX_RETRIES := 3
  const PREFETCH := 10

  type Id = nat

  datatype Service = Users | Providers

  datatype Payload = Payload(identity: Id, name: string, email: Option<string>, phone: Option<string>, isProvider: bool)

  datatype Metadata = Metadata(retryCount: int, originalTimestamp: int)

  datatype Content = Malformed | Wrapped(payload: Payload, metadata: Option<Metadata>)

  // The origin tells which published event a message descends from; the broker does not carry it.
  datatype Message = Message(origin: Id, content: Content)

  datatype Row = Row(name: string, email: Option<string>, phone: Option<string>)

  type Table = map<Id, Row>

  // How far the consumer is with a delivery: not begun, finished, or handed over to a retry queue.
  datatype Stage = Fetched | Finished | Handed

  datatype Delivery = Delivery(message: Message, stage: Stage)

  datatype State = State(
    main: seq<Message>,
    unacked: seq<Delivery>,
    retry: seq<seq<Message>>,
    dlq: seq<Message>,
    settled: seq<Message>,          // acknowledged for good
    table: Table,
    published: map<Id, Message>,    // history: what was published,
    attempts: seq<Id>,              // each attempt to create a row
    failures: seq<Id>)              // and each attempt that failed

  const Init := State([], [], [[], [], []], [], [], map[], map[], [], [])

  // ------------------------------------------------------------------------------------------
  // The consume callback
  // ------------------------------------------------------------------------------------------

  // A message without metadata counts as never retried.
  function ParseMessage(content: Content, now: int): Option<(Payload, Metadata)> {
    match content
    case Malformed => None
    case Wrapped(payload, metadata) =>
      Some((payload, if metadata.Some? then metadata.value else Metadata(0, now)))
  }

  function CreateRetryMessage(payload: Payload, metadata: Metadata): Content {
    Wrapped(payload, Some(Metadata(metadata.retryCount + 1, metadata.originalTimestamp)))
  }

  // What the next consumer reads from a retry message, whenever it does.
  lemma RetryMessageReadsBack(payload: Payload, metadata: Metadata, now: int)
    ensures var read := ParseMessage(CreateRetryMessage(payload, metadata), now);
            && read.Some? && read.value.0 == payload && read.value.1.originalTimestamp == metadata.originalTimestamp
            && read.value.1.retryCount == metadata.retryCount + 1
  {
  }

  // Another user has the e-mail address or the phone number; providers may share them.
  predicate Clashes(service: Service, table: Table, payload: Payload) {
    service.Users? &&
    exists id :: id in table && ((payload.email.Some? && table[id].email == payload.email) ||
                                 (payload.phone.Some? && table[id].phone == payload.phone))
  }

  // The idempotent upsert; None if it violates a unique column.
  function Upserted(service: Service, table: Table, payload: Payload): Option<Table> {
    if payload.identity in table then
      Some(table)
    else if Clashes(service, table, payload) then
      None
    else
      Some(table[payload.identity := Row(payload.name, payload.email, payload.phone)])
  }

  // What an attempt leaves in the table, and whether it is reported to have succeeded: a fault can strike
  // before the table is written, or after.
  datatype Attempt = Attempt(table: Table, ok: bool)

  function CreateRow(service: Service, table: Table, payload: Payload, fault: Fault): Attempt {
    var upserted := Upserted(service, table, payload);
    if fault == NotWritten || upserted.None? then Attempt(table, false) else Attempt(upserted.value, fault == NoFault)
  }

  function Without(ds: seq<Delivery>, k: nat): seq<Delivery>
    requires k < |ds|
  {
    ds[..k] + ds[k + 1..]
  }

  function DeadLettered(s: State, k: nat): State
    requires k < |s.unacked|
  {
    s.(unacked := Without(s.unacked, k), dlq := s.dlq + [s.unacked[k].message])
  }

  function Staged(s: State, k: nat, stage: Stage): State
    requires k < |s.unacked|
  {
    s.(unacked := s.unacked[k := Delivery(s.unacked[k].message, stage)])
  }

  // After a failed attempt: on to the next retry queue, or to the dead letters when there is none.
  function Retried(s: State, k: nat, payload: Payload, metadata: Metadata): State
    requires k < |s.unacked| && |s.retry| == 3
  {
    var rc := metadata.retryCount;
    if 0 <= rc < MAX_RETRIES then
      var copy := Message(s.unacked[k].message.origin, CreateRetryMessage(payload, metadata));
      Staged(s, k, Handed).(retry := s.retry[rc := s.retry[rc] + [copy]])
    else
      DeadLettered(s, k)
  }

  // Everything the callback does up to the acknowledgement.
  function Handled(service: Service, s: State, k: nat, fault: Fault, now: int): State
    requires k < |s.unacked| && |s.retry| == 3
  {
    var m := s.unacked[k].message;
    match ParseMessage(m.content, now)
    case None => DeadLettered(s, k)
    case Some((payload, metadata)) =>
      if service.Providers? && !payload.isProvider then
        Staged(s, k, Finished)
      else
        var attempt := CreateRow(service, s.table, payload, fault);
        var t := s.(table := attempt.table, attempts := s.attempts + [m.origin]);
        if attempt.ok then
          Staged(t, k, Finished)
        else
          Retried(t.(failures := s.failures + [m.origin]), k, payload, metadata)
  }

  // A handed-over delivery lives on as its retry message.
  function Acked(s: State, k: nat): State
    requires k < |s.unacked|
  {
    var d := s.unacked[k];
    s.(unacked := Without(s.unacked, k), settled := if d.stage.Handed? then s.settled else s.settled + [d.message])
  }

  // ------------------------------------------------------------------------------------------
  // The machine
  // ------------------------------------------------------------------------------------------

  datatype Action =
    | Publish(message: Message)
    | Deliver
    | Handle(index: nat, fault: Fault, now: int)
    | Ack(index: nat)
    | Expire(queue: nat)
    | Crash

  function Messages(ds: seq<Delivery>): seq<Message> {
    if ds == [] then [] else Messages(ds[..|ds| - 1]) + [ds[|ds| - 1].message]
  }

  predicate Enabled(s: State, a: Action) {
    |s.retry| == 3 &&
    match a
    case Publish(m) => m.origin !in s.published
    case Deliver => s.main != [] && |s.unacked| < PREFETCH
    case Handle(k, _, _) => k < |s.unacked| && s.unacked[k].stage.Fetched?
    case Ack(k) => k < |s.unacked| && !s.unacked[k].stage.Fetched?
    case Expire(i) => i < MAX_RETRIES && s.retry[i] != []
    case Crash => true
  }

  function Step(service: Service, s: State, a: Action): (t: State)
    requires Enabled(s, a)
    ensures |t.retry| == 3
  {
    match a
    case Publish(m) => s.(main := s.main + [m], published := s.published[m.origin := m])
    case Deliver => s.(main := s.main[1..], unacked := s.unacked + [Delivery(s.main[0], Fetched)])
    case Handle(k, fault, now) => Handled(service, s, k, fault, now)
    case Ack(k) => Acked(s, k)
    case Expire(i) => s.(main := s.main + [s.retry[i][0]], retry := s.retry[i := s.retry[i][1..]])
    case Crash => s.(main := Messages(s.unacked) + s.main, unacked := [])
  }

  predicate IsRun(service: Service, s: State, acts: seq<Action>)
    decreases acts, 0
  {
    acts == [] ||
    (IsRun(service, s, acts[..|acts| - 1]) && Enabled(After(service, s, acts[..|acts| - 1]), acts[|acts| - 1]))
  }

  function After(service: Service, s: State, acts: seq<Action>): State
    requires IsRun(service, s, acts)
    decreases acts, 1
  {
    if acts == [] then s else Step(service, After(service, s, acts[..|acts| - 1]), acts[|acts| - 1])
  }

  lemma RunExtends(service: Service, s: State, acts: seq<Action>, a: Action, t: State)
    requires IsRun(service, s, acts) && Enabled(After(service, s, acts), a) && t == Step(service, After(service, s, acts), a)
    ensures IsRun(service, s, acts + [a]) && After(service, s, acts + [a]) == t
  {
    assert (acts + [a])[..|acts|] == acts;
  }

  ghost predicate CrashFree(acts: seq<Action>) {
    forall i :: 0 <= i < |acts| ==> acts[i] != Crash
  }

  // ------------------------------------------------------------------------------------------
  // Sums over all copies of messages
  // ------------------------------------------------------------------------------------------

  datatype Place = Main | Unacked(stage: Stage) | Retrying(index: nat) | Dead | Settled

  function Sum(p: Place, ms: seq<Message>, f: (Place, Message) -> int): int {
    if ms == [] then 0 else Sum(p, ms[..|ms| - 1], f) + f(p, ms[|ms| - 1])
  }

  function SumUnacked(ds: seq<Delivery>, f: (Place, Message) -> int): int {
    if ds == [] then 0 else SumUnacked(ds[..|ds| - 1], f) + f(Unacked(ds[|ds| - 1].stage), ds[|ds| - 1].message)
  }

  function SumRetry(retry: seq<seq<Message>>, f: (Place, Message) -> int): int
    requires |retry| == 3
  {
    Sum(Retrying(0), retry[0], f) + Sum(Retrying(1), retry[1], f) + Sum(Retrying(2), retry[2], f)
  }

  function SumAll(s: State, f: (Place, Message) -> int): int
    requires |s.retry| == 3
  {
    Sum(Main, s.main, f) + SumUnacked(s.unacked, f) + SumRetry(s.retry, f) + Sum(Dead, s.dlq, f) +
    Sum(Settled, s.settled, f)
  }

  lemma {:induction false} SumOfConcat(p: Place, a: seq<Message>, b: seq<Message>, f: (Place, Message) -> int)
    ensures Sum(p, a + b, f) == Sum(p, a, f) + Sum(p, b, f)
  {
    if b == [] {
      assert a + b == a;
    } else {
      assert (a + b)[..|a + b| - 1] == a + b[..|b| - 1];
      SumOfConcat(p, a, b[..|b| - 1], f);
    }
  }

  lemma SumOfOne(p: Place, m: Message, f: (Place, Message) -> int)
    ensures Sum(p, [m], f) == f(p, m)
  {
    assert [m][..0] == [];
  }

  lemma SumPushed(p: Place, ms: seq<Message>, m: Message, f: (Place, Message) -> int)
    ensures Sum(p, ms + [m], f) == Sum(p, ms, f) + f(p, m)
  {
    SumOfConcat(p, ms, [m], f);
    SumOfOne(p, m, f);
  }

  lemma SumPopped(p: Place, ms: seq<Message>, f: (Place, Message) -> int)
    requires ms != []
    ensures Sum(p, ms, f) == f(p, ms[0]) + Sum(p, ms[1..], f)
  {
    assert ms == [ms[0]] + ms[1..];
    SumOfConcat(p, [ms[0]], ms[1..], f);
    SumOfOne(p, ms[0], f);
  }

  lemma {:induction false} UnackedReplaced(ds: seq<Delivery>, k: nat, stage: Stage, f: (Place, Message) -> int)
    requires k < |ds|
    ensures SumUnacked(ds[k := Delivery(ds[k].message, stage)], f)
            == SumUnacked(ds, f) - f(Unacked(ds[k].stage), ds[k].message) + f(Unacked(stage), ds[k].message)
  {
    var n := |ds| - 1;
    if k < n {
      UnackedReplaced(ds[..n], k, stage, f);
      assert ds[k := Delivery(ds[k].message, stage)][..n] == ds[..n][k := Delivery(ds[k].message, stage)];
    } else {
      assert ds[k := Delivery(ds[k].message, stage)][..n] == ds[..n];
    }
  }

  lemma {:induction false} UnackedRemoved(ds: seq<Delivery>, k: nat, f: (Place, Message) -> int)
    requires k < |ds|
    ensures SumUnacked(Without(ds, k), f) == SumUnacked(ds, f) - f(Unacked(ds[k].stage), ds[k].message)
  {
    var n := |ds| - 1;
    if k < n {
      UnackedRemoved(ds[..n], k, f);
      assert Without(ds, k)[..n - 1] == Without(ds[..n], k);
    } else {
      assert Without(ds, k) == ds[..n];
    }
  }

  lemma DeadLetteredSum(s: State, k: nat, f: (Place, Message) -> int)
    requires k < |s.unacked| && |s.retry| == 3
    ensures SumAll(DeadLettered(s, k), f)
            == SumAll(s, f) - f(Unacked(s.unacked[k].stage), s.unacked[k].message) + f(Dead, s.unacked[k].message)
  {
    UnackedRemoved(s.unacked, k, f);
    SumPushed(Dead, s.dlq, s.unacked[k].message, f);
  }

  lemma StagedSum(s: State, k: nat, stage: Stage, f: (Place, Message) -> int)
    requires k < |s.unacked| && |s.retry| == 3
    ensures SumAll(Staged(s, k, stage), f)
            == SumAll(s, f) - f(Unacked(s.unacked[k].stage), s.unacked[k].message)
               + f(Unacked(stage), s.unacked[k].message)
  {
    UnackedReplaced(s.unacked, k, stage, f);
  }

  lemma RetriedSum(s: State, k: nat, payload: Payload, metadata: Metadata, f: (Place, Message) -> int)
    requires k < |s.unacked| && |s.retry| == 3
    ensures var m, rc := s.unacked[k].message, metadata.retryCount;
            SumAll(Retried(s, k, payload, metadata), f) == SumAll(s, f) - f(Unacked(s.unacked[k].stage), m) +
              if 0 <= rc < MAX_RETRIES then
                f(Unacked(Handed), m) + f(Retrying(rc), Message(m.origin, CreateRetryMessage(payload, metadata)))
              else
                f(Dead, m)
  {
    var rc := metadata.retryCount;
    if 0 <= rc < MAX_RETRIES {
      StagedSum(s, k, Handed, f);
      SumPushed(Retrying(rc), s.retry[rc], Message(s.unacked[k].message.origin, CreateRetryMessage(payload, metadata)), f);
    } else {
      DeadLetteredSum(s, k, f);
    }
  }

  lemma AckedSum(s: State, k: nat, f: (Place, Message) -> int)
    requires k < |s.unacked| && |s.retry| == 3
    ensures var d := s.unacked[k];
            SumAll(Acked(s, k), f) == SumAll(s, f) - f(Unacked(d.stage), d.message)
                                      + if d.stage.Handed? then 0 else f(Settled, d.message)
  {
    UnackedRemoved(s.unacked, k, f);
    SumPushed(Settled, s.settled, s.unacked[k].message, f);
  }

  lemma DeliverSum(service: Service, s: State, f: (Place, Message) -> int)
    requires Enabled(s, Deliver)
    ensures SumAll(Step(service, s, Deliver), f)
            == SumAll(s, f) - f(Main, s.main[0]) + f(Unacked(Fetched), s.main[0])
  {
    SumPopped(Main, s.main, f);
    assert (s.unacked + [Delivery(s.main[0], Fetched)])[..|s.unacked|] == s.unacked;
  }

  lemma ExpireSum(service: Service, s: State, i: nat, f: (Place, Message) -> int)
    requires Enabled(s, Expire(i))
    ensures SumAll(Step(service, s, Expire(i)), f)
            == SumAll(s, f) - f(Retrying(i), s.retry[i][0]) + f(Main, s.retry[i][0])
  {
    SumPopped(Retrying(i), s.retry[i], f);
    SumPushed(Main, s.main, s.retry[i][0], f);
  }
}
