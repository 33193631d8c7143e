/**
 What the retry protocol of the USER_SIGNED_UP consumers guarantees: every copy of a message is where it
 belongs, nothing is lost, attempts are bounded, runs end, and rows are written once.
 */
module RetryGuarantees {
  import opened Common
  import opened RetryQueue

  // ------------------------------------------------------------------------------------------
  // What is true of every copy, crashes or not
  // ------------------------------------------------------------------------------------------

  function RetryCount(content: Content): int {
    if content.Wrapped? && content.metadata.Some? then content.metadata.value.retryCount else 0
  }

  // The messages a row is created for.
  predicate Relevant(service: Service, content: Content) {
    content.Wrapped? && (service.Users? || content.payload.isProvider)
  }

  // How often a message published with this retry count may be tried.
  function Allowed(retryCount: int): nat {
    if 0 <= retryCount <= 3 then 4 - retryCount else 1
  }

  predicate At(s: State, p: Place, m: Message) {
    match p
    case Main => m in s.main
    case Unacked(stage) => Delivery(m, stage) in s.unacked
    case Retrying(i) => i < |s.retry| && m in s.retry[i]
    case Dead => m in s.dlq
    case Settled => m in s.settled
  }

  predicate Descends(m: Message, first: Message) {
    && m.content.Wrapped? == first.content.Wrapped?
    && (m.content.Wrapped? ==> m.content.payload == first.content.payload)
    && var rc, from := RetryCount(m.content), RetryCount(first.content);
       rc == from || (0 <= from < rc <= MAX_RETRIES && m.content.Wrapped?)
  }

  predicate CopyOk(service: Service, published: map<Id, Message>, table: Table, p: Place, m: Message) {
    && m.origin in published && Descends(m, published[m.origin])
    && match p
       case Main => true
       case Unacked(Fetched) => true
       case Unacked(Handed) => m.content.Wrapped?
       case Retrying(i) => m.content.Wrapped? && RetryCount(m.content) == i + 1
       case Dead => m.content.Malformed? || !(0 <= RetryCount(m.content) < MAX_RETRIES)
       case _ => m.content.Wrapped? && (Relevant(service, m.content) ==> m.content.payload.identity in table)
  }

  ghost predicate CopiesOk(service: Service, s: State) {
    |s.retry| == 3 && forall p, m :: At(s, p, m) ==> CopyOk(service, s.published, s.table, p, m)
  }

  lemma DeadLetteredIsOk(service: Service, s: State, k: nat)
    requires CopiesOk(service, s) && k < |s.unacked|
    requires var c := s.unacked[k].message.content; c.Malformed? || !(0 <= RetryCount(c) < MAX_RETRIES)
    ensures CopiesOk(service, DeadLettered(s, k))
  {
    var t := DeadLettered(s, k);
    forall p, m | At(t, p, m) ensures CopyOk(service, t.published, t.table, p, m) {
      if !At(s, p, m) {
        assert At(s, Unacked(s.unacked[k].stage), m);
      }
    }
  }

  lemma StagedIsOk(service: Service, s: State, k: nat, stage: Stage)
    requires CopiesOk(service, s) && k < |s.unacked|
    requires CopyOk(service, s.published, s.table, Unacked(stage), s.unacked[k].message)
    ensures CopiesOk(service, Staged(s, k, stage))
  {
    var t := Staged(s, k, stage);
    forall p, m | At(t, p, m) ensures CopyOk(service, t.published, t.table, p, m) {
      assert At(s, p, m) || (m == s.unacked[k].message && p == Unacked(stage));
    }
  }

  lemma RetryPushedIsOk(service: Service, s: State, rc: nat, copy: Message)
    requires CopiesOk(service, s) && rc < 3
    requires CopyOk(service, s.published, s.table, Retrying(rc), copy)
    ensures CopiesOk(service, s.(retry := s.retry[rc := s.retry[rc] + [copy]]))
  {
    var t := s.(retry := s.retry[rc := s.retry[rc] + [copy]]);
    forall p, m | At(t, p, m) ensures CopyOk(service, t.published, t.table, p, m) {
      assert At(s, p, m) || (m == copy && p == Retrying(rc));
    }
  }

  lemma RetriedIsOk(service: Service, s: State, k: nat, now: int)
    requires CopiesOk(service, s) && k < |s.unacked| && s.unacked[k].message.content.Wrapped?
    ensures var (payload, metadata) := ParseMessage(s.unacked[k].message.content, now).value;
            CopiesOk(service, Retried(s, k, payload, metadata))
  {
    var m := s.unacked[k].message;
    var (payload, metadata) := ParseMessage(m.content, now).value;
    var rc := metadata.retryCount;
    assert At(s, Unacked(s.unacked[k].stage), m);
    if 0 <= rc < MAX_RETRIES {
      var copy := Message(m.origin, CreateRetryMessage(payload, metadata));
      StagedIsOk(service, s, k, Handed);
      RetryPushedIsOk(service, Staged(s, k, Handed), rc, copy);
    } else {
      DeadLetteredIsOk(service, s, k);
    }
  }

  lemma TableGrowthIsOk(service: Service, s: State, t: State)
    requires CopiesOk(service, s) && s.table.Keys <= t.table.Keys
    requires t == s.(table := t.table, attempts := t.attempts, failures := t.failures)
    ensures CopiesOk(service, t)
  {
    forall p, m | At(t, p, m) ensures CopyOk(service, t.published, t.table, p, m) {
      assert At(s, p, m);
    }
  }

  lemma HandledIsOk(service: Service, s: State, k: nat, fault: Fault, now: int)
    requires CopiesOk(service, s) && k < |s.unacked|
    ensures CopiesOk(service, Handled(service, s, k, fault, now))
  {
    var m := s.unacked[k].message;
    assert At(s, Unacked(s.unacked[k].stage), m);
    if m.content.Malformed? {
      DeadLetteredIsOk(service, s, k);
    } else if !Relevant(service, m.content) {
      StagedIsOk(service, s, k, Finished);
    } else {
      var created := CreateRow(service, s.table, m.content.payload, fault);
      if created.ok {
        var t := s.(table := created.table, attempts := s.attempts + [m.origin]);
        TableGrowthIsOk(service, s, t);
        StagedIsOk(service, t, k, Finished);
      } else {
        var t := s.(table := created.table, attempts := s.attempts + [m.origin], failures := s.failures + [m.origin]);
        TableGrowthIsOk(service, s, t);
        RetriedIsOk(service, t, k, now);
      }
    }
  }

  lemma AckedIsOk(service: Service, s: State, k: nat)
    requires CopiesOk(service, s) && k < |s.unacked| && !s.unacked[k].stage.Fetched?
    ensures CopiesOk(service, Acked(s, k))
  {
    var t := Acked(s, k);
    forall p, m | At(t, p, m) ensures CopyOk(service, t.published, t.table, p, m) {
      if !At(s, p, m) {
        assert At(s, Unacked(s.unacked[k].stage), m);
      }
    }
  }

  lemma {:induction false} MessagesAreUnacked(ds: seq<Delivery>, m: Message)
    requires m in Messages(ds)
    ensures exists stage :: Delivery(m, stage) in ds
  {
    var d := ds[|ds| - 1];
    if m == d.message {
      assert Delivery(m, d.stage) in ds;
    } else {
      MessagesAreUnacked(ds[..|ds| - 1], m);
      var stage :| Delivery(m, stage) in ds[..|ds| - 1];
      assert Delivery(m, stage) in ds;
    }
  }

  lemma MovesAreOk(service: Service, s: State, a: Action)
    requires CopiesOk(service, s) && Enabled(s, a) && (a.Publish? || a.Deliver? || a.Expire? || a.Crash?)
    ensures CopiesOk(service, Step(service, s, a))
  {
    var t := Step(service, s, a);
    forall p, m | At(t, p, m) ensures CopyOk(service, t.published, t.table, p, m) {
      if !At(s, p, m) {
        match a
        case Publish(_) =>
        case Deliver => assert At(s, Main, m);
        case Expire(i) => assert At(s, Retrying(i), m);
        case Crash =>
          MessagesAreUnacked(s.unacked, m);
          var stage :| Delivery(m, stage) in s.unacked;
          assert At(s, Unacked(stage), m);
      }
    }
  }

  lemma StepKeepsCopiesOk(service: Service, s: State, a: Action)
    requires CopiesOk(service, s) && Enabled(s, a)
    ensures CopiesOk(service, Step(service, s, a))
  {
    match a
    case Handle(k, fault, now) => HandledIsOk(service, s, k, fault, now);
    case Ack(k) => AckedIsOk(service, s, k);
    case _ => MovesAreOk(service, s, a);
  }

  lemma {:induction false} RunKeepsCopiesOk(service: Service, acts: seq<Action>)
    requires IsRun(service, Init, acts)
    ensures CopiesOk(service, After(service, Init, acts))
  {
    if acts == [] {
    } else {
      RunKeepsCopiesOk(service, acts[..|acts| - 1]);
      StepKeepsCopiesOk(service, After(service, Init, acts[..|acts| - 1]), acts[|acts| - 1]);
    }
  }

  // ------------------------------------------------------------------------------------------
  // Conservation
  // ------------------------------------------------------------------------------------------

  // A delivery that was handed over does not count: its retry message does.
  function IsCopy(o: Id, p: Place, m: Message): int {
    if m.origin == o && p != Unacked(Handed) then 1 else 0
  }

  function Copy(o: Id): (Place, Message) -> int {
    (p: Place, m: Message) => IsCopy(o, p, m)
  }

  // How many copies of a published event there are.
  function Copies(s: State, o: Id): int
    requires |s.retry| == 3
  {
    SumAll(s, Copy(o))
  }

  function Occurs(log: seq<Id>, o: Id): nat {
    if log == [] then 0 else Occurs(log[..|log| - 1], o) + if log[|log| - 1] == o then 1 else 0
  }

  // The failed attempts, and all attempts, behind a copy at some place.
  function FailuresOf(o: Id, from: int, p: Place, m: Message): int {
    if IsCopy(o, p, m) == 0 || m.content.Malformed? then
      0
    else
      RetryCount(m.content) - from + if p.Dead? then 1 else 0
  }

  function AttemptsOf(service: Service, o: Id, from: int, p: Place, m: Message): int {
    FailuresOf(o, from, p, m) +
    if IsCopy(o, p, m) == 1 && Relevant(service, m.content) && (p == Settled || p == Unacked(Finished)) then 1 else 0
  }

  function Failed(o: Id, from: int): (Place, Message) -> int {
    (p: Place, m: Message) => FailuresOf(o, from, p, m)
  }

  function Tried(service: Service, o: Id, from: int): (Place, Message) -> int {
    (p: Place, m: Message) => AttemptsOf(service, o, from, p, m)
  }

  ghost predicate Vanishes(f: (Place, Message) -> int, o: Id) {
    forall p, m :: IsCopy(o, p, m) == 0 ==> f(p, m) == 0
  }

  // Where a single copy is, it makes up the whole sum.
  lemma {:induction false} SumWithCopies(p: Place, ms: seq<Message>, f: (Place, Message) -> int, o: Id)
    requires Vanishes(f, o)
    ensures Sum(p, ms, Copy(o)) >= 0
    ensures Sum(p, ms, Copy(o)) == 0 ==> Sum(p, ms, f) == 0
    ensures forall m :: m in ms && IsCopy(o, p, m) == 1 ==>
              Sum(p, ms, Copy(o)) >= 1 && (Sum(p, ms, Copy(o)) == 1 ==> Sum(p, ms, f) == f(p, m))
  {
    if ms == [] {
    } else {
      var front, last := ms[..|ms| - 1], ms[|ms| - 1];
      SumWithCopies(p, front, f, o);
      assert ms == front + [last];
      assert IsCopy(o, p, last) == 0 ==> f(p, last) == 0;
    }
  }

  lemma {:induction false} UnackedWithCopies(ds: seq<Delivery>, f: (Place, Message) -> int, o: Id)
    requires Vanishes(f, o)
    ensures SumUnacked(ds, Copy(o)) >= 0
    ensures SumUnacked(ds, Copy(o)) == 0 ==> SumUnacked(ds, f) == 0
    ensures forall d :: d in ds && IsCopy(o, Unacked(d.stage), d.message) == 1 ==>
              SumUnacked(ds, Copy(o)) >= 1 &&
              (SumUnacked(ds, Copy(o)) == 1 ==> SumUnacked(ds, f) == f(Unacked(d.stage), d.message))
  {
    if ds == [] {
    } else {
      var front, last := ds[..|ds| - 1], ds[|ds| - 1];
      UnackedWithCopies(front, f, o);
      assert ds == front + [last];
      assert IsCopy(o, Unacked(last.stage), last.message) == 0 ==> f(Unacked(last.stage), last.message) == 0;
    }
  }

  lemma NoCopies(s: State, f: (Place, Message) -> int, o: Id)
    requires |s.retry| == 3 && Vanishes(f, o)
    ensures Copies(s, o) >= 0
    ensures Copies(s, o) == 0 ==> SumAll(s, f) == 0
  {
    SumWithCopies(Main, s.main, f, o);
    UnackedWithCopies(s.unacked, f, o);
    SumWithCopies(Retrying(0), s.retry[0], f, o);
    SumWithCopies(Retrying(1), s.retry[1], f, o);
    SumWithCopies(Retrying(2), s.retry[2], f, o);
    SumWithCopies(Dead, s.dlq, f, o);
    SumWithCopies(Settled, s.settled, f, o);
  }

  lemma OneCopy(s: State, f: (Place, Message) -> int, o: Id, p: Place, m: Message)
    requires |s.retry| == 3 && Vanishes(f, o) && At(s, p, m) && IsCopy(o, p, m) == 1
    ensures Copies(s, o) >= 1
    ensures Copies(s, o) == 1 ==> SumAll(s, f) == f(p, m)
  {
    SumWithCopies(Main, s.main, f, o);
    UnackedWithCopies(s.unacked, f, o);
    SumWithCopies(Retrying(0), s.retry[0], f, o);
    SumWithCopies(Retrying(1), s.retry[1], f, o);
    SumWithCopies(Retrying(2), s.retry[2], f, o);
    SumWithCopies(Dead, s.dlq, f, o);
    SumWithCopies(Settled, s.settled, f, o);
    match p
    case Unacked(stage) => assert Delivery(m, stage) in s.unacked;
    case Retrying(i) => assert i == 0 || i == 1 || i == 2;
    case _ =>
  }

  lemma FailedVanishes(service: Service, o: Id, from: int)
    ensures Vanishes(Failed(o, from), o) && Vanishes(Tried(service, o, from), o) && Vanishes(Copy(o), o)
  {
  }

  predicate Fails(service: Service, s: State, m: Message, fault: Fault) {
    Relevant(service, m.content) && !CreateRow(service, s.table, m.content.payload, fault).ok
  }

  // Where the copy a delivery stands for is once the delivery was handled.
  function PlaceAfter(service: Service, s: State, m: Message, fault: Fault): Place {
    if m.content.Malformed? then
      Dead
    else if !Fails(service, s, m, fault) then
      Unacked(Finished)
    else if 0 <= RetryCount(m.content) < MAX_RETRIES then
      Retrying(RetryCount(m.content))
    else
      Dead
  }

  function CopyAfter(service: Service, s: State, m: Message, fault: Fault, now: int): Message {
    if PlaceAfter(service, s, m, fault).Retrying? then
      var (payload, metadata) := ParseMessage(m.content, now).value;
      Message(m.origin, CreateRetryMessage(payload, metadata))
    else
      m
  }

  lemma HandledSum(service: Service, s: State, k: nat, fault: Fault, now: int, f: (Place, Message) -> int)
    requires k < |s.unacked| && |s.retry| == 3
    ensures var d := s.unacked[k];
            var p := PlaceAfter(service, s, d.message, fault);
            SumAll(Handled(service, s, k, fault, now), f) == SumAll(s, f) - f(Unacked(d.stage), d.message)
              + f(p, CopyAfter(service, s, d.message, fault, now)) + if p.Retrying? then f(Unacked(Handed), d.message) else 0
  {
    hide Sum, SumUnacked, SumRetry, Without, CreateRow;
    var m := s.unacked[k].message;
    if m.content.Malformed? {
      DeadLetteredSum(s, k, f);
    } else if !Fails(service, s, m, fault) {
      StagedSum(s, k, Finished, f);
    } else {
      var (payload, metadata) := ParseMessage(m.content, now).value;
      var table := CreateRow(service, s.table, m.content.payload, fault).table;
      var t := s.(table := table, attempts := s.attempts + [m.origin], failures := s.failures + [m.origin]);
      RetriedSum(t, k, payload, metadata, f);
    }
  }

  lemma PublishSum(service: Service, s: State, m: Message, f: (Place, Message) -> int)
    requires Enabled(s, Publish(m))
    ensures SumAll(Step(service, s, Publish(m)), f) == SumAll(s, f) + f(Main, m)
  {
    SumPushed(Main, s.main, m, f);
  }

  // Sums that only the callback can change.
  ghost predicate Neutral(f: (Place, Message) -> int) {
    && (forall m :: f(Main, m) == f(Unacked(Fetched), m))
    && (forall m, i :: f(Retrying(i), m) == f(Main, m))
    && (forall m :: f(Unacked(Finished), m) == f(Settled, m))
    && (forall m :: f(Unacked(Handed), m) == 0)
  }

  lemma MoveKeepsSum(service: Service, s: State, a: Action, f: (Place, Message) -> int)
    requires Enabled(s, a) && (a.Deliver? || a.Ack? || a.Expire?) && Neutral(f)
    ensures SumAll(Step(service, s, a), f) == SumAll(s, f)
  {
    match a
    case Deliver => DeliverSum(service, s, f);
    case Ack(k) => AckedSum(s, k, f);
    case Expire(i) => ExpireSum(service, s, i, f);
  }

  lemma CopiesAreNeutral(o: Id)
    ensures Neutral(Copy(o))
  {
  }

  lemma FailuresAreNeutral(o: Id, from: int)
    ensures Neutral(Failed(o, from))
  {
  }

  lemma AttemptsAreNeutral(service: Service, o: Id, from: int)
    ensures Neutral(Tried(service, o, from))
  {
  }

  // Without a crash, an action neither creates nor loses a copy of what was published before.
  lemma StepConserves(service: Service, s: State, a: Action, o: Id)
    requires Enabled(s, a) && a != Crash
    ensures Copies(Step(service, s, a), o) == Copies(s, o) + if a.Publish? && a.message.origin == o then 1 else 0
  {
    match a
    case Publish(m) => PublishSum(service, s, m, Copy(o));
    case Handle(k, fault, now) => HandledSum(service, s, k, fault, now, Copy(o));
    case _ =>
      CopiesAreNeutral(o);
      MoveKeepsSum(service, s, a, Copy(o));
  }

  lemma StepPublishes(service: Service, s: State, a: Action)
    requires Enabled(s, a)
    ensures Step(service, s, a).published
            == if a.Publish? then s.published[a.message.origin := a.message] else s.published
  {
  }

  // In a run without crashes every published message is in exactly one place: the main queue, with
  // the consumer, in a retry queue, dead-lettered or settled.
  lemma {:induction false} EveryMessageIsInOnePlace(service: Service, acts: seq<Action>, o: Id)
    requires IsRun(service, Init, acts) && CrashFree(acts)
    ensures var s := After(service, Init, acts);
            |s.retry| == 3 && Copies(s, o) == if o in s.published then 1 else 0
  {
    if acts == [] {
    } else {
      var front, a := acts[..|acts| - 1], acts[|acts| - 1];
      var s := After(service, Init, front);
      EveryMessageIsInOnePlace(service, front, o);
      StepConserves(service, s, a, o);
      StepPublishes(service, s, a);
      assert After(service, Init, acts) == Step(service, s, a);
    }
  }

  // ------------------------------------------------------------------------------------------
  // Attempts
  // ------------------------------------------------------------------------------------------

  // The logs of attempts agree with what the copies of an event say.
  ghost predicate LogsOk(service: Service, s: State, o: Id)
    requires |s.retry| == 3
  {
    if o in s.published then
      var from := RetryCount(s.published[o].content);
      && SumAll(s, Failed(o, from)) == Occurs(s.failures, o)
      && SumAll(s, Tried(service, o, from)) == Occurs(s.attempts, o)
    else
      Occurs(s.failures, o) == 0 == Occurs(s.attempts, o)
  }

  lemma LogPushed(log: seq<Id>, x: Id, happens: bool, o: Id)
    ensures Occurs(log + (if happens then [x] else []), o) == Occurs(log, o) + if happens && x == o then 1 else 0
  {
    assert (log + [x])[..|log|] == log;
    assert log + [] == log;
  }

  lemma HandledWritesLogs(service: Service, s: State, k: nat, fault: Fault, now: int)
    requires k < |s.unacked| && |s.retry| == 3
    ensures var t, m := Handled(service, s, k, fault, now), s.unacked[k].message;
            && t.attempts == s.attempts + (if Relevant(service, m.content) then [m.origin] else [])
            && t.failures == s.failures + if Fails(service, s, m, fault) then [m.origin] else []
  {
  }

  lemma CopyAfterCounts(service: Service, s: State, m: Message, fault: Fault, now: int, o: Id, from: int)
    ensures var p, c := PlaceAfter(service, s, m, fault), CopyAfter(service, s, m, fault, now);
            && FailuresOf(o, from, p, c) - FailuresOf(o, from, Unacked(Fetched), m)
               == (if Fails(service, s, m, fault) && m.origin == o then 1 else 0)
            && AttemptsOf(service, o, from, p, c) - AttemptsOf(service, o, from, Unacked(Fetched), m)
               == (if Relevant(service, m.content) && m.origin == o then 1 else 0)
  {
  }

  lemma HandleCountsFailures(service: Service, s: State, k: nat, fault: Fault, now: int, o: Id, from: int)
    requires Enabled(s, Handle(k, fault, now))
    ensures var t := Handled(service, s, k, fault, now);
            SumAll(t, Failed(o, from)) - SumAll(s, Failed(o, from)) == Occurs(t.failures, o) - Occurs(s.failures, o)
  {
    var m, t := s.unacked[k].message, Handled(service, s, k, fault, now);
    HandledSum(service, s, k, fault, now, Failed(o, from));
    CopyAfterCounts(service, s, m, fault, now, o, from);
    assert t.failures == s.failures + (if Fails(service, s, m, fault) then [m.origin] else []) by {
      HandledWritesLogs(service, s, k, fault, now);
    }
    LogPushed(s.failures, m.origin, Fails(service, s, m, fault), o);
  }

  lemma HandleCountsAttempts(service: Service, s: State, k: nat, fault: Fault, now: int, o: Id, from: int)
    requires Enabled(s, Handle(k, fault, now))
    ensures var t := Handled(service, s, k, fault, now);
            SumAll(t, Tried(service, o, from)) - SumAll(s, Tried(service, o, from))
            == Occurs(t.attempts, o) - Occurs(s.attempts, o)
  {
    var m, t := s.unacked[k].message, Handled(service, s, k, fault, now);
    HandledSum(service, s, k, fault, now, Tried(service, o, from));
    CopyAfterCounts(service, s, m, fault, now, o, from);
    assert t.attempts == s.attempts + (if Relevant(service, m.content) then [m.origin] else []) by {
      HandledWritesLogs(service, s, k, fault, now);
    }
    LogPushed(s.attempts, m.origin, Relevant(service, m.content), o);
  }

  lemma PublishKeepsLogs(service: Service, s: State, m: Message, o: Id)
    requires Enabled(s, Publish(m)) && LogsOk(service, s, o) && (o !in s.published ==> Copies(s, o) == 0)
    ensures LogsOk(service, Step(service, s, Publish(m)), o)
  {
    var t := Step(service, s, Publish(m));
    var from := RetryCount(t.published[if o in t.published then o else m.origin].content);
    FailedVanishes(service, o, from);
    NoCopies(s, Failed(o, from), o);
    NoCopies(s, Tried(service, o, from), o);
    PublishSum(service, s, m, Failed(o, from));
    PublishSum(service, s, m, Tried(service, o, from));
  }

  lemma HandleKeepsLogs(service: Service, s: State, k: nat, fault: Fault, now: int, o: Id)
    requires Enabled(s, Handle(k, fault, now)) && CopiesOk(service, s) && LogsOk(service, s, o)
    ensures LogsOk(service, Step(service, s, Handle(k, fault, now)), o)
  {
    StepPublishes(service, s, Handle(k, fault, now));
    if o in s.published {
      var from := RetryCount(s.published[o].content);
      HandleCountsFailures(service, s, k, fault, now, o, from);
      HandleCountsAttempts(service, s, k, fault, now, o, from);
    } else {
      var m := s.unacked[k].message;
      assert At(s, Unacked(Fetched), m);
      HandledWritesLogs(service, s, k, fault, now);
      LogPushed(s.attempts, m.origin, Relevant(service, m.content), o);
      LogPushed(s.failures, m.origin, Fails(service, s, m, fault), o);
    }
  }

  lemma MoveKeepsLogs(service: Service, s: State, a: Action, o: Id)
    requires Enabled(s, a) && (a.Deliver? || a.Ack? || a.Expire?) && LogsOk(service, s, o)
    ensures LogsOk(service, Step(service, s, a), o)
  {
    StepPublishes(service, s, a);
    var from := if o in s.published then RetryCount(s.published[o].content) else 0;
    FailuresAreNeutral(o, from);
    AttemptsAreNeutral(service, o, from);
    MoveKeepsSum(service, s, a, Failed(o, from));
    MoveKeepsSum(service, s, a, Tried(service, o, from));
  }

  lemma {:induction false} RunKeepsLogs(service: Service, acts: seq<Action>, o: Id)
    requires IsRun(service, Init, acts) && CrashFree(acts)
    ensures |After(service, Init, acts).retry| == 3 && LogsOk(service, After(service, Init, acts), o)
  {
    if acts == [] {
    } else {
      var front, a := acts[..|acts| - 1], acts[|acts| - 1];
      var s := After(service, Init, front);
      RunKeepsLogs(service, front, o);
      EveryMessageIsInOnePlace(service, front, o);
      RunKeepsCopiesOk(service, front);
      assert After(service, Init, acts) == Step(service, s, a);
      match a
      case Publish(m) => PublishKeepsLogs(service, s, m, o);
      case Handle(k, fault, now) => HandleKeepsLogs(service, s, k, fault, now, o);
      case _ => MoveKeepsLogs(service, s, a, o);
    }
  }

  // The attempts and failures behind the one copy of an event.
  lemma CopyTellsAttempts(service: Service, acts: seq<Action>, p: Place, m: Message)
    requires IsRun(service, Init, acts) && CrashFree(acts)
    requires At(After(service, Init, acts), p, m) && p != Unacked(Handed)
    ensures var s := After(service, Init, acts);
            && m.origin in s.published
            && var from := RetryCount(s.published[m.origin].content);
               && Occurs(s.failures, m.origin) == FailuresOf(m.origin, from, p, m)
               && Occurs(s.attempts, m.origin) == AttemptsOf(service, m.origin, from, p, m)
  {
    var s := After(service, Init, acts);
    RunKeepsCopiesOk(service, acts);
    RunKeepsLogs(service, acts, m.origin);
    EveryMessageIsInOnePlace(service, acts, m.origin);
    var from := RetryCount(s.published[m.origin].content);
    FailedVanishes(service, m.origin, from);
    OneCopy(s, Failed(m.origin, from), m.origin, p, m);
    OneCopy(s, Tried(service, m.origin, from), m.origin, p, m);
  }

  // Without crashes, a well-formed message is dead-lettered only once every allowed attempt has failed:
  // after exactly four failures if it was published with retry count 0.
  lemma DeadLettersHaveFailed(service: Service, acts: seq<Action>, m: Message)
    requires IsRun(service, Init, acts) && CrashFree(acts)
    requires m in After(service, Init, acts).dlq && m.content.Wrapped?
    ensures var s := After(service, Init, acts);
            && m.origin in s.published
            && Occurs(s.failures, m.origin) == Occurs(s.attempts, m.origin)
               == Allowed(RetryCount(s.published[m.origin].content))
  {
    var s := After(service, Init, acts);
    assert At(s, Dead, m);
    CopyTellsAttempts(service, acts, Dead, m);
    RunKeepsCopiesOk(service, acts);
    assert CopyOk(service, s.published, s.table, Dead, m);
  }

  // And no message is tried more often than that, wherever its copy is.
  lemma AttemptsAreBounded(service: Service, acts: seq<Action>, p: Place, m: Message)
    requires IsRun(service, Init, acts) && CrashFree(acts)
    requires At(After(service, Init, acts), p, m) && p != Unacked(Handed)
    ensures var s := After(service, Init, acts);
            && m.origin in s.published
            && Occurs(s.attempts, m.origin) <= Allowed(RetryCount(s.published[m.origin].content)) <= MAX_RETRIES + 1
            && (Occurs(s.failures, m.origin) == Allowed(RetryCount(s.published[m.origin].content)) ==> p == Dead)
  {
    var s := After(service, Init, acts);
    CopyTellsAttempts(service, acts, p, m);
    RunKeepsCopiesOk(service, acts);
    assert CopyOk(service, s.published, s.table, p, m);
  }

  // A message waiting in the i-th retry queue, counted from 0, says it is being retried for the i+1-th time.
  lemma RetryQueuesHoldTheirCount(service: Service, acts: seq<Action>, i: nat, m: Message)
    requires IsRun(service, Init, acts) && i < MAX_RETRIES
    requires |After(service, Init, acts).retry| == 3 && m in After(service, Init, acts).retry[i]
    ensures m.content.Wrapped? && RetryCount(m.content) == i + 1
    ensures m.origin in After(service, Init, acts).published
    ensures Descends(m, After(service, Init, acts).published[m.origin])
  {
    RunKeepsCopiesOk(service, acts);
    assert At(After(service, Init, acts), Retrying(i), m);
  }

  // ------------------------------------------------------------------------------------------
  // Crashes
  // ------------------------------------------------------------------------------------------

  // The deliveries of an event whose retry message is out and that are not acknowledged yet.
  function HandedOver(ds: seq<Delivery>, o: Id): nat {
    if ds == [] then
      0
    else
      HandedOver(ds[..|ds| - 1], o) +
      if ds[|ds| - 1].stage.Handed? && ds[|ds| - 1].message.origin == o then 1 else 0
  }

  lemma {:induction false} RequeueingCounts(ds: seq<Delivery>, o: Id)
    ensures Sum(Main, Messages(ds), Copy(o)) == SumUnacked(ds, Copy(o)) + HandedOver(ds, o)
  {
    if ds == [] {
    } else {
      var last := ds[|ds| - 1];
      RequeueingCounts(ds[..|ds| - 1], o);
      SumPushed(Main, Messages(ds[..|ds| - 1]), last.message, Copy(o));
    }
  }

  // A crash adds exactly one copy per delivery that is handed over and not acknowledged.
  lemma CrashCounts(service: Service, s: State, o: Id)
    requires Enabled(s, Crash)
    ensures Copies(Step(service, s, Crash), o) == Copies(s, o) + HandedOver(s.unacked, o)
  {
    RequeueingCounts(s.unacked, o);
    SumOfConcat(Main, Messages(s.unacked), s.main, Copy(o));
  }

  lemma {:induction false} HandedOverIff(ds: seq<Delivery>, o: Id)
    ensures HandedOver(ds, o) > 0 <==> exists d :: d in ds && d.stage.Handed? && d.message.origin == o
  {
    if ds == [] {
    } else {
      var front, last := ds[..|ds| - 1], ds[|ds| - 1];
      HandedOverIff(front, o);
      assert ds == front + [last];
    }
  }

  // So a single copy stays single in a crash if and only if no delivery of the event is handed over and
  // not acknowledged.
  lemma CrashKeepsSingleCopyIff(service: Service, s: State, o: Id)
    requires Enabled(s, Crash) && Copies(s, o) == 1
    ensures Copies(Step(service, s, Crash), o) == 1 <==>
            forall d :: d in s.unacked && d.stage.Handed? ==> d.message.origin != o
  {
    CrashCounts(service, s, o);
    HandedOverIff(s.unacked, o);
  }

  // How many copies of an event the crashes of a run have added.
  function Doubled(service: Service, acts: seq<Action>, o: Id): nat
    requires IsRun(service, Init, acts)
  {
    if acts == [] then
      0
    else
      var front := acts[..|acts| - 1];
      Doubled(service, front, o) +
      if acts[|acts| - 1].Crash? then HandedOver(After(service, Init, front).unacked, o) else 0
  }

  // In every run a published event has one copy, and one more for each time a crash met a delivery of it
  // between sending the retry message and acknowledging; an event not published has none.
  lemma {:induction false} CopiesAreCounted(service: Service, acts: seq<Action>, o: Id)
    requires IsRun(service, Init, acts)
    ensures var s := After(service, Init, acts);
            |s.retry| == 3 && Copies(s, o) == (if o in s.published then 1 else 0) + Doubled(service, acts, o)
  {
    if acts == [] {
    } else {
      var front, a := acts[..|acts| - 1], acts[|acts| - 1];
      var s := After(service, Init, front);
      CopiesAreCounted(service, front, o);
      StepPublishes(service, s, a);
      if a.Crash? {
        CrashCounts(service, s, o);
      } else {
        StepConserves(service, s, a, o);
      }
      assert After(service, Init, acts) == Step(service, s, a);
    }
  }

  // The consumer has at most ten deliveries on its hands, and the broker hands out messages up to that.
  lemma {:induction false} AtMostTenAtATime(service: Service, acts: seq<Action>)
    requires IsRun(service, Init, acts)
    ensures var s := After(service, Init, acts);
            && |s.retry| == 3 && |s.unacked| <= 10
            && (Enabled(s, Deliver) <==> s.main != [] && |s.unacked| < 10)
  {
    hide CreateRow, Messages;
    if acts == [] {
    } else {
      AtMostTenAtATime(service, acts[..|acts| - 1]);
      assert After(service, Init, acts) == Step(service, After(service, Init, acts[..|acts| - 1]), acts[|acts| - 1]);
    }
  }

  // However often the consumer crashes, also between sending a retry message and acknowledging the
  // original, no published message vanishes.
  lemma NoMessageVanishes(service: Service, acts: seq<Action>, o: Id)
    requires IsRun(service, Init, acts)
    ensures |After(service, Init, acts).retry| == 3
    ensures o in After(service, Init, acts).published ==> Copies(After(service, Init, acts), o) >= 1
  {
    CopiesAreCounted(service, acts, o);
  }

  // What a crash can do is double a message: its retry message is out, and the original comes back.
  lemma CrashCanDouble(service: Service, m: Message) returns (acts: seq<Action>)
    requires Relevant(service, m.content) && RetryCount(m.content) == 0
    ensures acts == [Publish(m), Deliver, Handle(0, NotWritten, 0), Crash] && IsRun(service, Init, acts)
    ensures m in After(service, Init, acts).main
    ensures |After(service, Init, acts).retry| == 3
    ensures exists copy :: copy in After(service, Init, acts).retry[0] && copy.origin == m.origin
  {
    acts := DeliveredOnce(service, m);
    var s2 := After(service, Init, acts);
    var s3 := FailedOnce(service, s2, m);
    RunExtends(service, Init, acts, Handle(0, NotWritten, 0), s3);
    acts := acts + [Handle(0, NotWritten, 0)];
    var s4 := CrashedAfterSending(service, s3, m);
    RunExtends(service, Init, acts, Crash, s4);
    acts := acts + [Crash];
  }

  lemma DeliveredOnce(service: Service, m: Message) returns (acts: seq<Action>)
    ensures acts == [Publish(m), Deliver] && IsRun(service, Init, acts)
    ensures After(service, Init, acts) == Init.(unacked := [Delivery(m, Fetched)], published := map[m.origin := m])
  {
    var s1 := Init.(main := [m], published := map[m.origin := m]);
    RunExtends(service, Init, [], Publish(m), s1);
    acts := [] + [Publish(m)];
    RunExtends(service, Init, acts, Deliver, s1.(main := [], unacked := [Delivery(m, Fetched)]));
    acts := acts + [Deliver];
  }

  lemma CrashedAfterSending(service: Service, s: State, m: Message) returns (t: State)
    requires s.main == [] && s.unacked == [Delivery(m, Handed)] && |s.retry| == 3
    ensures t == Step(service, s, Crash) && m in t.main && t.retry == s.retry
  {
    t := Step(service, s, Crash);
    assert Messages([]) == [] && Messages(s.unacked) == [m];
  }

  lemma FailedOnce(service: Service, s: State, m: Message) returns (t: State)
    requires Relevant(service, m.content) && RetryCount(m.content) == 0
    requires s.main == [] && s.unacked == [Delivery(m, Fetched)] && |s.retry| == 3
    ensures t == Step(service, s, Handle(0, NotWritten, 0))
    ensures t.main == [] && t.unacked == [Delivery(m, Handed)] && |t.retry| == 3
    ensures exists copy :: copy in t.retry[0] && copy.origin == m.origin
  {
    t := Step(service, s, Handle(0, NotWritten, 0));
    var (payload, metadata) := ParseMessage(m.content, 0).value;
    var copy := Message(m.origin, CreateRetryMessage(payload, metadata));
    assert t.retry[0] == s.retry[0] + [copy];
    assert copy in t.retry[0];
  }

  // ------------------------------------------------------------------------------------------
  // Termination
  // ------------------------------------------------------------------------------------------

  // The actions a copy at some place can still cause.
  function WorkOf(p: Place, m: Message): nat {
    var tries := Allowed(RetryCount(m.content));
    match p
    case Main => 4 * tries
    case Unacked(Fetched) => 4 * tries - 1
    case Unacked(_) => 1
    case Retrying(_) => 4 * tries + 1
    case _ => 0
  }

  function Weight(): (Place, Message) -> int {
    (p: Place, m: Message) => WorkOf(p, m)
  }

  function Work(s: State): int
    requires |s.retry| == 3
  {
    SumAll(s, Weight())
  }

  predicate Drained(s: State) {
    s.main == [] && s.unacked == [] && forall i :: 0 <= i < |s.retry| ==> s.retry[i] == []
  }

  lemma {:induction false} SumIsPositive(p: Place, ms: seq<Message>)
    ensures Sum(p, ms, Weight()) >= 0
    ensures ms != [] && (p == Main || p.Retrying?) ==> Sum(p, ms, Weight()) > 0
  {
    if ms == [] {
    } else {
      SumIsPositive(p, ms[..|ms| - 1]);
    }
  }

  lemma {:induction false} UnackedIsPositive(ds: seq<Delivery>)
    ensures SumUnacked(ds, Weight()) >= 0
    ensures ds != [] ==> SumUnacked(ds, Weight()) > 0
  {
    if ds == [] {
    } else {
      UnackedIsPositive(ds[..|ds| - 1]);
    }
  }

  lemma WorkIsLeftUntilDrained(s: State)
    requires |s.retry| == 3
    ensures Work(s) >= 0
    ensures !Drained(s) ==> Work(s) > 0
  {
    SumIsPositive(Main, s.main);
    UnackedIsPositive(s.unacked);
    SumIsPositive(Retrying(0), s.retry[0]);
    SumIsPositive(Retrying(1), s.retry[1]);
    SumIsPositive(Retrying(2), s.retry[2]);
    SumIsPositive(Dead, s.dlq);
    SumIsPositive(Settled, s.settled);
  }

  lemma HandleWorks(service: Service, s: State, k: nat, fault: Fault, now: int)
    requires Enabled(s, Handle(k, fault, now))
    ensures Work(Handled(service, s, k, fault, now)) < Work(s)
  {
    hide SumAll, Handled, CreateRow, Fails;
    var m := s.unacked[k].message;
    HandledSum(service, s, k, fault, now, Weight());
    var p, copy := PlaceAfter(service, s, m, fault), CopyAfter(service, s, m, fault, now);
    if p.Retrying? {
      assert RetryCount(copy.content) == RetryCount(m.content) + 1;
      assert WorkOf(p, copy) + 2 == WorkOf(Unacked(Fetched), m);
    }
  }

  lemma MoveWorks(service: Service, s: State, a: Action)
    requires Enabled(s, a) && (a.Deliver? || a.Ack? || a.Expire?)
    ensures Work(Step(service, s, a)) < Work(s)
  {
    match a
    case Deliver => DeliverSum(service, s, Weight());
    case Ack(k) => AckedSum(s, k, Weight());
    case Expire(i) => ExpireSum(service, s, i, Weight());
  }

  lemma StepWorks(service: Service, s: State, a: Action)
    requires Enabled(s, a) && !a.Publish? && a != Crash
    ensures Work(Step(service, s, a)) < Work(s)
  {
    if a.Handle? {
      HandleWorks(service, s, a.index, a.fault, a.now);
    } else {
      MoveWorks(service, s, a);
    }
  }

  // Once nothing more is published and nothing crashes, the messages keep the system busy for a bounded
  // number of actions only.
  lemma {:induction false} RunsAreBounded(service: Service, s: State, acts: seq<Action>)
    requires |s.retry| == 3 && IsRun(service, s, acts)
    requires forall i :: 0 <= i < |acts| ==> !acts[i].Publish? && acts[i] != Crash
    ensures |After(service, s, acts).retry| == 3
    ensures |acts| <= Work(s) - Work(After(service, s, acts)) <= Work(s)
  {
    if acts == [] {
      WorkIsLeftUntilDrained(s);
    } else {
      var front, a := acts[..|acts| - 1], acts[|acts| - 1];
      RunsAreBounded(service, s, front);
      StepWorks(service, After(service, s, front), a);
      assert After(service, s, acts) == Step(service, After(service, s, front), a);
      WorkIsLeftUntilDrained(After(service, s, acts));
    }
  }

  // And it can always go on until every message is dead-lettered or settled.
  lemma Progress(s: State) returns (a: Action)
    requires |s.retry| == 3 && !Drained(s)
    ensures Enabled(s, a) && !a.Publish? && a != Crash
  {
    if s.unacked != [] {
      a := if s.unacked[0].stage.Fetched? then Handle(0, NoFault, 0) else Ack(0);
    } else if s.main != [] {
      a := Deliver;
    } else {
      var i :| 0 <= i < |s.retry| && s.retry[i] != [];
      a := Expire(i);
    }
  }

  // ------------------------------------------------------------------------------------------
  // The table
  // ------------------------------------------------------------------------------------------

  ghost predicate Extends(before: Table, after: Table) {
    forall id :: id in before ==> id in after && after[id] == before[id]
  }

  // Each row was created from a published message for that account.
  predicate RowOf(row: Row, id: Id, m: Message) {
    m.content.Wrapped? && m.content.payload.identity == id &&
    row == Row(m.content.payload.name, m.content.payload.email, m.content.payload.phone)
  }

  ghost predicate RowsOk(s: State) {
    forall id :: id in s.table ==> exists o :: o in s.published && RowOf(s.table[id], id, s.published[o])
  }

  lemma StepExtends(service: Service, s: State, a: Action)
    requires Enabled(s, a)
    ensures Extends(s.table, Step(service, s, a).table)
  {
  }

  lemma HandledTable(service: Service, s: State, k: nat, fault: Fault, now: int, id: Id)
    requires k < |s.unacked| && |s.retry| == 3
    requires id in Handled(service, s, k, fault, now).table
    ensures Handled(service, s, k, fault, now).published == s.published
    ensures (id in s.table && Handled(service, s, k, fault, now).table[id] == s.table[id]) ||
            RowOf(Handled(service, s, k, fault, now).table[id], id, s.unacked[k].message)
  {
  }

  lemma StepKeepsRowsOk(service: Service, s: State, a: Action)
    requires Enabled(s, a) && CopiesOk(service, s) && RowsOk(s)
    ensures RowsOk(Step(service, s, a))
  {
    var t := Step(service, s, a);
    forall id | id in t.table ensures exists o :: o in t.published && RowOf(t.table[id], id, t.published[o]) {
      StepPublishes(service, s, a);
      if id in s.table && t.table[id] == s.table[id] {
        var o :| o in s.published && RowOf(s.table[id], id, s.published[o]);
        assert RowOf(t.table[id], id, t.published[o]);
      } else {
        var m := s.unacked[a.index].message;
        HandledTable(service, s, a.index, a.fault, a.now, id);
        assert At(s, Unacked(Fetched), m);
        assert RowOf(t.table[id], id, t.published[m.origin]);
      }
    }
  }

  lemma {:induction false} RunKeepsRowsOk(service: Service, acts: seq<Action>)
    requires IsRun(service, Init, acts)
    ensures RowsOk(After(service, Init, acts))
  {
    if acts == [] {
    } else {
      RunKeepsRowsOk(service, acts[..|acts| - 1]);
      RunKeepsCopiesOk(service, acts[..|acts| - 1]);
      StepKeepsRowsOk(service, After(service, Init, acts[..|acts| - 1]), acts[|acts| - 1]);
    }
  }

  // A row, once created, is never overwritten: whatever is redelivered, retried or doubled.
  lemma {:induction false} RowsAreWrittenOnce(service: Service, s: State, acts: seq<Action>)
    requires IsRun(service, s, acts)
    ensures Extends(s.table, After(service, s, acts).table)
  {
    if acts == [] {
    } else {
      RowsAreWrittenOnce(service, s, acts[..|acts| - 1]);
      StepExtends(service, After(service, s, acts[..|acts| - 1]), acts[|acts| - 1]);
    }
  }

  // Some row has the e-mail address, or the phone number, of the payload.
  ghost predicate ContactTaken(table: Table, payload: Payload) {
    || (exists id :: id in table && payload.email.Some? && table[id].email == payload.email)
    || (exists id :: id in table && payload.phone.Some? && table[id].phone == payload.phone)
  }

  // An attempt that meets no fault leaves an existing row alone and succeeds.  For a new account it fails
  // if and only if, for users, some row has its e-mail address or its phone number; otherwise it adds the row.
  lemma NewRowIsRefusedIff(service: Service, table: Table, payload: Payload)
    ensures var attempt := CreateRow(service, table, payload, NoFault);
            && (!attempt.ok <==> payload.identity !in table && service.Users? && ContactTaken(table, payload))
            && attempt.table ==
                 if attempt.ok && payload.identity !in table then
                   table[payload.identity := Row(payload.name, payload.email, payload.phone)]
                 else
                   table
  {
  }

  // A fault before the write leaves the table as it is; one after it, as without the fault; both fail.
  lemma FaultyAttempt(service: Service, table: Table, payload: Payload)
    ensures CreateRow(service, table, payload, NotWritten) == Attempt(table, false)
    ensures CreateRow(service, table, payload, NotReported)
            == Attempt(CreateRow(service, table, payload, NoFault).table, false)
  {
  }

  ghost predicate ContactsUnique(table: Table) {
    forall x, y :: x in table && y in table && x != y ==>
                     (table[x].email.Some? ==> table[x].email != table[y].email) &&
                     (table[x].phone.Some? ==> table[x].phone != table[y].phone)
  }

  // Only the attempt itself writes to the table.
  lemma HandlingWritesRow(service: Service, s: State, k: nat, fault: Fault, now: int)
    requires k < |s.unacked| && |s.retry| == 3
    ensures var content := s.unacked[k].message.content;
            Handled(service, s, k, fault, now).table
            == if Relevant(service, content) then CreateRow(service, s.table, content.payload, fault).table else s.table
  {
    hide CreateRow, CreateRetryMessage, Without;
  }

  lemma AckingKeepsTable(s: State, k: nat)
    requires k < |s.unacked|
    ensures Acked(s, k).table == s.table
  {
  }

  lemma AttemptKeepsContactsUnique(table: Table, payload: Payload, fault: Fault)
    requires ContactsUnique(table)
    ensures ContactsUnique(CreateRow(Users, table, payload, fault).table)
  {
  }

  // In every run of the user consumer no two rows share an e-mail address or a phone number.
  lemma {:induction false} ContactsAreUnique(acts: seq<Action>)
    requires IsRun(Users, Init, acts)
    ensures ContactsUnique(After(Users, Init, acts).table)
  {
    hide ContactsUnique, Step;
    if acts == [] {
      assert ContactsUnique(map[]) by { NoRows(); }
    } else {
      ContactsAreUnique(acts[..|acts| - 1]);
      StepKeepsContacts(After(Users, Init, acts[..|acts| - 1]), acts[|acts| - 1]);
    }
  }

  lemma NoRows()
    ensures ContactsUnique(map[])
  {
  }

  lemma StepKeepsContacts(s: State, a: Action)
    requires Enabled(s, a) && ContactsUnique(s.table)
    ensures ContactsUnique(Step(Users, s, a).table)
  {
    hide ContactsUnique, CreateRow, Clashes, Retried, Messages, Acked, Without;
    if a.Handle? {
      var content := s.unacked[a.index].message.content;
      HandlingWritesRow(Users, s, a.index, a.fault, a.now);
      if content.Wrapped? {
        AttemptKeepsContactsUnique(s.table, content.payload, a.fault);
      }
    } else if a.Ack? {
      AckingKeepsTable(s, a.index);
    }
  }

  // An attempt for the account gets as far as the table, whether or not it is reported to have succeeded.
  ghost predicate Reaches(service: Service, s: State, a: Action, id: Id) {
    && a.Handle? && a.fault != NotWritten && a.index < |s.unacked|
    && var content := s.unacked[a.index].message.content;
       content.Wrapped? && (service.Users? || content.payload.isProvider) && content.payload.identity == id &&
       (id in s.table || service.Providers? || !ContactTaken(s.table, content.payload))
  }

  lemma AttemptAddsRow(service: Service, table: Table, payload: Payload, fault: Fault, id: Id)
    ensures id in CreateRow(service, table, payload, fault).table <==>
            || id in table
            || (id == payload.identity && fault != NotWritten && (service.Providers? || !ContactTaken(table, payload)))
  {
    NewRowIsRefusedIff(service, table, payload);
    FaultyAttempt(service, table, payload);
  }

  ghost predicate ReachesAt(service: Service, acts: seq<Action>, i: int, id: Id) {
    0 <= i < |acts| && IsRun(service, Init, acts[..i]) && Reaches(service, After(service, Init, acts[..i]), acts[i], id)
  }

  lemma StepWritesRow(service: Service, s: State, a: Action, id: Id)
    requires Enabled(s, a)
    ensures id in Step(service, s, a).table <==> id in s.table || Reaches(service, s, a, id)
  {
    hide CreateRow, ContactTaken, Retried, CreateRetryMessage, DeadLettered, Staged, Messages, Acked, Without;
    if a.Handle? {
      var content := s.unacked[a.index].message.content;
      HandlingWritesRow(service, s, a.index, a.fault, a.now);
      if content.Wrapped? {
        AttemptAddsRow(service, s.table, content.payload, a.fault, id);
      }
    } else if a.Ack? {
      AckingKeepsTable(s, a.index);
    }
  }

  // In every run an account has its row if and only if some attempt for it got as far as the table.
  lemma {:induction false} RowExistsIff(service: Service, acts: seq<Action>, id: Id)
    requires IsRun(service, Init, acts)
    ensures id in After(service, Init, acts).table <==> exists i :: ReachesAt(service, acts, i, id)
  {
    hide Reaches, Step;
    if acts == [] {
    } else {
      var front, n := acts[..|acts| - 1], |acts| - 1;
      RowExistsIff(service, front, id);
      StepWritesRow(service, After(service, Init, front), acts[n], id);
      assert After(service, Init, acts) == Step(service, After(service, Init, front), acts[n]);
      assert forall i :: 0 <= i < n ==> front[..i] == acts[..i] && front[i] == acts[i];
      forall i | ReachesAt(service, front, i, id) ensures ReachesAt(service, acts, i, id) {
      }
      assert ReachesAt(service, acts, n, id) <==> Reaches(service, After(service, Init, front), acts[n], id);
      forall i | ReachesAt(service, acts, i, id) ensures i == n || ReachesAt(service, front, i, id) {
      }
    }
  }

  lemma EmptyTableIsReached(service: Service, s: State, a: Action, m: Message)
    requires s.table == map[] && s.unacked == [Delivery(m, Fetched)] && Relevant(service, m.content)
    requires a.Handle? && a.index == 0 && a.fault != NotWritten
    ensures Reaches(service, s, a, m.content.payload.identity)
  {
  }

  lemma LastAttemptFails(service: Service, s: State, m: Message)
    requires s.main == [] && s.unacked == [Delivery(m, Fetched)] && |s.retry| == 3
    requires Relevant(service, m.content) && RetryCount(m.content) == MAX_RETRIES
    ensures var t := Step(service, s, Handle(0, NotReported, 0));
            t.main == [] && t.unacked == [] && t.retry == s.retry && m in t.dlq
  {
    hide Upserted;
    assert s.unacked[..0] + s.unacked[1..] == [];
  }

  // So a dead letter can have its row: the last attempt wrote it and was not reported to have succeeded.
  lemma DeadLetterCanHaveRow(service: Service, m: Message) returns (acts: seq<Action>)
    requires Relevant(service, m.content) && RetryCount(m.content) == MAX_RETRIES
    ensures IsRun(service, Init, acts) && CrashFree(acts) && Drained(After(service, Init, acts))
    ensures m in After(service, Init, acts).dlq && m.content.payload.identity in After(service, Init, acts).table
  {
    hide Reaches, Step;
    acts := DeliveredOnce(service, m);
    var s := After(service, Init, acts);
    var a := Handle(0, NotReported, 0);
    assert Reaches(service, s, a, m.content.payload.identity) by { EmptyTableIsReached(service, s, a, m); }
    StepWritesRow(service, s, a, m.content.payload.identity);
    LastAttemptFails(service, s, m);
    RunExtends(service, Init, acts, a, Step(service, s, a));
    acts := acts + [a];
  }

  // Every account whose event was acknowledged for good has its row, which holds the data of a message
  // published for it.
  lemma SettledEventsHaveRows(service: Service, acts: seq<Action>, m: Message)
    requires IsRun(service, Init, acts)
    requires m in After(service, Init, acts).settled && Relevant(service, m.content)
    ensures var s := After(service, Init, acts);
            var id := m.content.payload.identity;
            && id in s.table
            && exists o :: o in s.published && RowOf(s.table[id], id, s.published[o])
  {
    RunKeepsCopiesOk(service, acts);
    RunKeepsRowsOk(service, acts);
    assert At(After(service, Init, acts), Settled, m);
  }

  lemma {:induction false} CopyIsSomewhere(p: Place, ms: seq<Message>, o: Id) returns (m: Message)
    requires Sum(p, ms, Copy(o)) > 0
    ensures m in ms && m.origin == o
  {
    if ms[|ms| - 1].origin == o {
      m := ms[|ms| - 1];
    } else {
      m := CopyIsSomewhere(p, ms[..|ms| - 1], o);
    }
  }

  // When the queues have run empty without a crash, every published event is settled, with its row, or
  // among the dead letters with all its attempts used up, and never both.
  lemma DrainedRunsAreDone(service: Service, acts: seq<Action>, o: Id) returns (m: Message)
    requires IsRun(service, Init, acts) && CrashFree(acts) && Drained(After(service, Init, acts))
    requires o in After(service, Init, acts).published
    ensures m.origin == o
    ensures var s := After(service, Init, acts);
            || (m in s.settled && (Relevant(service, m.content) ==> m.content.payload.identity in s.table) &&
                forall x :: x in s.dlq ==> x.origin != o)
            || (m in s.dlq && (m.content.Wrapped? ==>
                                 Occurs(s.failures, o) == Allowed(RetryCount(s.published[o].content))) &&
                forall x :: x in s.settled ==> x.origin != o)
  {
    var s := After(service, Init, acts);
    EveryMessageIsInOnePlace(service, acts, o);
    FailedVanishes(service, o, 0);
    SumWithCopies(Dead, s.dlq, Copy(o), o);
    SumWithCopies(Settled, s.settled, Copy(o), o);
    if Sum(Dead, s.dlq, Copy(o)) > 0 {
      m := CopyIsSomewhere(Dead, s.dlq, o);
      if m.content.Wrapped? {
        DeadLettersHaveFailed(service, acts, m);
      }
    } else {
      m := CopyIsSomewhere(Settled, s.settled, o);
      if Relevant(service, m.content) {
        SettledEventsHaveRows(service, acts, m);
      }
    }
  }
}
