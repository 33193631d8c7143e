/**
 The in-memory rate limiter: per key a window that opens with the first request, lasts windowMs and
 admits max requests.  Every request first deletes all windows that are over.
 */
module RateLimiter {
  import opened Common

  datatype Options = Options(windowMs: int, max: int)

  datatype WindowEntry = WindowEntry(count: int, resetAt: int)

  type Store = map<string, WindowEntry>

  datatype Request = Request(at: int, key: string)

  // ------------------------------------------------------------------------------------------
  // One request
  // ------------------------------------------------------------------------------------------

  // The windows still open at some time.
  function Live(store: Store, now: int): Store {
    map key | key in store && store[key].resetAt > now :: store[key]
  }

  function Lookup(store: Store, key: string): Option<WindowEntry> {
    if key in store then Some(store[key]) else None
  }

  // The window of a key after one more request for it.
  function Arrive(entry: Option<WindowEntry>, now: int, o: Options): WindowEntry {
    if entry.None? || entry.value.resetAt <= now then
      WindowEntry(1, now + o.windowMs)
    else
      WindowEntry(entry.value.count + 1, entry.value.resetAt)
  }

  // The request that opens a window is admitted whatever the maximum.
  predicate Admits(entry: WindowEntry, o: Options) {
    entry.count == 1 || entry.count <= o.max
  }

  function Limit(o: Options): int {
    if o.max >= 1 then o.max else 1
  }

  function Admit(store: Store, r: Request, o: Options): Store {
    store[r.key := Arrive(Lookup(store, r.key), r.at, o)]
  }

  function StoreAfter(store: Store, r: Request, o: Options): Store {
    Admit(Live(store, r.at), r, o)
  }

  predicate Answer(store: Store, r: Request, o: Options) {
    Admits(Arrive(Lookup(store, r.key), r.at, o), o)
  }

  class Limiter {
    const options: Options
    var store: Store

    constructor (options: Options)
      ensures this.options == options && store == map[] && Valid()
    {
      this.options := options;
      store := map[];
    }

    predicate Valid()
      reads this
    {
      forall key :: key in store ==> store[key].count >= 1
    }

    method Prune(now: int)
      modifies this`store
      ensures store == Live(old(store), now)
    {
      var keys := store.Keys;
      while keys != {}
        invariant forall key :: key in store ==> key in old(store) && store[key] == old(store)[key]
        invariant forall key :: key in old(store) && (key in keys || old(store)[key].resetAt > now) ==> key in store
        invariant forall key :: key in store && key !in keys ==> store[key].resetAt > now
        decreases |keys|
      {
        EmptyOrInhabited(keys);
        var key :| key in keys;
        if key in store && store[key].resetAt <= now {
          store := store - {key};
        }
        keys := keys - {key};
      }
    }

    method Count(now: int, key: string) returns (admitted: bool)
      requires Valid()
      modifies this`store
      ensures Valid() && store == Admit(old(store), Request(now, key), options)
      ensures admitted <==> Answer(old(store), Request(now, key), options)
    {
      if key !in store {
        store := store[key := WindowEntry(1, now + options.windowMs)];
        return true;
      }
      var entry := store[key];
      if entry.resetAt <= now {
        store := store[key := WindowEntry(1, now + options.windowMs)];
        return true;
      }
      entry := entry.(count := entry.count + 1);
      store := store[key := entry];
      return !(entry.count > options.max);
    }

    method Handle(now: int, key: string) returns (admitted: bool)
      requires Valid()
      modifies this`store
      ensures Valid() && store == StoreAfter(old(store), Request(now, key), options)
      ensures admitted <==> Answer(Live(old(store), now), Request(now, key), options)
    {
      Prune(now);
      admitted := Count(now, key);
    }
  }

  // ------------------------------------------------------------------------------------------
  // Runs
  // ------------------------------------------------------------------------------------------

  // The clock never goes back.
  ghost predicate InOrder(rs: seq<Request>) {
    forall i, j :: 0 <= i < j < |rs| ==> rs[i].at <= rs[j].at
  }

  function Answers(store: Store, rs: seq<Request>, o: Options): (answers: seq<bool>)
    ensures |answers| == |rs|
    decreases rs
  {
    if rs == [] then
      []
    else
      [Answer(Live(store, rs[0].at), rs[0], o)] + Answers(StoreAfter(store, rs[0], o), rs[1..], o)
  }

  // The same limiter without pruning: every key keeps its last window.
  function AnswersUnpruned(store: Store, rs: seq<Request>, o: Options): (answers: seq<bool>)
    ensures |answers| == |rs|
    decreases rs
  {
    if rs == [] then [] else [Answer(store, rs[0], o)] + AnswersUnpruned(Admit(store, rs[0], o), rs[1..], o)
  }

  function FinalStore(store: Store, rs: seq<Request>, o: Options): Store
    decreases rs
  {
    if rs == [] then store else FinalStore(StoreAfter(store, rs[0], o), rs[1..], o)
  }

  // Stores with the same open windows answer alike, whatever else they hold.
  lemma {:induction false} OpenWindowsDecide(x: Store, y: Store, now: int, rs: seq<Request>, o: Options)
    requires Live(x, now) == Live(y, now) && InOrder(rs) && (rs != [] ==> now <= rs[0].at)
    ensures Answers(x, rs, o) == AnswersUnpruned(y, rs, o)
    decreases rs
  {
    if rs == [] {
    } else {
      var r := rs[0];
      SameWindowsLater(x, y, now, r);
      var after, kept := StoreAfter(x, r, o), Admit(y, r, o);
      assert Lookup(Live(x, r.at), r.key) == Lookup(Live(y, r.at), r.key);
      assert Live(after, r.at) == Live(kept, r.at) by {
        forall key ensures Lookup(Live(after, r.at), key) == Lookup(Live(kept, r.at), key) {
          assert Lookup(Live(x, r.at), key) == Lookup(Live(y, r.at), key);
        }
        SameLookups(Live(after, r.at), Live(kept, r.at));
      }
      OpenWindowsDecide(after, kept, r.at, rs[1..], o);
    }
  }

  lemma SameLookups(x: Store, y: Store)
    requires forall key :: Lookup(x, key) == Lookup(y, key)
    ensures x == y
  {
    forall key ensures key in x <==> key in y {
      assert Lookup(x, key) == Lookup(y, key);
    }
    forall key | key in x ensures x[key] == y[key] {
      assert Lookup(x, key) == Lookup(y, key);
    }
  }

  lemma SameWindowsLater(x: Store, y: Store, now: int, r: Request)
    requires Live(x, now) == Live(y, now) && now <= r.at
    ensures Live(x, r.at) == Live(y, r.at)
  {
    assert Live(x, r.at) == Live(Live(x, now), r.at);
    assert Live(y, r.at) == Live(Live(y, now), r.at);
  }

  // ------------------------------------------------------------------------------------------
  // When pruning shows
  // ------------------------------------------------------------------------------------------

  function Times(rs: seq<Request>): seq<int> {
    seq(|rs|, i requires 0 <= i < |rs| => rs[i].at)
  }

  // Once the clock has passed the end of a window that some earlier request may have opened, it does not
  // fall back behind it.
  ghost predicate Settles(end: int, ts: seq<int>) {
    forall j, k :: 0 <= j < k < |ts| && ts[j] >= end ==> ts[k] >= end
  }

  ghost predicate ClockOk(ts: seq<int>, windowMs: int) {
    forall i, j, k :: 0 <= i < j < k < |ts| && ts[j] >= ts[i] + windowMs ==> ts[k] >= ts[i] + windowMs
  }

  // The pruned store lacks only windows that are over for good.
  ghost predicate Matches(x: Store, y: Store, ts: seq<int>) {
    && (forall key :: Lookup(x, key) == Lookup(y, key) ||
                      (key !in x && key in y && forall i :: 0 <= i < |ts| ==> ts[i] >= y[key].resetAt))
    && (forall key :: key in y ==> Settles(y[key].resetAt, ts))
  }

  lemma RestSettles(end: int, ts: seq<int>)
    requires ts != [] && Settles(end, ts)
    ensures Settles(end, ts[1..])
    ensures ts[0] >= end ==> forall i :: 0 <= i < |ts[1..]| ==> ts[1..][i] >= end
  {
    assert forall i :: 0 <= i < |ts[1..]| ==> ts[1..][i] == ts[i + 1];
  }

  lemma RestIsOk(ts: seq<int>, windowMs: int)
    requires ts != [] && ClockOk(ts, windowMs)
    ensures ClockOk(ts[1..], windowMs) && Settles(ts[0] + windowMs, ts[1..])
  {
    assert forall i :: 0 <= i < |ts[1..]| ==> ts[1..][i] == ts[i + 1];
  }

  lemma MatchingKey(x: Store, y: Store, r: Request, ts: seq<int>, key: string)
    requires Matches(x, y, ts) && ts != [] && ts[0] == r.at
    ensures Lookup(Live(x, r.at), key) == Lookup(y, key) ||
            (key !in Live(x, r.at) && key in y && y[key].resetAt <= r.at &&
             forall i :: 0 <= i < |ts[1..]| ==> ts[1..][i] >= y[key].resetAt)
  {
    assert forall i :: 0 <= i < |ts[1..]| ==> ts[1..][i] == ts[i + 1];
    if key in y && key in x {
      assert Lookup(x, key) == Lookup(y, key);
      RestSettles(y[key].resetAt, ts);
    } else {
      assert Lookup(x, key) == Lookup(y, key) || key in y;
    }
  }

  lemma MatchingStep(x: Store, y: Store, r: Request, ts: seq<int>, o: Options)
    requires Matches(x, y, ts) && ClockOk(ts, o.windowMs) && ts != [] && ts[0] == r.at
    ensures Answer(Live(x, r.at), r, o) == Answer(y, r, o)
    ensures Matches(StoreAfter(x, r, o), Admit(y, r, o), ts[1..])
  {
    MatchingKey(x, y, r, ts, r.key);
    var after, kept := StoreAfter(x, r, o), Admit(y, r, o);
    RestIsOk(ts, o.windowMs);
    forall key | key in kept ensures Settles(kept[key].resetAt, ts[1..]) {
      if key in y {
        RestSettles(y[key].resetAt, ts);
      }
    }
    forall key
      ensures Lookup(after, key) == Lookup(kept, key) ||
              (key !in after && key in kept && forall i :: 0 <= i < |ts[1..]| ==> ts[1..][i] >= kept[key].resetAt)
    {
      MatchingKey(x, y, r, ts, key);
    }
  }

  lemma {:induction false} MatchingStoresAnswerAlike(x: Store, y: Store, rs: seq<Request>, o: Options)
    requires Matches(x, y, Times(rs)) && ClockOk(Times(rs), o.windowMs)
    ensures Answers(x, rs, o) == AnswersUnpruned(y, rs, o)
    decreases rs
  {
    if rs == [] {
    } else {
      MatchingStep(x, y, rs[0], Times(rs), o);
      RestIsOk(Times(rs), o.windowMs);
      assert Times(rs[1..]) == Times(rs)[1..];
      MatchingStoresAnswerAlike(StoreAfter(x, rs[0], o), Admit(y, rs[0], o), rs[1..], o);
    }
  }

  // Pruning is invisible as long as the clock keeps to that: no request is answered differently because
  // finished windows were deleted.
  lemma PruningIsInvisible(rs: seq<Request>, o: Options)
    requires ClockOk(Times(rs), o.windowMs)
    ensures Answers(map[], rs, o) == AnswersUnpruned(map[], rs, o)
  {
    MatchingStoresAnswerAlike(map[], map[], rs, o);
  }

  // A clock that never goes back does.
  lemma InOrderIsOk(rs: seq<Request>, windowMs: int)
    requires InOrder(rs)
    ensures ClockOk(Times(rs), windowMs)
  {
  }

  function Kept(store: Store, rs: seq<Request>, o: Options): Store
    decreases rs
  {
    if rs == [] then store else Kept(Admit(store, rs[0], o), rs[1..], o)
  }

  lemma {:induction false} AnswerAt(store: Store, kept: Store, rs: seq<Request>, o: Options, k: nat)
    requires k < |rs|
    ensures Answers(store, rs, o)[k] == Answer(Live(FinalStore(store, rs[..k], o), rs[k].at), rs[k], o)
    ensures AnswersUnpruned(kept, rs, o)[k] == Answer(Kept(kept, rs[..k], o), rs[k], o)
    decreases rs
  {
    if k == 0 {
      assert rs[..0] == [];
    } else {
      assert rs[..k][1..] == rs[1..][..k - 1];
      AnswerAt(StoreAfter(store, rs[0], o), Admit(kept, rs[0], o), rs[1..], o, k - 1);
    }
  }

  // Requests for other keys leave an unpruned window alone, and delete a pruned one once it is over.
  lemma {:induction false} OthersPass(store: Store, kept: Store, rs: seq<Request>, o: Options, key: string)
    requires forall i :: 0 <= i < |rs| ==> rs[i].key != key
    ensures Lookup(Kept(kept, rs, o), key) == Lookup(kept, key)
    ensures key !in store ==> key !in FinalStore(store, rs, o)
    ensures key in store && (exists i :: 0 <= i < |rs| && rs[i].at >= store[key].resetAt) ==>
              key !in FinalStore(store, rs, o)
    decreases rs
  {
    if rs == [] {
    } else {
      var after := StoreAfter(store, rs[0], o);
      OthersPass(after, Admit(kept, rs[0], o), rs[1..], o, key);
      if key in store && (exists i :: 0 <= i < |rs| && rs[i].at >= store[key].resetAt) && rs[0].at < store[key].resetAt {
        var i :| 0 <= i < |rs| && rs[i].at >= store[key].resetAt;
        assert after[key] == store[key] && rs[1..][i - 1] == rs[i];
      }
    }
  }

  // The i-th and the k-th request are for one key, all others for another.
  function TwoKeys(ts: seq<int>, i: int, k: int): (rs: seq<Request>)
    ensures Times(rs) == ts
  {
    seq(|ts|, n requires 0 <= n < |ts| => Request(ts[n], if n == i || n == k then "a" else "b"))
  }

  lemma WindowIsGone(rs: seq<Request>, o: Options, key: string, i: nat, j: nat, k: nat)
    requires i < j < k <= |rs| && rs[i].key == key && rs[j].at >= rs[i].at + o.windowMs
    requires forall n :: 0 <= n < k && n != i ==> rs[n].key != key
    ensures key !in FinalStore(map[], rs[..k], o)
    ensures Lookup(Kept(map[], rs[..k], o), key) == Some(WindowEntry(1, rs[i].at + o.windowMs))
  {
    var a, b := rs[..i], rs[i + 1..k];
    assert rs[..k] == (a + [rs[i]]) + b;
    StoresOfThree(a, rs[i], b, o);
    var s1, u1 := FinalStore(map[], a, o), Kept(map[], a, o);
    OthersPass(map[], map[], a, o, key);
    assert b[j - i - 1] == rs[j];
    OthersPass(StoreAfter(s1, rs[i], o), Admit(u1, rs[i], o), b, o, key);
  }

  // If the clock passes the end of the window opened by the i-th request at the j-th and has fallen back
  // behind it at the k-th, there are requests at these times that pruning lets through.
  lemma FallingBackShows(ts: seq<int>, windowMs: int, i: nat, j: nat, k: nat)
    requires i < j < k < |ts| && ts[j] >= ts[i] + windowMs && ts[k] < ts[i] + windowMs
    ensures var rs, o := TwoKeys(ts, i, k), Options(windowMs, 1);
            Answers(map[], rs, o)[k] && !AnswersUnpruned(map[], rs, o)[k]
  {
    var rs, o := TwoKeys(ts, i, k), Options(windowMs, 1);
    assert "a" != "b";
    TwoKeysAre(ts, i, k);
    WindowIsGone(rs, o, "a", i, j, k);
    AnswerAt(map[], map[], rs, o, k);
  }

  lemma TwoKeysAre(ts: seq<int>, i: int, k: int)
    ensures forall n :: 0 <= n < |ts| ==> TwoKeys(ts, i, k)[n] == Request(ts[n], if n == i || n == k then "a" else "b")
  {
  }

  lemma StoresOfThree(a: seq<Request>, r: Request, b: seq<Request>, o: Options)
    ensures FinalStore(map[], (a + [r]) + b, o) == FinalStore(StoreAfter(FinalStore(map[], a, o), r, o), b, o)
    ensures Kept(map[], (a + [r]) + b, o) == Kept(Admit(Kept(map[], a, o), r, o), b, o)
  {
    StoresOfConcat(map[], map[], a + [r], b, o);
    StoresOfConcat(map[], map[], a, [r], o);
    assert [r][1..] == [];
  }

  lemma {:induction false} StoresOfConcat(store: Store, kept: Store, a: seq<Request>, b: seq<Request>, o: Options)
    ensures FinalStore(store, a + b, o) == FinalStore(FinalStore(store, a, o), b, o)
    ensures Kept(kept, a + b, o) == Kept(Kept(kept, a, o), b, o)
    decreases a
  {
    if a == [] {
      assert a + b == b;
    } else {
      assert (a + b)[1..] == a[1..] + b;
      StoresOfConcat(StoreAfter(store, a[0], o), Admit(kept, a[0], o), a[1..], b, o);
    }
  }

  ghost predicate Invisible(ts: seq<int>, windowMs: int) {
    forall rs: seq<Request>, o: Options ::
      (Times(rs) == ts && o.windowMs == windowMs) ==> Answers(map[], rs, o) == AnswersUnpruned(map[], rs, o)
  }

  // The times at which requests arrive decide: pruning is invisible for all keys and all maxima if and
  // only if the clock never falls back behind the end of a window it has passed.
  lemma PruningIsInvisibleIff(ts: seq<int>, windowMs: int)
    ensures Invisible(ts, windowMs) <==> ClockOk(ts, windowMs)
  {
    if ClockOk(ts, windowMs) {
      forall rs: seq<Request>, o: Options | Times(rs) == ts && o.windowMs == windowMs
        ensures Answers(map[], rs, o) == AnswersUnpruned(map[], rs, o)
      {
        PruningIsInvisible(rs, o);
      }
    } else {
      var i, j, k :| 0 <= i < j < k < |ts| && ts[j] >= ts[i] + windowMs && ts[k] < ts[i] + windowMs;
      FallingBackShows(ts, windowMs, i, j, k);
      assert Times(TwoKeys(ts, i, k)) == ts;
    }
  }

  // After every request the store holds open windows only, none ending more than windowMs later.
  lemma {:induction false} OnlyOpenWindowsAreKept(store: Store, rs: seq<Request>, o: Options)
    requires o.windowMs > 0 && InOrder(rs) && rs != []
    requires forall key :: key in store ==> store[key].resetAt <= rs[0].at + o.windowMs
    ensures var last := rs[|rs| - 1].at;
            forall key :: key in FinalStore(store, rs, o) ==>
                            last < FinalStore(store, rs, o)[key].resetAt <= last + o.windowMs
    decreases rs
  {
    if |rs| == 1 {
      assert FinalStore(StoreAfter(store, rs[0], o), rs[1..], o) == StoreAfter(store, rs[0], o);
    } else {
      OnlyOpenWindowsAreKept(StoreAfter(store, rs[0], o), rs[1..], o);
    }
  }

  // ------------------------------------------------------------------------------------------
  // How many requests are admitted
  // ------------------------------------------------------------------------------------------

  predicate Counts(r: Request, key: string, a: int, b: int) {
    r.key == key && a <= r.at < b
  }

  // Requests for a key made in [a, b), and those of them that were admitted.
  function Asked(rs: seq<Request>, key: string, a: int, b: int): nat
    decreases rs
  {
    if rs == [] then 0 else (if Counts(rs[0], key, a, b) then 1 else 0) + Asked(rs[1..], key, a, b)
  }

  function Admitted(rs: seq<Request>, answers: seq<bool>, key: string, a: int, b: int): nat
    requires |answers| == |rs|
    decreases rs
  {
    if rs == [] then
      0
    else
      (if Counts(rs[0], key, a, b) && answers[0] then 1 else 0) + Admitted(rs[1..], answers[1..], key, a, b)
  }

  // Admissions computed from the key's own window alone.
  function AdmittedAlone(entry: Option<WindowEntry>, rs: seq<Request>, o: Options, key: string, a: int, b: int): nat
    decreases rs
  {
    if rs == [] then
      0
    else if rs[0].key != key then
      AdmittedAlone(entry, rs[1..], o, key, a, b)
    else
      var next := Arrive(entry, rs[0].at, o);
      (if Counts(rs[0], key, a, b) && Admits(next, o) then 1 else 0) + AdmittedAlone(Some(next), rs[1..], o, key, a, b)
  }

  // Keys do not affect one another.
  lemma {:induction false} KeysAreIndependent(store: Store, rs: seq<Request>, o: Options, key: string, a: int, b: int)
    ensures Admitted(rs, AnswersUnpruned(store, rs, o), key, a, b) == AdmittedAlone(Lookup(store, key), rs, o, key, a, b)
    decreases rs
  {
    if rs == [] {
    } else {
      KeysAreIndependent(Admit(store, rs[0], o), rs[1..], o, key, a, b);
      assert AnswersUnpruned(store, rs, o)[1..] == AnswersUnpruned(Admit(store, rs[0], o), rs[1..], o);
    }
  }

  lemma {:induction false} NothingAfter(entry: Option<WindowEntry>, rs: seq<Request>, o: Options, key: string, a: int, b: int)
    requires forall i :: 0 <= i < |rs| ==> rs[i].at >= b
    ensures AdmittedAlone(entry, rs, o, key, a, b) == 0 == Asked(rs, key, a, b)
    decreases rs
  {
    if rs == [] {
    } else {
      var next := if rs[0].key == key then Some(Arrive(entry, rs[0].at, o)) else entry;
      NothingAfter(next, rs[1..], o, key, a, b);
    }
  }

  function AtLeastZero(n: int): nat {
    if n >= 0 then n else 0
  }

  function Smaller(m: nat, n: nat): nat {
    if m <= n then m else n
  }

  // While a window is open it admits what is left of its quota, and every request up to that.
  lemma {:induction false} OpenWindowAdmits(entry: WindowEntry, rs: seq<Request>, o: Options, key: string, a: int, b: int)
    requires InOrder(rs) && entry.count >= 1 && entry.resetAt >= b
    requires forall i :: 0 <= i < |rs| ==> rs[i].at >= a
    ensures AdmittedAlone(Some(entry), rs, o, key, a, b)
            == Smaller(AtLeastZero(Limit(o) - entry.count), Asked(rs, key, a, b))
    decreases rs
  {
    if rs == [] {
    } else {
      if rs[0].at >= b {
        NothingAfter(Some(entry), rs, o, key, a, b);
      } else {
        var next := if rs[0].key == key then Arrive(Some(entry), rs[0].at, o) else entry;
        OpenWindowAdmits(next, rs[1..], o, key, a, b);
      }
    }
  }

  predicate Closed(entry: Option<WindowEntry>, now: int) {
    entry.None? || entry.value.resetAt <= now
  }

  // A fresh window admits the smaller of its quota and the requests made while it is open.
  lemma {:induction false} FreshWindowAdmits(entry: Option<WindowEntry>, rs: seq<Request>, o: Options, key: string, a: int, b: int)
    requires InOrder(rs) && b <= a + o.windowMs && Closed(entry, a)
    requires forall i :: 0 <= i < |rs| ==> rs[i].at >= a
    ensures AdmittedAlone(entry, rs, o, key, a, b) == Smaller(Limit(o), Asked(rs, key, a, b))
    decreases rs
  {
    if rs == [] {
    } else {
      if rs[0].at >= b {
        NothingAfter(entry, rs, o, key, a, b);
      } else if rs[0].key == key {
        OpenWindowAdmits(Arrive(entry, rs[0].at, o), rs[1..], o, key, a, b);
      } else {
        FreshWindowAdmits(entry, rs[1..], o, key, a, b);
      }
    }
  }

  // Once a window is known to end within the span, the span sees its rest and one more window.
  lemma {:induction false} EndingWindowAdmits(entry: WindowEntry, rs: seq<Request>, o: Options, key: string, a: int)
    requires InOrder(rs) && o.windowMs > 0 && entry.count >= 1 && entry.resetAt >= a
    ensures AdmittedAlone(Some(entry), rs, o, key, a, a + o.windowMs) <= AtLeastZero(Limit(o) - entry.count) + Limit(o)
    decreases rs
  {
    if rs == [] {
    } else {
      if entry.resetAt <= rs[0].at {
        LaterWindowAdmits(entry, rs, o, key, a);
      } else if rs[0].key == key {
        EndingWindowAdmits(Arrive(Some(entry), rs[0].at, o), rs[1..], o, key, a);
      } else {
        EndingWindowAdmits(entry, rs[1..], o, key, a);
      }
    }
  }

  lemma {:induction false} LaterWindowAdmits(entry: WindowEntry, rs: seq<Request>, o: Options, key: string, a: int)
    requires InOrder(rs) && o.windowMs > 0 && rs != [] && a <= entry.resetAt <= rs[0].at
    ensures AdmittedAlone(Some(entry), rs, o, key, a, a + o.windowMs) <= Limit(o)
    decreases rs
  {
    if rs[0].key == key {
      OpenWindowAdmits(Arrive(Some(entry), rs[0].at, o), rs[1..], o, key, a, a + o.windowMs);
    } else if |rs| == 1 {
    } else {
      LaterWindowAdmits(entry, rs[1..], o, key, a);
    }
  }

  lemma {:induction false} SpanAdmits(entry: Option<WindowEntry>, rs: seq<Request>, o: Options, key: string, a: int)
    requires InOrder(rs) && o.windowMs > 0 && (entry.Some? ==> entry.value.count >= 1)
    ensures AdmittedAlone(entry, rs, o, key, a, a + o.windowMs) <= 2 * Limit(o) - 1
    decreases rs
  {
    if rs == [] {
    } else if entry.Some? && entry.value.resetAt >= a {
      EndingWindowAdmits(entry.value, rs, o, key, a);
    } else if rs[0].key != key {
      SpanAdmits(entry, rs[1..], o, key, a);
    } else if rs[0].at < a {
      SpanAdmits(Some(Arrive(entry, rs[0].at, o)), rs[1..], o, key, a);
    } else {
      OpenWindowAdmits(Arrive(entry, rs[0].at, o), rs[1..], o, key, a, a + o.windowMs);
    }
  }

  // In no span of the length of a window is a key admitted more than twice its maximum less one,
  // whatever the requests and wherever the span lies.
  lemma SlidingBound(rs: seq<Request>, o: Options, key: string, a: int)
    requires InOrder(rs) && o.windowMs > 0
    ensures Admitted(rs, Answers(map[], rs, o), key, a, a + o.windowMs) <= 2 * Limit(o) - 1
  {
    InOrderIsOk(rs, o.windowMs);
    PruningIsInvisible(rs, o);
    KeysAreIndependent(map[], rs, o, key, a, a + o.windowMs);
    SpanAdmits(None, rs, o, key, a);
  }

  // From a request that opens a window on, the window admits its maximum, and no request before that
  // is rejected.
  lemma WindowBound(store: Store, rs: seq<Request>, o: Options)
    requires InOrder(rs) && rs != [] && rs[0].key !in Live(store, rs[0].at)
    ensures var key, a := rs[0].key, rs[0].at;
            Admitted(rs, Answers(store, rs, o), key, a, a + o.windowMs)
            == Smaller(Limit(o), Asked(rs, key, a, a + o.windowMs))
  {
    var key, a := rs[0].key, rs[0].at;
    OpenWindowsDecide(store, store, a, rs, o);
    KeysAreIndependent(store, rs, o, key, a, a + o.windowMs);
    FreshWindowAdmits(Lookup(store, key), rs, o, key, a, a + o.windowMs);
  }

  // ------------------------------------------------------------------------------------------
  // The sliding bound is attained
  // ------------------------------------------------------------------------------------------

  function Burst(n: nat, r: Request): (rs: seq<Request>)
    ensures |rs| == n && forall i :: 0 <= i < n ==> rs[i] == r
  {
    if n == 0 then [] else [r] + Burst(n - 1, r)
  }

  lemma {:induction false} BurstIsAdmitted(entry: WindowEntry, n: nat, r: Request, rest: seq<Request>, o: Options, a: int,
                                           b: int)
    requires entry.count >= 1 && entry.resetAt > r.at && a <= r.at < b && entry.count + n <= Limit(o)
    ensures AdmittedAlone(Some(entry), Burst(n, r) + rest, o, r.key, a, b)
            == n + AdmittedAlone(Some(WindowEntry(entry.count + n, entry.resetAt)), rest, o, r.key, a, b)
    decreases n
  {
    var rs := Burst(n, r) + rest;
    if n == 0 {
      assert rs == rest;
    } else {
      assert rs[1..] == Burst(n - 1, r) + rest;
      BurstIsAdmitted(Arrive(Some(entry), r.at, o), n - 1, r, rest, o, a, b);
    }
  }

  // One request opens a window, the rest of its quota comes at its end and a full quota right after.
  function TwoBursts(o: Options, key: string): seq<Request> {
    [Request(0, key)] + (Burst(Limit(o) - 1, Request(o.windowMs - 1, key)) + Burst(Limit(o), Request(o.windowMs, key)))
  }

  lemma TwoBurstsAdmit(o: Options, key: string)
    requires o.windowMs > 1
    ensures AdmittedAlone(None, TwoBursts(o, key), o, key, o.windowMs - 1, 2 * o.windowMs - 1) == 2 * Limit(o) - 1
  {
    var w, m := o.windowMs, Limit(o);
    var a, b := w - 1, 2 * w - 1;
    var before, after := Request(w - 1, key), Request(w, key);
    assert TwoBursts(o, key)[1..] == Burst(m - 1, before) + Burst(m, after);
    BurstIsAdmitted(WindowEntry(1, w), m - 1, before, Burst(m, after), o, a, b);
    assert Burst(m, after)[1..] == Burst(m - 1, after) + [];
    BurstIsAdmitted(WindowEntry(1, 2 * w), m - 1, after, [], o, a, b);
  }

  lemma SlidingBoundIsAttained(o: Options, key: string)
    requires o.windowMs > 1
    ensures InOrder(TwoBursts(o, key))
    ensures Admitted(TwoBursts(o, key), Answers(map[], TwoBursts(o, key), o), key, o.windowMs - 1, 2 * o.windowMs - 1)
            == 2 * Limit(o) - 1
  {
    InOrderIsOk(TwoBursts(o, key), o.windowMs);
    PruningIsInvisible(TwoBursts(o, key), o);
    KeysAreIndependent(map[], TwoBursts(o, key), o, key, o.windowMs - 1, 2 * o.windowMs - 1);
    TwoBurstsAdmit(o, key);
  }

  // A window of one millisecond leaves no room for two: there the bound is one quota.
  lemma UnitWindowBound(rs: seq<Request>, o: Options, key: string, a: int)
    requires InOrder(rs) && o.windowMs == 1
    ensures Admitted(rs, Answers(map[], rs, o), key, a, a + 1) == Smaller(Limit(o), Asked(rs, key, a, a + 1))
  {
    InOrderIsOk(rs, 1);
    PruningIsInvisible(rs, o);
    KeysAreIndependent(map[], rs, o, key, a, a + 1);
    UnitSpanAdmits(None, rs, o, key, a);
  }

  lemma {:induction false} UnitSpanAdmits(entry: Option<WindowEntry>, rs: seq<Request>, o: Options, key: string, a: int)
    requires InOrder(rs) && o.windowMs == 1
    requires entry.Some? && rs != [] ==> entry.value.resetAt <= rs[0].at + 1
    requires entry.Some? ==> entry.value.resetAt <= a
    ensures AdmittedAlone(entry, rs, o, key, a, a + 1) == Smaller(Limit(o), Asked(rs, key, a, a + 1))
    decreases rs
  {
    if rs == [] {
    } else if rs[0].at >= a {
      FreshWindowAdmits(entry, rs, o, key, a, a + 1);
    } else {
      UnitSpanAdmits(if rs[0].key == key then Some(Arrive(entry, rs[0].at, o)) else entry, rs[1..], o, key, a);
    }
  }
}
