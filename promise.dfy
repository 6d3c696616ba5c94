/**
  The settle-once state machine of the `Promise` type (main.go:16-167), run one
  step at a time.

  Each one-slot buffered channel is an `Option` slot: a send needs the slot
  empty, a receive needs it full. The goroutine that `New` starts is replaced
  by an explicit call of the executor (`Run` for a user executor, `RunThen`,
  `RunCatch` and `RunFinally` for the executors that the combinators build).

  The pure functions on `Snapshot` say what one operation does to one promise;
  the methods of `Promise` are proved to change the fields exactly as those
  functions say.
 */
module Promises {

  import opened Wrappers
  import opened Panics

  /** PENDING = 0, FULFILLED = 1, REJECTED = 2 (main.go:10-14). */
  datatype State = Pending | Fulfilled | Rejected

  /** A Go `error`: None is the nil error, Some(m) an error whose Error() is m. */
  type Error = Option<string>

  /** The `interface{}` values that travel through promises; a `*Promise` is
      the one case that `resolve` treats specially. */
  datatype Value = Nil | Int(i: int) | Str(s: string) | PromiseVal(p: Promise)

  /** The pair that `Await` returns (main.go:159). */
  type Delivery = (Value, Error)

  /** A handler invocation, in the order the executors make them. */
  datatype HandlerCall = FulfillHandler(value: Value) | RejectionHandler(error: Error) | FinallyHandler

  /** One step of a user executor: a call of `resolve`, a call of `reject`,
      or a panic, which ends the executor. */
  datatype Action = CallResolve(v: Value) | CallReject(e: Error) | Panic(rec: Recovered)

  /** The fields of one promise (main.go:19-24), without the executor. */
  datatype Snapshot = Snapshot(
    state: State,
    resolveSlot: Option<Value>,
    rejectSlot: Option<Error>,
    result: Value,
    err: Error)

  /** A slot is full, so a receive on the promise can go ahead. */
  predicate Deliverable(s: Snapshot) {
    s.resolveSlot.Some? || s.rejectSlot.Some?
  }

  /** What every operation keeps true of a promise: a pending promise has
      empty slots, a full slot agrees with the state (so at most one slot is
      full), the resolve slot never holds a promise, and `result`/`err` stay
      nil until the one `Await` that drains the promise for good. */
  predicate Inv(s: Snapshot) {
    && (s.state == Pending ==> !Deliverable(s))
    && (s.resolveSlot.Some? ==> s.state == Fulfilled && !s.resolveSlot.value.PromiseVal?)
    && (s.rejectSlot.Some? ==> s.state == Rejected)
    && (s.state == Pending || Deliverable(s) ==> s.result == Nil && s.err == None)
    && (s.result == Nil || s.err == None)
    && !s.result.PromiseVal?
  }

  /** The fields as `New` sets them (main.go:29-36). */
  function Fresh(): (s: Snapshot)
    ensures Inv(s) && s.state == Pending && !Deliverable(s)
  {
    Snapshot(Pending, None, None, Nil, None)
  }

  /** The receive that `Await` performs (main.go:160-165): the full slot is
      emptied and its item lands in `result` or `err`. */
  function AwaitStep(s: Snapshot): (r: Snapshot)
    requires Inv(s) && Deliverable(s)
    ensures Inv(r) && r.state == s.state && !Deliverable(r)
  {
    if s.resolveSlot.Some? then s.(resolveSlot := None, result := s.resolveSlot.value)
    else s.(rejectSlot := None, err := s.rejectSlot.value)
  }

  /** What `Await` returns (main.go:166): exactly the item that was in the
      full slot, paired with nil. */
  function Awaited(s: Snapshot): (d: Delivery)
    requires Inv(s) && Deliverable(s)
    ensures s.resolveSlot.Some? ==> d == (s.resolveSlot.value, None)
    ensures s.rejectSlot.Some? ==> d == (Nil, s.rejectSlot.value)
    ensures !d.0.PromiseVal? && (d.0 == Nil || d.1 == None)
  {
    var r := AwaitStep(s);
    (r.result, r.err)
  }

  /** The receive that `Then`, `Catch` and `Finally` perform on the parent
      (main.go:118, 121, 134, 136, 149, 151): the slot is emptied, and neither
      `result` nor `err` is written. */
  function Drain(s: Snapshot): (r: Snapshot)
    requires Inv(s) && Deliverable(s)
    ensures Inv(r) && r.state == s.state && !Deliverable(r)
    ensures r.result == Nil && r.err == None
  {
    s.(resolveSlot := None, rejectSlot := None)
  }

  /** The slots are empty and neither `result` nor `err` was ever written:
      the state `Drain` leaves a promise in. */
  predicate Drained(s: Snapshot) {
    !Deliverable(s) && s.result == Nil && s.err == None
  }

  /** `resetState` (main.go:79-81): the state goes back to PENDING and
      nothing else changes. The invariant survives it only on a drained
      promise, which is where `Then` calls it (main.go:118-119). */
  function ResetStep(s: Snapshot): (r: Snapshot)
    ensures r.state == Pending
    ensures (r.resolveSlot, r.rejectSlot, r.result, r.err) == (s.resolveSlot, s.rejectSlot, s.result, s.err)
    ensures Inv(s) && Drained(s) ==> Inv(r) && Drained(r)
  {
    s.(state := Pending)
  }

  /** `reject` (main.go:69-76). */
  function RejectStep(s: Snapshot, e: Error): (r: Snapshot)
    requires Inv(s)
    ensures Inv(r)
    ensures s.state != Pending ==> r == s
    ensures s.state == Pending ==> r.state == Rejected && Deliverable(r) && Awaited(r) == (Nil, e)
  {
    if s.state != Pending then s else s.(state := Rejected, rejectSlot := Some(e))
  }

  /** The send of main.go:103 or 105 followed by main.go:108. */
  function Deliver(s: Snapshot, x: Value): (r: Snapshot)
    requires Inv(s) && s.state == Pending && !x.PromiseVal?
    ensures Inv(r) && r.state == Fulfilled && Deliverable(r) && Awaited(r) == (x, None)
  {
    s.(resolveSlot := Some(x), state := Fulfilled)
  }

  /** `resolve` (main.go:91-109). `inner` is what the inner promise's `Await`
      returns when `v` is a promise; otherwise it is ignored. An inner error
      hands over to `reject` and returns early, skipping main.go:108; an
      inner nil error falls through to a fulfilment with the inner value. */
  function ResolveStep(s: Snapshot, v: Value, inner: Delivery): (r: Snapshot)
    requires Inv(s) && !inner.0.PromiseVal?
    ensures Inv(r)
    ensures s.state != Pending ==> r == s
    ensures s.state == Pending ==> r.state != Pending && Deliverable(r)
    ensures s.state == Pending && !v.PromiseVal? ==> r.state == Fulfilled && Awaited(r) == (v, None)
    ensures s.state == Pending && v.PromiseVal? ==>
      && (r.state == Rejected <==> inner.1 != None)
      && Awaited(r) == (if inner.1 != None then (Nil, inner.1) else (inner.0, None))
  {
    if s.state != Pending then s
    else match v
      case PromiseVal(_) => if inner.1 != None then RejectStep(s, inner.1) else Deliver(s, inner.0)
      case _ => Deliver(s, v)
  }

  /** `handlePanic` (main.go:46-58): a recovered panic becomes a rejection,
      which the state guard of `reject` ignores once the promise is settled. */
  function PanicStep(s: Snapshot, rec: Recovered): (r: Snapshot)
    requires Inv(s)
    ensures Inv(r)
    ensures rec.RecoveredNil? || s.state != Pending ==> r == s
    ensures !rec.RecoveredNil? && s.state == Pending ==>
      r.state == Rejected && Deliverable(r) && Awaited(r) == (Nil, Some(PanicMessage(rec)))
  {
    if rec.RecoveredNil? then s else RejectStep(s, Some(PanicMessage(rec)))
  }

  /** One step of a user executor. */
  function ActionStep(s: Snapshot, a: Action, inner: Delivery): (r: Snapshot)
    requires Inv(s) && !inner.0.PromiseVal?
    ensures Inv(r)
    ensures s.state != Pending ==> r == s
    ensures s.state == Pending && !a.Panic? ==> r.state != Pending
  {
    match a
    case CallResolve(v) => ResolveStep(s, v, inner)
    case CallReject(e) => RejectStep(s, e)
    case Panic(rec) => PanicStep(s, rec)
  }

  /** A user executor run to its end (main.go:38-41): its steps in order,
      a panic ending it and passing to `handlePanic`; after a normal return
      the deferred `handlePanic` recovers nothing. */
  function RunSpec(s: Snapshot, script: seq<Action>, inner: Delivery): (r: Snapshot)
    requires Inv(s) && !inner.0.PromiseVal?
    ensures Inv(r)
    decreases |script|
  {
    if script == [] then s
    else match script[0]
      case Panic(rec) => PanicStep(s, rec)
      case _ => RunSpec(ActionStep(s, script[0], inner), script[1..], inner)
  }

  /** Running a panic-free prefix and then the rest is running the whole. */
  lemma {:induction false} RunSpecSplit(s: Snapshot, p: seq<Action>, q: seq<Action>, inner: Delivery)
    requires Inv(s) && !inner.0.PromiseVal?
    requires forall j :: 0 <= j < |p| ==> !p[j].Panic?
    ensures RunSpec(s, p + q, inner) == RunSpec(RunSpec(s, p, inner), q, inner)
    decreases |p|
  {
    if p == [] {
      assert p + q == q;
    } else {
      assert (p + q)[0] == p[0];
      assert (p + q)[1..] == p[1..] + q;
      RunSpecSplit(ActionStep(s, p[0], inner), p[1..], q, inner);
    }
  }

  /** Settling a promise from a handler's outcome: `resolve(h(x))`, or the
      deferred `handlePanic` when the handler panics. */
  function SettleByResolve(s: Snapshot, o: Outcome<Value>, inner: Delivery): (r: Snapshot)
    requires Inv(s) && !inner.0.PromiseVal?
    ensures Inv(r)
    ensures s.state != Pending ==> r == s
  {
    match o
    case Returned(w) => ResolveStep(s, w, inner)
    case Panicked(rec) => PanicStep(s, rec)
  }

  /** Settling a promise from a handler's outcome: `reject(h(e))`, or the
      deferred `handlePanic` when the handler panics. */
  function SettleByReject(s: Snapshot, o: Outcome<Error>): (r: Snapshot)
    requires Inv(s)
    ensures Inv(r)
    ensures s.state != Pending ==> r == s
    ensures s.state == Pending && o.Returned? ==> r.state == Rejected && Deliverable(r) && Awaited(r) == (Nil, o.value)
  {
    match o
    case Returned(e) => RejectStep(s, e)
    case Panicked(rec) => PanicStep(s, rec)
  }

  /** Passing on another promise's settlement unchanged: `resolve(result)` of
      a received value (never a promise) or `reject(err)` of a received error. */
  function Forward(s: Snapshot, from: Snapshot): (r: Snapshot)
    requires Inv(s) && Inv(from) && Deliverable(from)
    ensures Inv(r)
    ensures s.state != Pending ==> r == s
    ensures s.state == Pending ==> r.state == from.state && Deliverable(r) && Awaited(r) == Awaited(from)
  {
    if from.resolveSlot.Some? then ResolveStep(s, from.resolveSlot.value, (Nil, None))
    else RejectStep(s, from.rejectSlot.value)
  }

  /** The promise that `resolve` would wait on for `v`, if any. */
  function InnerOf(v: Value): set<Promise> {
    if v.PromiseVal? then {v.p} else {}
  }

  /** The promise a handler's outcome would make `resolve` wait on. */
  function OutcomeInner(o: Outcome<Value>): set<Promise> {
    if o.Returned? then InnerOf(o.value) else {}
  }

  /** What the inner promise's `Await` would return for `v`, when `v` is a
      settled, undrained promise. */
  function InnerResult(v: Value): (d: Delivery)
    reads InnerOf(v)
    ensures !d.0.PromiseVal?
    ensures v.PromiseVal? && Inv(v.p.Snap()) && Deliverable(v.p.Snap()) ==> d == Awaited(v.p.Snap())
  {
    if v.PromiseVal? && Inv(v.p.Snap()) && Deliverable(v.p.Snap()) then Awaited(v.p.Snap()) else (Nil, None)
  }

  function OutcomeResult(o: Outcome<Value>): (d: Delivery)
    reads OutcomeInner(o)
    ensures !d.0.PromiseVal?
  {
    if o.Returned? then InnerResult(o.value) else (Nil, None)
  }

  /** The value a user executor's first step resolves with, if it is a call of `resolve`. */
  function FirstResolution(script: seq<Action>): Value {
    if script != [] && script[0].CallResolve? then script[0].v else Nil
  }

  /** A handler's outcome can be passed to `resolve` without blocking: if it
      is a promise, that promise is not `parent` and has a full slot. */
  ghost predicate CanResolve(o: Outcome<Value>, parent: Promise)
    reads OutcomeInner(o)
  {
    o.Returned? && o.value.PromiseVal? ==>
      o.value.p != parent && o.value.p.Valid() && Deliverable(o.value.p.Snap())
  }

  class Promise {
    var state: State
    var resolveSlot: Option<Value>
    var rejectSlot: Option<Error>
    var result: Value
    var err: Error

    function Snap(): Snapshot
      reads this
    {
      Snapshot(state, resolveSlot, rejectSlot, result, err)
    }

    /** The invariant of the promise's fields. */
    ghost predicate Valid()
      reads this
    {
      Inv(Snap())
    }

    /** The state initialisation of `New` (main.go:29-36). */
    constructor New()
      ensures Valid() && Snap() == Fresh()
    {
      state := Pending;
      resolveSlot := None;
      rejectSlot := None;
      result := Nil;
      err := None;
    }

    /** A send on the resolve channel, which must find its one slot empty. */
    method SendResolve(x: Value)
      requires resolveSlot.None?
      modifies this
      ensures Snap() == old(Snap()).(resolveSlot := Some(x))
    {
      resolveSlot := Some(x);
    }

    /** A send on the reject channel, which must find its one slot empty. */
    method SendReject(e: Error)
      requires rejectSlot.None?
      modifies this
      ensures Snap() == old(Snap()).(rejectSlot := Some(e))
    {
      rejectSlot := Some(e);
    }

    /** A receive on the resolve channel, which must find its slot full. */
    method TakeResolved() returns (x: Value)
      requires resolveSlot.Some?
      modifies this
      ensures x == old(resolveSlot).value
      ensures Snap() == old(Snap()).(resolveSlot := None)
    {
      x := resolveSlot.value;
      resolveSlot := None;
    }

    /** A receive on the reject channel, which must find its slot full. */
    method TakeRejected() returns (e: Error)
      requires rejectSlot.Some?
      modifies this
      ensures e == old(rejectSlot).value
      ensures Snap() == old(Snap()).(rejectSlot := None)
    {
      e := rejectSlot.value;
      rejectSlot := None;
    }

    /** `reject` (main.go:69-76): the state guard makes a second settlement a no-op. */
    method RejectWith(e: Error)
      requires Valid()
      modifies this
      ensures Valid()
      ensures Snap() == RejectStep(old(Snap()), e)
    {
      if state != Pending {
        return;
      }
      state := Rejected;
      SendReject(e);
    }

    /** `resetState` (main.go:79-81). It keeps `Valid()` only where `Then`
        calls it, on a drained promise that was never awaited. */
    method ResetState()
      modifies this
      ensures Snap() == ResetStep(old(Snap()))
      ensures old(Valid()) && old(Drained(Snap())) ==> Valid()
    {
      state := Pending;
    }

    /** `resolve` (main.go:91-109): a promise value is flattened by awaiting
        it first, which drains it. */
    method ResolveWith(v: Value)
      requires Valid()
      requires state == Pending && v.PromiseVal? ==> v.p.Valid() && Deliverable(v.p.Snap())
      modifies this, if state == Pending then InnerOf(v) else {}
      ensures Valid()
      ensures Snap() == ResolveStep(old(Snap()), v, old(InnerResult(v)))
      ensures old(state) == Pending && v.PromiseVal? ==>
        v.p.Valid() && v.p.Snap() == AwaitStep(old(v.p.Snap()))
    {
      if state != Pending {
        return;
      }
      match v {
        case PromiseVal(inner) =>
          assert inner != this;
          var flattened, e := inner.Await();
          if e != None {
            RejectWith(e);
            return;
          }
          SendResolve(flattened);
        case _ =>
          SendResolve(v);
      }
      state := Fulfilled;
    }

    /** `Await` (main.go:159-167): drains the full slot, writes only the
        matching field and leaves the state alone. */
    method Await() returns (r: Value, e: Error)
      requires Valid() && Deliverable(Snap())
      modifies this
      ensures Valid()
      ensures Snap() == AwaitStep(old(Snap()))
      ensures (r, e) == Awaited(old(Snap()))
    {
      if resolveSlot.Some? {
        var x := TakeResolved();
        result := x;
      } else {
        var x := TakeRejected();
        err := x;
      }
      r, e := result, err;
    }

    /** `handlePanic` (main.go:46-58), given what `recover()` returned. */
    method HandlePanic(rec: Recovered)
      requires Valid()
      modifies this
      ensures Valid()
      ensures Snap() == PanicStep(old(Snap()), rec)
    {
      if !rec.RecoveredNil? {
        RejectWith(Some(PanicMessage(rec)));
      }
    }

    /** A user executor given to `New` (main.go:38-41), run as one explicit
        step: its calls of `resolve`/`reject` in order, ending at a panic. */
    method Run(script: seq<Action>)
      requires Valid()
      requires state == Pending && FirstResolution(script).PromiseVal? ==>
        FirstResolution(script).p.Valid() && Deliverable(FirstResolution(script).p.Snap())
      modifies this, if state == Pending then InnerOf(FirstResolution(script)) else {}
      ensures Valid()
      ensures Snap() == RunSpec(old(Snap()), script, old(InnerResult(FirstResolution(script))))
      ensures old(state) == Pending && FirstResolution(script).PromiseVal? ==>
        var q := FirstResolution(script).p;
        q.Valid() && q.Snap() == AwaitStep(old(q.Snap()))
    {
      ghost var s0 := Snap();
      ghost var first := FirstResolution(script);
      ghost var inner := InnerResult(first);
      ghost var awaits := state == Pending && first.PromiseVal?;
      assert awaits ==> first.p != this;
      var i := 0;
      while i < |script|
        invariant 0 <= i <= |script|
        invariant Valid()
        invariant forall j :: 0 <= j < i ==> !script[j].Panic?
        invariant Snap() == RunSpec(s0, script[..i], inner)
        invariant i > 0 ==> state != Pending
        invariant i == 0 ==> Snap() == s0
        invariant awaits && i == 0 ==>
          first.p.Valid() && Deliverable(first.p.Snap()) && first.p.Snap() == old(first.p.Snap())
         
        invariant awaits && i > 0 ==>
          first.p.Valid() && first.p.Snap() == AwaitStep(old(first.p.Snap()))
      {
        match script[i] {
          case CallResolve(v) =>
            ResolveWith(v);
          case CallReject(e) =>
            RejectWith(e);
          case Panic(rec) =>
            HandlePanic(rec);
            RunSpecSplit(s0, script[..i], script[i..], inner);
            assert script[..i] + script[i..] == script;
            assert script[i..][0] == script[i];
            return;
        }
        RunSpecSplit(s0, script[..i], [script[i]], inner);
        assert script[..i + 1] == script[..i] + [script[i]];
        i := i + 1;
      }
      assert script[..i] == script;
    }

    /** `Then` (main.go:114-126): a new promise whose executor drains this
        one and settles the new one through the matching handler. */
    method Then(onFulfill: Value -> Outcome<Value>, onRejection: Error -> Outcome<Error>)
      returns (child: Promise, calls: seq<HandlerCall>)
      requires Valid() && Deliverable(Snap())
      requires resolveSlot.Some? ==> CanResolve(onFulfill(resolveSlot.value), this)
      modifies this, if resolveSlot.Some? then OutcomeInner(onFulfill(resolveSlot.value)) else {}
      ensures fresh(child) && child.Valid() && Valid()
      ensures old(resolveSlot).Some? ==>
        var v := old(resolveSlot).value;
        var o := onFulfill(v);
        && calls == [FulfillHandler(v)]
        && Snap() == Fresh()
        && child.Snap() == SettleByResolve(Fresh(), o, old(OutcomeResult(o)))
        && (o.Returned? && o.value.PromiseVal? ==>
              o.value.p.Valid() && o.value.p.Snap() == AwaitStep(old(o.value.p.Snap())))
      ensures old(rejectSlot).Some? ==>
        var e := old(rejectSlot).value;
        && calls == [RejectionHandler(e)]
        && Snap() == Drain(old(Snap()))
        && child.Snap() == SettleByReject(Fresh(), onRejection(e))
    {
      // The outcome the handler will produce, so that its promise (if any)
      // is known to be untouched by allocating the child.
      ghost var o := if resolveSlot.Some? then onFulfill(resolveSlot.value) else Returned(Nil);
      assert CanResolve(o, this);
      child := new Promise.New();
      assert CanResolve(o, this);
      calls := child.RunThen(this, onFulfill, onRejection);
    }

    /** The executor that `Then` builds (main.go:115-125), run on the new
        promise `this` against its parent. On the fulfilled branch the parent
        is reset to PENDING before the handler runs (main.go:119). */
    method RunThen(parent: Promise, onFulfill: Value -> Outcome<Value>, onRejection: Error -> Outcome<Error>)
      returns (calls: seq<HandlerCall>)
      requires Valid() && parent.Valid() && parent != this && Deliverable(parent.Snap())
      requires parent.resolveSlot.Some? ==> CanResolve(onFulfill(parent.resolveSlot.value), parent)
      modifies this, parent
      modifies if parent.resolveSlot.Some? then OutcomeInner(onFulfill(parent.resolveSlot.value)) else {}
      ensures Valid() && parent.Valid()
      ensures old(parent.resolveSlot).Some? ==>
        var v := old(parent.resolveSlot).value;
        var o := onFulfill(v);
        && calls == [FulfillHandler(v)]
        && parent.Snap() == Fresh()
        && Snap() == SettleByResolve(old(Snap()), o, old(OutcomeResult(o)))
        && (old(state) == Pending && o.Returned? && o.value.PromiseVal? ==>
              o.value.p.Valid() && o.value.p.Snap() == AwaitStep(old(o.value.p.Snap())))
      ensures old(parent.rejectSlot).Some? ==>
        var e := old(parent.rejectSlot).value;
        && calls == [RejectionHandler(e)]
        && parent.Snap() == Drain(old(parent.Snap()))
        && Snap() == SettleByReject(old(Snap()), onRejection(e))
    {
      if parent.resolveSlot.Some? {
        ghost var o0 := onFulfill(parent.resolveSlot.value);
        assert CanResolve(o0, parent);
        var v := parent.TakeResolved();
        parent.ResetState();
        var o := onFulfill(v);
        assert o == o0 && CanResolve(o, parent);
        calls := [FulfillHandler(v)];
        match o {
          case Returned(w) =>
            ResolveWith(w);
          case Panicked(rec) =>
            HandlePanic(rec);
        }
      } else {
        var e := parent.TakeRejected();
        var o := onRejection(e);
        calls := [RejectionHandler(e)];
        match o {
          case Returned(e2) =>
            RejectWith(e2);
          case Panicked(rec) =>
            HandlePanic(rec);
        }
      }
    }

    /** `Catch` (main.go:131-141): a fulfilment passes through untouched, a
        rejection goes through the handler. */
    method Catch(onRejection: Error -> Outcome<Error>) returns (child: Promise, calls: seq<HandlerCall>)
      requires Valid() && Deliverable(Snap())
      modifies this
      ensures fresh(child) && child.Valid() && Valid()
      ensures Snap() == Drain(old(Snap()))
      ensures old(resolveSlot).Some? ==>
        calls == [] && child.Snap() == Forward(Fresh(), old(Snap()))
      ensures old(rejectSlot).Some? ==>
        var e := old(rejectSlot).value;
        calls == [RejectionHandler(e)] && child.Snap() == SettleByReject(Fresh(), onRejection(e))
    {
      child := new Promise.New();
      calls := child.RunCatch(this, onRejection);
    }

    /** The executor that `Catch` builds (main.go:132-140). */
    method RunCatch(parent: Promise, onRejection: Error -> Outcome<Error>) returns (calls: seq<HandlerCall>)
      requires Valid() && parent.Valid() && parent != this && Deliverable(parent.Snap())
      modifies this, parent
      ensures Valid() && parent.Valid()
      ensures parent.Snap() == Drain(old(parent.Snap()))
      ensures old(parent.resolveSlot).Some? ==>
        calls == [] && Snap() == Forward(old(Snap()), old(parent.Snap()))
      ensures old(parent.rejectSlot).Some? ==>
        var e := old(parent.rejectSlot).value;
        calls == [RejectionHandler(e)] && Snap() == SettleByReject(old(Snap()), onRejection(e))
    {
      if parent.resolveSlot.Some? {
        var v := parent.TakeResolved();
        calls := [];
        ResolveWith(v);
      } else {
        var e := parent.TakeRejected();
        var o := onRejection(e);
        calls := [RejectionHandler(e)];
        match o {
          case Returned(e2) =>
            RejectWith(e2);
          case Panicked(rec) =>
            HandlePanic(rec);
        }
      }
    }

    /** `Finally` (main.go:146-156): either outcome passes through untouched,
        then the callback runs once and its result is dropped. */
    method Finally(onFinally: () -> Outcome<Value>) returns (child: Promise, calls: seq<HandlerCall>)
      requires Valid() && Deliverable(Snap())
      modifies this
      ensures fresh(child) && child.Valid() && Valid()
      ensures Snap() == Drain(old(Snap()))
      ensures calls == [FinallyHandler]
      ensures child.Snap() == Forward(Fresh(), old(Snap()))
    {
      child := new Promise.New();
      calls := child.RunFinally(this, onFinally);
    }

    /** The executor that `Finally` builds (main.go:147-155). A panic in the
        callback reaches `handlePanic` after the promise has settled, so the
        state guard of `reject` discards it. */
    method RunFinally(parent: Promise, onFinally: () -> Outcome<Value>) returns (calls: seq<HandlerCall>)
      requires Valid() && parent.Valid() && parent != this && Deliverable(parent.Snap())
      modifies this, parent
      ensures Valid() && parent.Valid()
      ensures parent.Snap() == Drain(old(parent.Snap()))
      ensures calls == [FinallyHandler]
      ensures Snap() == Forward(old(Snap()), old(parent.Snap()))
    {
      if parent.rejectSlot.Some? {
        var e := parent.TakeRejected();
        RejectWith(e);
      } else {
        var v := parent.TakeResolved();
        ResolveWith(v);
      }
      var o := onFinally();
      calls := [FinallyHandler];
      if o.Panicked? {
        HandlePanic(o.recovered);
      }
    }
  }

  /** `Resolve` (main.go:84-88): `New` with an executor that calls `resolve(v)`. */
  method Resolve(v: Value) returns (p: Promise)
    requires v.PromiseVal? ==> v.p.Valid() && Deliverable(v.p.Snap())
    modifies InnerOf(v)
    ensures fresh(p) && p.Valid()
    ensures p.Snap() == ResolveStep(Fresh(), v, old(InnerResult(v)))
    ensures v.PromiseVal? ==> v.p.Valid() && v.p.Snap() == AwaitStep(old(v.p.Snap()))
  {
    p := new Promise.New();
    p.Run([CallResolve(v)]);
    assert [CallResolve(v)][1..] == [];
  }

  /** `Reject` (main.go:62-66): `New` with an executor that calls `reject(e)`. */
  method Reject(e: Error) returns (p: Promise)
    ensures fresh(p) && p.Valid()
    ensures p.Snap() == RejectStep(Fresh(), e)
  {
    p := new Promise.New();
    p.Run([CallReject(e)]);
    assert [CallReject(e)][1..] == [];
  }
}
