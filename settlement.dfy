/**
  Properties of the settle-once protocol that relate several operations:
  only the first settlement counts, what `Await` observes after `Resolve` and
  `Reject`, and how flattening a nested promise looks to a consumer.
 */
module Settlement {

  import opened Wrappers
  import opened Panics
  import opened Promises

  /** Once a promise has left PENDING, no `resolve`, `reject` or panic of its
      executor changes anything (main.go:70-72, 92-94). */
  lemma {:induction false} SettledRunIsIdle(s: Snapshot, script: seq<Action>, inner: Delivery)
    requires Inv(s) && !inner.0.PromiseVal? && s.state != Pending
    ensures RunSpec(s, script, inner) == s
    decreases |script|
  {
    if script != [] && !script[0].Panic? {
      SettledRunIsIdle(ActionStep(s, script[0], inner), script[1..], inner);
    }
  }

  /** Whatever an executor does, only its first step takes effect: every
      later call of `resolve` or `reject` meets the state guard. */
  lemma {:induction false} FirstSettlementWins(s: Snapshot, script: seq<Action>, inner: Delivery)
    requires Inv(s) && !inner.0.PromiseVal?
    ensures RunSpec(s, script, inner) == if script == [] then s else ActionStep(s, script[0], inner)
  {
    if script != [] && !script[0].Panic? {
      SettledRunIsIdle(ActionStep(s, script[0], inner), script[1..], inner);
    }
  }

  /** An executor run on a freshly built promise leaves at most one slot
      full; the promise is still pending exactly when the executor made no
      call before returning or panicked with nothing to recover; and the
      reject slot is the full one exactly when the first step rejected,
      panicked, or resolved with a promise that had failed with an error. */
  lemma SettleOnceFromFresh(script: seq<Action>, inner: Delivery)
    requires !inner.0.PromiseVal?
    ensures var r := RunSpec(Fresh(), script, inner);
      && (r.resolveSlot.None? || r.rejectSlot.None?)
      && (r.state == Pending <==> script == [] || script[0] == Panic(RecoveredNil))
      && (r.rejectSlot.Some? <==>
            script != [] &&
            match script[0]
            case CallReject(_) => true
            case Panic(rec) => !rec.RecoveredNil?
            case CallResolve(v) => v.PromiseVal? && inner.1 != None)
  {
    FirstSettlementWins(Fresh(), script, inner);
  }

  /** Flattening is invisible to `Await`: resolving with a settled promise
      hands on exactly what that promise delivers. The state follows the
      inner one, except that an inner rejection with a nil error becomes a
      fulfilment (main.go:98-103). */
  lemma FlattenIsTransparent(q: Promise, t: Snapshot)
    requires Inv(t) && Deliverable(t)
    ensures var r := ResolveStep(Fresh(), PromiseVal(q), Awaited(t));
      && Deliverable(r) && Awaited(r) == Awaited(t)
      && r.state == (if t.rejectSlot == Some(None) then Fulfilled else t.state)
  {
  }

  /** `Resolve(Resolve(v))` is `Resolve(v)`: never a promise-valued fulfilment. */
  lemma ResolvedInnerFlattens(q: Promise, v: Value, inner: Delivery)
    requires !v.PromiseVal? && !inner.0.PromiseVal?
    ensures ResolveStep(Fresh(), PromiseVal(q), Awaited(ResolveStep(Fresh(), v, inner)))
         == ResolveStep(Fresh(), v, inner)
  {
  }

  /** `Resolve(Reject(e))` for a non-nil `e` is `Reject(e)`: the outer promise
      ends REJECTED, because `resolve` returns before main.go:108. */
  lemma RejectedInnerRejects(q: Promise, e: Error)
    requires e != None
    ensures ResolveStep(Fresh(), PromiseVal(q), Awaited(RejectStep(Fresh(), e))) == RejectStep(Fresh(), e)
  {
  }

  /** `Resolve(Reject(nil))` is `Resolve(nil)`: the `err != nil` test lets a
      nil inner error fall through to a fulfilment with nil. */
  lemma NilRejectedInnerFulfils(q: Promise)
    ensures ResolveStep(Fresh(), PromiseVal(q), Awaited(RejectStep(Fresh(), None)))
         == ResolveStep(Fresh(), Nil, (Nil, None))
  {
  }

  /** A handler that panics settles the child as a rejection carrying the
      panic message, from which the recovered value can be read back. */
  lemma PanickingHandlerRejects(rec: Recovered, inner: Delivery)
    requires !rec.RecoveredNil? && !inner.0.PromiseVal?
    ensures var s := SettleByResolve(Fresh(), Panicked(rec), inner);
      && s.state == Rejected && Deliverable(s)
      && Awaited(s).1.Some? && ParsePanicMessage(Awaited(s).1.value) == Some(rec)
  {
    PanicMessageRoundTrip(rec);
  }

  /** `resetState` on its own does not keep the invariant: a promise that
      was fulfilled with a non-nil value and then awaited, or one whose
      slot is still full, is no longer valid once it is PENDING again. */
  lemma ResetOutsideThenBreaksInv(v: Value)
    requires v != Nil && !v.PromiseVal?
    ensures Inv(AwaitStep(Deliver(Fresh(), v)))
    ensures !Inv(ResetStep(AwaitStep(Deliver(Fresh(), v))))
    ensures !Inv(ResetStep(Deliver(Fresh(), Nil)))
  {
  }

  /** A client of the class: `Resolve(v).Await()` gives `(v, nil)` and
      leaves the promise FULFILLED (main.go:84-88, 159-167). */
  method ResolveThenAwait(v: Value) returns (r: Value, e: Error, st: State)
    requires !v.PromiseVal?
    ensures r == v && e == None && st == Fulfilled
  {
    var p := Resolve(v);
    r, e := p.Await();
    st := p.state;
  }

  /** `Reject(e).Await()` gives `(nil, e)` and leaves the promise REJECTED,
      also when `e` is nil, which reads back as `(nil, nil)`. */
  method RejectThenAwait(e0: Error) returns (r: Value, e: Error, st: State)
    ensures r == Nil && e == e0 && st == Rejected
  {
    var p := Reject(e0);
    r, e := p.Await();
    st := p.state;
  }

  /** `Resolve(n).Then(add one, pass the error on).Await()` gives
      `(n + 1, nil)`; only the fulfilment handler is called, with `n`. */
  method ThenMapsValue(n: int) returns (r: Value, e: Error, st: State, calls: seq<HandlerCall>)
    ensures r == Int(n + 1) && e == None && st == Fulfilled
    ensures calls == [FulfillHandler(Int(n))]
  {
    var p := Resolve(Int(n));
    var child;
    child, calls := p.Then((x: Value) => if x.Int? then Returned(Int(x.i + 1)) else Returned(x), x => Returned(x));
    r, e := child.Await();
    st := child.state;
  }

  /** A rejection handler that returns nil "heals" nothing in the state:
      after `Reject(e).Then(f, g)` with `g` returning nil, the child is
      REJECTED and `Await` gives `(nil, nil)` (main.go:121-122). */
  method NilHandlerErrorStaysRejected(e0: Error) returns (r: Value, e: Error, st: State, calls: seq<HandlerCall>)
    ensures r == Nil && e == None && st == Rejected
    ensures calls == [RejectionHandler(e0)]
  {
    var p := Reject(e0);
    var child;
    child, calls := p.Then(x => Returned(x), x => Returned(None));
    r, e := child.Await();
    st := child.state;
  }

  /** `Resolve(v).Catch(g)` passes the fulfilment on without calling `g`
      (main.go:133-135). */
  method CatchKeepsFulfilment(v: Value, g: Error -> Outcome<Error>) returns (r: Value, e: Error, st: State, calls: seq<HandlerCall>)
    requires !v.PromiseVal?
    ensures r == v && e == None && st == Fulfilled && calls == []
  {
    var p := Resolve(v);
    var child;
    child, calls := p.Catch(g);
    r, e := child.Await();
    st := child.state;
  }

  /** `Resolve(v).Finally(f)` and `Reject(e).Finally(f)` hand on exactly the
      parent's settlement and call `f` once, whatever `f` returns or
      however it panics (main.go:146-156). */
  method FinallyKeepsSettlement(v: Value, e0: Error, f: () -> Outcome<Value>)
    returns (r1: Value, e1: Error, st1: State, r2: Value, e2: Error, st2: State, calls: seq<HandlerCall>)
    requires !v.PromiseVal?
    ensures (r1, e1, st1) == (v, None, Fulfilled)
    ensures (r2, e2, st2) == (Nil, e0, Rejected)
    ensures calls == [FinallyHandler, FinallyHandler]
  {
    var p := Resolve(v);
    var child, c1 := p.Finally(f);
    r1, e1 := child.Await();
    st1 := child.state;
    var q := Reject(e0);
    var child2, c2 := q.Finally(f);
    r2, e2 := child2.Await();
    st2 := child2.state;
    calls := c1 + c2;
  }
}
