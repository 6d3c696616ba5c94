/**
  The driver of main.go:169-215 as a client of the model: the chain
  `New(...).Then(...).Then(...).Catch(...).Finally(...)` followed by `Await`,
  for any value of the `testNum` flag. Printing is left out; the handlers'
  calls are returned instead.
 */
module Demo {

  import opened Wrappers
  import opened Panics
  import opened Promises

  predicate IsDigit(c: char) {
    '0' <= c <= '9'
  }

  predicate AllDigits(s: string) {
    forall i :: 0 <= i < |s| ==> IsDigit(s[i])
  }

  /** The number a string of decimal digits denotes. */
  function DigitsValue(s: string): nat
    requires AllDigits(s)
    decreases |s|
  {
    if s == [] then 0 else DigitsValue(s[..|s| - 1]) * 10 + (s[|s| - 1] as int - '0' as int)
  }

  /** `%d` formatting of a natural number: a non-empty string of digits
      that denotes `n`. */
  function NatToString(n: nat): (r: string)
    ensures |r| >= 1 && AllDigits(r) && DigitsValue(r) == n
    decreases n
  {
    if n < 10 then ["0123456789"[n]]
    else
      var r := NatToString(n / 10) + ["0123456789"[n % 10]];
      assert r[..|r| - 1] == NatToString(n / 10);
      r
  }

  /** `%d` formatting of an integer: a minus sign exactly for a negative
      number, then the digits of its magnitude. */
  function IntToString(n: int): (r: string)
    ensures |r| >= 1 && (r[0] == '-' <==> n < 0)
    ensures n < 0 ==> AllDigits(r[1..]) && DigitsValue(r[1..]) == -n
    ensures n >= 0 ==> AllDigits(r) && DigitsValue(r) == n
  {
    if n < 0 then
      var r := "-" + NatToString(-n);
      assert r[1..] == NatToString(-n);
      r
    else NatToString(n)
  }

  /** Formatting never maps two integers to the same text. */
  lemma IntToStringInjective(m: int, n: int)
    requires IntToString(m) == IntToString(n)
    ensures m == n
  {
    var a, b := IntToString(m), IntToString(n);
    if m < 0 {
      assert DigitsValue(a[1..]) == DigitsValue(b[1..]);
    } else {
      assert DigitsValue(a) == DigitsValue(b);
    }
  }

  const NotEqualSuffix := " is not equal to 3"

  /** The rejection message of main.go:186: the number in decimal, then
      " is not equal to 3". */
  function NotThreeMessage(n: int): (r: string)
    ensures |r| > |NotEqualSuffix| && r[|r| - |NotEqualSuffix|..] == NotEqualSuffix
    ensures r[..|r| - |NotEqualSuffix|] == IntToString(n)
  {
    IntToString(n) + NotEqualSuffix
  }

  /** The message names the flag's value: two values give the same message
      only when they are equal. */
  lemma NotThreeMessageInjective(m: int, n: int)
    requires NotThreeMessage(m) == NotThreeMessage(n)
    ensures m == n
  {
    IntToStringInjective(m, n);
  }

  /** The dynamic type name that Go's failed type assertion reports. */
  function GoTypeName(v: Value): string {
    match v
    case Nil => "nil"
    case Int(_) => "int"
    case Str(_) => "string"
    case PromiseVal(_) => "*main.Promise"
  }

  const MaxInt64: int := 0x7FFF_FFFF_FFFF_FFFF
  const MinInt64: int := -0x8000_0000_0000_0000

  predicate IsInt64(i: int) {
    MinInt64 <= i <= MaxInt64
  }

  /** The first fulfilment handler (main.go:190-193): `data.(int) + 1` on a
      64-bit int, which wraps around at the top, and a type-assertion panic
      when `data` is not an int. */
  function AddOne(data: Value): (r: Outcome<Value>)
    ensures data.Int? && IsInt64(data.i) ==>
      && r.Returned? && r.value.Int? && IsInt64(r.value.i)
      && (r.value.i - (data.i + 1)) % 0x1_0000_0000_0000_0000 == 0
    ensures !data.Int? ==> r.Panicked? && r.recovered.RecoveredError?
  {
    if data.Int? then
      Returned(Int(if data.i == MaxInt64 then MinInt64 else data.i + 1))
    else
      Panicked(RecoveredError("interface conversion: interface {} is " + GoTypeName(data) + ", not int"))
  }

  /** The second fulfilment handler (main.go:197-200): never panics and
      always returns nil. */
  function ReturnNil(data: Value): (r: Outcome<Value>)
    ensures r == Returned(Nil)
  {
    Returned(Nil)
  }

  /** Both rejection handlers of the `Then` calls (main.go:194-196, 201-203):
      the error is passed on as it is, nil included. */
  function PassError(e: Error): (r: Outcome<Error>)
    ensures r == Returned(e)
  {
    Returned(e)
  }

  /** The `Catch` handler (main.go:204-208): calls `Error()` on the error,
      which panics on a nil error, and otherwise returns nil. */
  function HealError(e: Error): (r: Outcome<Error>)
    ensures r.Returned? <==> e.Some?
    ensures r.Returned? ==> r.value == None
    ensures r.Panicked? ==> r.recovered.RecoveredError?
  {
    if e.Some? then Returned(None)
    else Panicked(RecoveredError("runtime error: invalid memory address or nil pointer dereference"))
  }

  /** The `Finally` callback (main.go:209-212): never panics and returns nil. */
  function FinallyNil(): (r: Outcome<Value>)
    ensures r == Returned(Nil)
  {
    Returned(Nil)
  }

  /** The whole demo: with the flag at 3 the chain stays fulfilled and ends
      with nil; with any other value every step passes the error on until
      the `Catch` handler returns nil, which leaves the end of the chain
      REJECTED with a nil error. Either way `Await` returns `(nil, nil)`. */
  method Scenario(testNum: int) returns (r: Value, e: Error, finalState: State, calls: seq<HandlerCall>)
    ensures r == Nil && e == None
    ensures finalState == (if testNum == 3 then Fulfilled else Rejected)
    ensures testNum == 3 ==> calls == [FulfillHandler(Int(3)), FulfillHandler(Int(4)), FinallyHandler]
    ensures testNum != 3 ==>
      var m := Some(NotThreeMessage(testNum));
      calls == [RejectionHandler(m), RejectionHandler(m), RejectionHandler(m), FinallyHandler]
  {
    var p := new Promise.New();
    if testNum == 3 {
      p.Run([CallResolve(Int(testNum))]);
    } else {
      p.Run([CallReject(Some(NotThreeMessage(testNum)))]);
    }
    var p1, c1 := p.Then(AddOne, PassError);
    var p2, c2 := p1.Then(ReturnNil, PassError);
    var p3, c3 := p2.Catch(HealError);
    var p4, c4 := p3.Finally(FinallyNil);
    r, e := p4.Await();
    finalState := p4.state;
    calls := c1 + c2 + c3 + c4;
  }

  /** `Then` resets a fulfilled parent to PENDING (main.go:119), so an
      executor's late `reject` settles the same promise a second time and a
      later `Await` sees the rejection instead of the first value. */
  method SecondSettlementAfterThen(v: Value, late: Error) returns (forwarded: Value, r: Value, err: Error, st: State)
    requires !v.PromiseVal?
    ensures forwarded == v
    ensures r == Nil && err == late && st == Rejected
  {
    var p := Resolve(v);
    var child, _ := p.Then(x => Returned(x), x => Returned(x));
    var e0;
    forwarded, e0 := child.Await();
    p.RejectWith(late);
    r, err := p.Await();
    st := p.state;
  }
}
