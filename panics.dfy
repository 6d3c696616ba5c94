/**
  The message choice of `handlePanic` (main.go:46-58): what `recover()` can hand
  back, what a user handler can do instead of returning, and the error text a
  recovered panic turns into.
 */
module Panics {

  import opened Wrappers

  /** What `recover()` returns once an executor has stopped: nil (nothing was
      recovered), a value of Go's `error` type (carrying its `Error()` text),
      or any other value (carrying its `fmt.Sprint` text). */
  datatype Recovered = RecoveredNil | RecoveredError(msg: string) | RecoveredOther(text: string)

  /** What a user callback does: it returns a value, or it panics. */
  datatype Outcome<T> = Returned(value: T) | Panicked(recovered: Recovered)

  /** The message of the `case nil` branch (main.go:51-52); that branch cannot run. */
  const NilPanicMessage := "panic recovery with nil error"
  const ErrorPanicPrefix := "panic recovery with error: "
  const UnknownPanicPrefix := "panic recovery with unknown error: "

  /** The type switch of main.go:50-57, applied only when something was
      recovered (main.go:49), so the `case nil` arm is dead. */
  function PanicMessage(rec: Recovered): (m: string)
    requires !rec.RecoveredNil?
    ensures rec.RecoveredError? ==> ErrorPanicPrefix <= m
    ensures rec.RecoveredOther? ==> UnknownPanicPrefix <= m
  {
    match rec
    case RecoveredNil => assert false; NilPanicMessage
    case RecoveredError(msg) => ErrorPanicPrefix + msg
    case RecoveredOther(text) => UnknownPanicPrefix + text
  }

  /** Reads back which kind of panic a rejection message came from. */
  function ParsePanicMessage(m: string): (r: Option<Recovered>)
    ensures r.Some? ==> !r.value.RecoveredNil?
  {
    if ErrorPanicPrefix <= m then Some(RecoveredError(m[|ErrorPanicPrefix|..]))
    else if UnknownPanicPrefix <= m then Some(RecoveredOther(m[|UnknownPanicPrefix|..]))
    else None
  }

  /** The two prefixes part at index 20 ('e' against 'u'), so a message never
      reads as the other kind of panic and the recovered text comes back intact. */
  lemma PanicMessageRoundTrip(rec: Recovered)
    requires !rec.RecoveredNil?
    ensures ParsePanicMessage(PanicMessage(rec)) == Some(rec)
  {
    var m := PanicMessage(rec);
    if rec.RecoveredOther? {
      assert m[20] == 'u' != ErrorPanicPrefix[20];
      assert !(ErrorPanicPrefix <= m);
      assert m[|UnknownPanicPrefix|..] == rec.text;
    } else {
      assert m[|ErrorPanicPrefix|..] == rec.msg;
    }
  }

  /** The other direction: every message that parses is the message of what it parses to. */
  lemma ParsedMessageIsPanicMessage(m: string)
    requires ParsePanicMessage(m).Some?
    ensures PanicMessage(ParsePanicMessage(m).value) == m
  {
    if ErrorPanicPrefix <= m {
      assert ErrorPanicPrefix + m[|ErrorPanicPrefix|..] == m;
    } else {
      assert UnknownPanicPrefix + m[|UnknownPanicPrefix|..] == m;
    }
  }

  /** The message of the dead `case nil` arm is never produced by a reachable one. */
  lemma NilPanicMessageUnreachable(rec: Recovered)
    requires !rec.RecoveredNil?
    ensures PanicMessage(rec) != NilPanicMessage
  {
    var m := PanicMessage(rec);
    assert m[20] != NilPanicMessage[20];
  }
}
