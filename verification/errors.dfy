/** The error taxonomy of the engine. A Go error value is one of three shapes here:
    a named error (`*CustomError`: a symbolic name plus a cause), a plain error with
    only a message, or a wrapping error made by `fmt.Errorf("...%w", inner)`, whose
    message is a fixed prefix followed by the inner message and which unwraps to the
    inner error. Only named errors carry a name that retry and catch rules can match. */
module Errors {
  import opened Wrappers
  import opened Seqs

  datatype Error =
    | Named(name: string, cause: Error)
    | Plain(msg: string)
    | Wrapped(prefix: string, inner: Error)

  /** `ErrAPIBadGateway` of the source. */
  const ErrAPIBadGateway: Error := Named("API_BAD_GATEWAY", Plain("api service is unavailable"))

  /** `ErrTimeout` of the source: what an attempt yields when its scope expires first. */
  const ErrTimeout: Error := Named("TIMEOUT", Plain("task timed out"))

  /** `err.Error()`: a named error prints as name, colon, cause. */
  function Message(e: Error): string
  {
    match e
    case Named(n, c) => n + ": " + Message(c)
    case Plain(m) => m
    case Wrapped(p, i) => p + Message(i)
  }

  /** `errors.Unwrap`: named and wrapping errors expose their cause, plain ones nothing. */
  function Unwrap(e: Error): Option<Error>
  {
    match e
    case Named(_, c) => Some(c)
    case Plain(_) => None
    case Wrapped(_, i) => Some(i)
  }

  /** The name `errors.As(err, &customErr)` finds: that of the first named error met
      when following the unwrap chain from `e` itself; None for a chain without one. */
  function NameOf(e: Error): Option<string>
  {
    match e
    case Named(n, _) => Some(n)
    case Plain(_) => None
    case Wrapped(_, i) => NameOf(i)
  }

  /** The unwrap chain `e, Unwrap(e), Unwrap(Unwrap(e)), ...` up to the first error
      that does not unwrap. */
  function Chain(e: Error): (c: seq<Error>)
    ensures |c| >= 1 && c[0] == e
    ensures Unwrap(c[|c| - 1]).None?
    ensures forall i :: 0 <= i < |c| - 1 ==> Unwrap(c[i]) == Some(c[i + 1])
  {
    match Unwrap(e)
    case None => [e]
    case Some(next) => [e] + Chain(next)
  }

  /** The name errors.As reports is that of the first named link of the chain, and an
      error whose chain has no named link has no name. */
  lemma {:induction false} NameOfIsFirstNamedLink(e: Error)
    ensures NameOf(e) ==
      match FirstIndex(Chain(e), (x: Error) => x.Named?)
      case None => None
      case Some(i) => Some(Chain(e)[i].name)
  {
    var p := (x: Error) => x.Named?;
    match e
    case Named(_, c) =>
      assert FirstIndex(Chain(e), p) == Some(0);
    case Plain(_) =>
      assert Chain(e) == [e];
    case Wrapped(_, i) =>
      NameOfIsFirstNamedLink(i);
      assert Chain(e) == [e] + Chain(i);
      FirstIndexCons(e, Chain(i), p);
  }

  /** Wrapping with `%w` keeps an error's matchable name and prefixes its message. */
  lemma WrappingKeepsName(prefix: string, e: Error)
    ensures NameOf(Wrapped(prefix, e)) == NameOf(e)
    ensures Message(Wrapped(prefix, e)) == prefix + Message(e)
  {
  }

  /** Every link of the unwrap chain is still readable at the end of the error's
      message: the message of a link is a suffix of the message of the whole error. */
  lemma {:induction false} ChainMessagesAreSuffixes(e: Error, i: nat)
    requires i < |Chain(e)|
    ensures exists pre :: Message(e) == pre + Message(Chain(e)[i])
  {
    if i == 0 {
      assert Message(e) == [] + Message(Chain(e)[0]);
    } else {
      var next := Unwrap(e).value;
      assert Chain(e) == [e] + Chain(next);
      assert Chain(e)[i] == Chain(next)[i - 1];
      ChainMessagesAreSuffixes(next, i - 1);
      var pre :| Message(next) == pre + Message(Chain(next)[i - 1]);
      match e
      case Named(n, _) =>
        assert Message(e) == (n + ": " + pre) + Message(Chain(e)[i]);
      case Wrapped(p, _) =>
        assert Message(e) == (p + pre) + Message(Chain(e)[i]);
    }
  }

  /** The two sentinel errors carry the names the source gives them. */
  lemma SentinelNames()
    ensures NameOf(ErrAPIBadGateway) == Some("API_BAD_GATEWAY")
    ensures NameOf(ErrTimeout) == Some("TIMEOUT")
    ensures Message(ErrTimeout) == "TIMEOUT: task timed out"
  {
    assert Message(ErrTimeout) == "TIMEOUT" + ": " + "task timed out";
  }
}
