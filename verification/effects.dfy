/** The observable effects of the launcher: the external actions it attempts,
    what the environment answers to each attempt, and how a call ends.

    Nothing here performs an effect. Spawning a process (`Runtime.exec`) and
    the two desktop-integration calls (`Desktop.open`, `Desktop.browse`) are
    represented by an `Oracle` that says, for every action, whether the
    attempt returns or which kind of exception it throws.
 */
module Effects {

  /** The exception kinds an effect can throw. The launcher only ever catches
      `IOException`; every other kind propagates to its caller. */
  datatype Exception = IOException | OtherException

  /** What the environment answers when an action is attempted. */
  datatype Response = Ok | Throws(exception: Exception)

  /** One attempted external action. */
  datatype Action =
    | Spawn(argv: seq<string>)     // Runtime.exec(argv)
    | DesktopOpen(file: string)    // Desktop.open(file)
    | DesktopBrowse(uri: string)   // Desktop.browse(new URI(uri))

  /** The environment: the response to every action the launcher may attempt. */
  type Oracle = Action -> Response

  /** How a launcher call ends: it returns normally, it lets the exception of
      the action `at` escape, or it throws `UnsupportedOperationException`
      itself. */
  datatype Outcome = Returned | Raised(at: Action, exception: Exception) | Unsupported

  /** A complete call: the actions attempted, in order, and how it ended. */
  datatype Run = Run(trace: seq<Action>, outcome: Outcome)

  /** Attempt one action whose failure nobody catches. */
  function Commit(a: Action, oracle: Oracle): Run
  {
    match oracle(a)
    case Ok => Run([a], Returned)
    case Throws(e) => Run([a], Raised(a, e))
  }

  /** The facts every run of the launcher satisfies, whatever the environment:
      each attempted action except the last threw an `IOException` (so at most
      one attempt succeeded, and then it was the last one); an escaping
      exception is the one the last attempt threw; and the launcher gives up
      with `Unsupported` only when it attempted nothing. */
  predicate Consistent(r: Run, oracle: Oracle)
  {
    && (forall i :: 0 <= i < |r.trace| - 1 ==> oracle(r.trace[i]) == Throws(IOException))
    && (r.outcome.Raised? ==>
          && |r.trace| > 0
          && r.outcome.at == r.trace[|r.trace| - 1]
          && oracle(r.outcome.at) == Throws(r.outcome.exception))
    && (r.outcome.Unsupported? ==> r.trace == [])
  }

  /** Every action of `trace` threw an `IOException`. */
  predicate AllThrowIo(trace: seq<Action>, oracle: Oracle)
  {
    forall i :: 0 <= i < |trace| ==> oracle(trace[i]) == Throws(IOException)
  }

  lemma AllThrowIoCons(a: Action, rest: seq<Action>, oracle: Oracle)
    ensures AllThrowIo([a] + rest, oracle) <==> oracle(a) == Throws(IOException) && AllThrowIo(rest, oracle)
  {
    var trace := [a] + rest;
    assert trace[0] == a;
    assert forall i :: 0 < i < |trace| ==> trace[i] == rest[i - 1];
    if AllThrowIo(trace, oracle) {
      forall j | 0 <= j < |rest|
        ensures oracle(rest[j]) == Throws(IOException)
      {
        assert rest[j] == trace[j + 1];
      }
    }
  }

  /** No action is attempted twice. */
  predicate Distinct(trace: seq<Action>)
  {
    forall i, j :: 0 <= i < j < |trace| ==> trace[i] != trace[j]
  }

  /** `p` is a prefix of `s`. */
  predicate IsPrefix<T(==)>(p: seq<T>, s: seq<T>)
  {
    |p| <= |s| && p == s[..|p|]
  }
}
