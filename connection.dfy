/**
 * The connection pump: one task per accepted connection, which the scheduler
 * calls repeatedly. Each call runs at most one request/response exchange and
 * answers whether to go on. The connection's open flag is the only state the
 * pump reads; cleanup and termination shut the connection down.
 */
module Connection {

  /** How one exchange on the connection ended. */
  datatype Exchange =
    | Served            // the request was read, dispatched and answered
    | ConnectionClosed  // the peer closed the connection
    | IOError           // any other I/O failure, a read timeout or a forced shutdown included
    | HttpError         // an unrecoverable protocol violation

  /** Whether shutting the connection down threw an I/O failure. Either way the connection ends closed. */
  datatype Shutdown = ShutDown | ShutdownFailed

  /** The calls the scheduler makes on a pump. */
  datatype Call = ExecuteCall(exchange: Exchange) | CleanupCall(cleanupShutdown: Shutdown) | TerminateCall(terminateShutdown: Shutdown)

  datatype TimeUnit = Nanoseconds | Microseconds | Milliseconds | Seconds | Minutes | Hours | Days

  /** The answer of one execute: go on only after an exchange on an open connection is served. */
  function Verdict(open: bool, x: Exchange): (proceed: bool)
  {
    if !open then false
    else match x
      case Served => true
      case ConnectionClosed => false
      case IOError => false
      case HttpError => false
  }

  /** Whether the connection is open after a call. */
  function OpenAfter(open: bool, call: Call): (stillOpen: bool)
  {
    match call
    case ExecuteCall(_) => open
    case CleanupCall(_) => false
    case TerminateCall(_) => false
  }

  /** Whether the connection is open after a sequence of calls. */
  function FinalOpen(open: bool, calls: seq<Call>): (stillOpen: bool)
    decreases |calls|
  {
    if |calls| == 0 then open else FinalOpen(OpenAfter(open, calls[0]), calls[1..])
  }

  /** The answers of the execute calls among `calls`, in order. */
  function Verdicts(open: bool, calls: seq<Call>): (answers: seq<bool>)
    decreases |calls|
  {
    if |calls| == 0 then []
    else
      var rest := Verdicts(OpenAfter(open, calls[0]), calls[1..]);
      if calls[0].ExecuteCall? then [Verdict(open, calls[0].exchange)] + rest else rest
  }

  /** How many exchanges were handed to the HTTP service: one per execute on an open connection. */
  function Dispatches(open: bool, calls: seq<Call>): (n: nat)
    decreases |calls|
  {
    if |calls| == 0 then 0
    else
      var rest := Dispatches(OpenAfter(open, calls[0]), calls[1..]);
      if calls[0].ExecuteCall? && open then 1 + rest else rest
  }

  /** How many times the connection was shut down: on a cleanup of an open connection and on every termination. */
  function Shutdowns(open: bool, calls: seq<Call>): (n: nat)
    decreases |calls|
  {
    if |calls| == 0 then 0
    else
      var rest := Shutdowns(OpenAfter(open, calls[0]), calls[1..]);
      match calls[0]
      case ExecuteCall(_) => rest
      case CleanupCall(_) => if open then 1 + rest else rest
      case TerminateCall(_) => 1 + rest
  }

  /** How many termination signals there are among `calls`. */
  function Terminations(calls: seq<Call>): (n: nat)
    decreases |calls|
  {
    if |calls| == 0 then 0
    else (if calls[0].TerminateCall? then 1 else 0) + Terminations(calls[1..])
  }

  /** An execute goes on exactly when the connection is open and the exchange is served. */
  lemma ExecuteContinuesOnlyWhenServed(open: bool, x: Exchange)
    ensures Verdict(open, x) <==> open && x == Served
  {
  }

  /** Running two sequences of calls one after the other. */
  lemma {:induction false} RunAppend(open: bool, a: seq<Call>, b: seq<Call>)
    ensures FinalOpen(open, a + b) == FinalOpen(FinalOpen(open, a), b)
    ensures Verdicts(open, a + b) == Verdicts(open, a) + Verdicts(FinalOpen(open, a), b)
    ensures Dispatches(open, a + b) == Dispatches(open, a) + Dispatches(FinalOpen(open, a), b)
    ensures Shutdowns(open, a + b) == Shutdowns(open, a) + Shutdowns(FinalOpen(open, a), b)
    ensures Terminations(a + b) == Terminations(a) + Terminations(b)
    decreases |a|
  {
    if |a| > 0 {
      assert (a + b)[0] == a[0];
      assert (a + b)[1..] == a[1..] + b;
      RunAppend(OpenAfter(open, a[0]), a[1..], b);
    } else {
      assert a + b == b;
    }
  }

  /**
   * Nothing reopens a closed connection: every later execute stops and
   * dispatches nothing, and no cleanup shuts it down again; only termination
   * signals still do.
   */
  lemma {:induction false} ClosedStaysStopped(calls: seq<Call>)
    ensures !FinalOpen(false, calls)
    ensures forall i :: 0 <= i < |Verdicts(false, calls)| ==> !Verdicts(false, calls)[i]
    ensures Dispatches(false, calls) == 0
    ensures Shutdowns(false, calls) == Terminations(calls)
    decreases |calls|
  {
    if |calls| > 0 {
      ClosedStaysStopped(calls[1..]);
    }
  }

  /**
   * After a termination signal, whatever the scheduler calls next, every
   * execute answers stop and no exchange is dispatched.
   */
  lemma StopAfterTerminate(open: bool, before: seq<Call>, r: Shutdown, after: seq<Call>)
    ensures var calls := before + [TerminateCall(r)] + after;
      var n := |Verdicts(open, before)|;
      && Verdicts(open, before) <= Verdicts(open, calls)
      && (forall i :: n <= i < |Verdicts(open, calls)| ==> !Verdicts(open, calls)[i])
      && Dispatches(open, calls) == Dispatches(open, before)
      && !FinalOpen(open, calls)
      && Shutdowns(open, calls) == Shutdowns(open, before) + 1 + Terminations(after)
  {
    RunAppend(open, before, [TerminateCall(r)]);
    RunAppend(open, before + [TerminateCall(r)], after);
    ClosedStaysStopped(after);
  }

  /**
   * The same after a cleanup, which shuts the connection down only if it was
   * still open.
   */
  lemma StopAfterCleanup(open: bool, before: seq<Call>, r: Shutdown, after: seq<Call>)
    ensures var calls := before + [CleanupCall(r)] + after;
      var n := |Verdicts(open, before)|;
      && Verdicts(open, before) <= Verdicts(open, calls)
      && (forall i :: n <= i < |Verdicts(open, calls)| ==> !Verdicts(open, calls)[i])
      && Dispatches(open, calls) == Dispatches(open, before)
      && !FinalOpen(open, calls)
      && Shutdowns(open, calls)
         == Shutdowns(open, before) + (if FinalOpen(open, before) then 1 else 0) + Terminations(after)
  {
    RunAppend(open, before, [CleanupCall(r)]);
    RunAppend(open, before + [CleanupCall(r)], after);
    ClosedStaysStopped(after);
  }

  /** Every execute that answers go-on dispatched an exchange: there are never more go-ons than dispatches. */
  lemma {:induction false} ContinuesAreDispatches(open: bool, calls: seq<Call>)
    ensures multiset(Verdicts(open, calls))[true] <= Dispatches(open, calls)
    decreases |calls|
  {
    if |calls| > 0 {
      var rest := Verdicts(OpenAfter(open, calls[0]), calls[1..]);
      ContinuesAreDispatches(OpenAfter(open, calls[0]), calls[1..]);
      if calls[0].ExecuteCall? {
        var x := Verdict(open, calls[0].exchange);
        assert multiset([x] + rest) == multiset([x]) + multiset(rest);
      }
    }
  }

  /** The per-connection context handed to every exchange on one connection. */
  class ExchangeContext {
    constructor ()
    {
    }
  }

  /** The pump of one accepted connection. */
  class ConnectionHandler {
    /** The connection's open flag. */
    var open: bool
    /** The context created with the pump and used for all its exchanges. */
    const context: ExchangeContext
    /** The contexts handed to the HTTP service, one per dispatched exchange. */
    var dispatched: seq<ExchangeContext>
    /** The outcomes of the shutdowns performed on the connection, in order. */
    var shutdowns: seq<Shutdown>
    ghost const openedAs: bool
    ghost var history: seq<Call>

    ghost predicate Valid()
      reads this
    {
      && open == FinalOpen(openedAs, history)
      && |dispatched| == Dispatches(openedAs, history)
      && |shutdowns| == Shutdowns(openedAs, history)
      && (forall i :: 0 <= i < |dispatched| ==> dispatched[i] == context)
    }

    constructor (connectionOpen: bool)
      ensures Valid() && fresh(context)
      ensures open == connectionOpen && openedAs == connectionOpen
      ensures dispatched == [] && shutdowns == [] && history == []
    {
      open := connectionOpen;
      openedAs := connectionOpen;
      context := new ExchangeContext();
      dispatched := [];
      shutdowns := [];
      history := [];
    }

    /** Runs one exchange if the connection is open; answers whether to be called again. */
    method Execute(exchange: Exchange) returns (proceed: bool)
      requires Valid()
      modifies this
      ensures Valid()
      ensures proceed == Verdict(old(open), exchange)
      ensures open == old(open)
      ensures dispatched == if old(open) then old(dispatched) + [context] else old(dispatched)
      ensures shutdowns == old(shutdowns)
      ensures history == old(history) + [ExecuteCall(exchange)]
    {
      RunAppend(openedAs, history, [ExecuteCall(exchange)]);
      history := history + [ExecuteCall(exchange)];
      if !open {
        return false;
      }
      dispatched := dispatched + [context];
      match exchange {
        case Served =>
          proceed := true;
        case ConnectionClosed =>
          proceed := false;
        case IOError =>
          proceed := false;
        case HttpError =>
          proceed := false;
      }
    }

    /** Shuts the connection down if it is still open; a failing shutdown is ignored. */
    method Cleanup(shutdown: Shutdown)
      requires Valid()
      modifies this
      ensures Valid()
      ensures !open
      ensures dispatched == old(dispatched)
      ensures shutdowns == if old(open) then old(shutdowns) + [shutdown] else old(shutdowns)
      ensures history == old(history) + [CleanupCall(shutdown)]
    {
      RunAppend(openedAs, history, [CleanupCall(shutdown)]);
      history := history + [CleanupCall(shutdown)];
      if open {
        shutdowns := shutdowns + [shutdown];
        open := false;
      }
    }

    /** Shuts the connection down unconditionally; a failing shutdown is thrown to the caller. */
    method SignalTerminate(shutdown: Shutdown) returns (raised: bool)
      requires Valid()
      modifies this
      ensures Valid()
      ensures !open
      ensures raised == (shutdown == ShutdownFailed)
      ensures dispatched == old(dispatched)
      ensures shutdowns == old(shutdowns) + [shutdown]
      ensures history == old(history) + [TerminateCall(shutdown)]
    {
      RunAppend(openedAs, history, [TerminateCall(shutdown)]);
      history := history + [TerminateCall(shutdown)];
      shutdowns := shutdowns + [shutdown];
      open := false;
      raised := shutdown == ShutdownFailed;
    }

    /** The pump sets no cycle count for the scheduler. */
    function CycleCount(): (n: int)
      ensures n == 0
    {
      0
    }

    /** Nor a cycle time limit, in any unit. */
    function CycleLimit(unit: TimeUnit): (n: int)
      ensures n == 0
    {
      0
    }
  }
}
