/** The core's lifecycle and its two periodic contact loops. Each loop is
    an asio deadline timer: open_server starts one wait on each; a
    completion that is not operation_aborted runs the loop's work
    (contact_all or dynamic_contact_all) and re-arms the timer for now
    plus the loop's period; close_server cancels both timers and then
    closes the secure channel server. Time is in whole seconds, and the
    work each loop starts is recorded in a trace of effects. */
module Lifecycle {
  import opened Types

  const ContactPeriod: int := 30
  const DynamicContactPeriod: int := 45

  /** The wait outstanding on a timer: none, one that will complete
      normally, or one that a cancel has turned into an aborted one. */
  datatype Wait = Idle | Pending | Aborting

  datatype Timer = Timer(deadline: int, wait: Wait)

  /** The fscp server: not yet created, open, created but failed to open
      (its listen endpoint could not be bound), or closed. */
  datatype Server = NotCreated | Opened | OpenFailed | Closed

  /** What the core starts, in order. */
  datatype Effect = ContactAll | DynamicContactAll | CancelDynamicTimer | CancelContactTimer | CloseServer

  /** A normal completion of the timer is already due at `now`: its wait
      is outstanding and its deadline has passed. */
  predicate Expired(t: Timer, now: int)
  {
    t.wait.Pending? && t.deadline <= now
  }

  /** deadline_timer::cancel at time `now`. A wait whose deadline is still
      ahead will complete with operation_aborted. A wait whose deadline has
      passed can already have its normal completion queued, which cancel
      cannot withdraw; the model takes every such wait to be in that case.
      The deadline is kept. */
  function Cancel(t: Timer, now: int): (r: Timer)
    ensures r.deadline == t.deadline
    ensures t.wait.Pending? && t.deadline > now ==> r.wait.Aborting?
    ensures Expired(t, now) ==> r.wait.Pending?
    ensures !t.wait.Pending? ==> r == t
  {
    if t.wait.Pending? && t.deadline > now then t.(wait := Aborting) else t
  }

  /** The body of a periodic handler on completion `ec` at time `now`:
      the timer afterwards, and whether the loop's work runs. */
  function OnTimer(t: Timer, ec: ErrorCode, now: int, period: int): (r: (Timer, bool))
    ensures r.1 <==> ec != OperationAborted
    ensures !r.1 ==> r.0 == Timer(t.deadline, Idle)
    ensures r.1 ==> r.0 == Timer(now + period, Pending)
  {
    if ec != OperationAborted then (Timer(now + period, Pending), true)
    else (t.(wait := Idle), false)
  }

  /** A periodic handler that also checks that the core is still running
      before doing any work or re-arming. */
  function OnTimerChecked(t: Timer, ec: ErrorCode, now: int, period: int, running: bool): (r: (Timer, bool))
    ensures r.1 <==> ec != OperationAborted && running
    ensures !r.1 ==> r.0 == Timer(t.deadline, Idle)
    ensures r.1 ==> r.0 == Timer(now + period, Pending)
  {
    if ec != OperationAborted && running then (Timer(now + period, Pending), true)
    else (t.(wait := Idle), false)
  }

  /** Re-arming uses expires_from_now, so a late completion pushes every
      later deadline back: the next deadline is at least the previous one
      plus the period, and exactly that only when the handler runs on time. */
  lemma RearmDrifts(t: Timer, ec: ErrorCode, now: int, period: int)
    requires ec != OperationAborted && now >= t.deadline
    ensures OnTimer(t, ec, now, period).0.deadline >= t.deadline + period
    ensures OnTimer(t, ec, now, period).0.deadline == t.deadline + period <==> now == t.deadline
  {
  }

  /** The completion an outstanding wait delivers: aborted after a cancel
      that reached it, normal otherwise. */
  function NextOutcome(t: Timer): ErrorCode
  {
    if t.wait.Aborting? then OperationAborted else NoError
  }

  /** When a wait completes after the server was closed at `closedAt`: at
      its deadline, or at once if the deadline is already past. */
  function CompletionTime(t: Timer, closedAt: int): int
  {
    if t.deadline > closedAt then t.deadline else closedAt
  }

  /** Up to `n` successive completions of one periodic timer after the
      server was closed at `closedAt`, each handled by the handler as
      written (`checked` false) or by the checked one, which sees the core
      no longer running. Stops when no wait is outstanding. Gives the timer
      afterwards and how many times the loop's work ran. */
  function RunAfterClose(t: Timer, closedAt: int, n: nat, period: int, checked: bool): (r: (Timer, nat))
    ensures r.1 <= n
    decreases n
  {
    if n == 0 || t.wait.Idle? then (t, 0)
    else
      var now := CompletionTime(t, closedAt);
      var (next, ran) :=
        if checked then OnTimerChecked(t, NextOutcome(t), now, period, false)
        else OnTimer(t, NextOutcome(t), now, period);
      var (last, runs) := RunAfterClose(next, closedAt, n - 1, period, checked);
      (last, runs + (if ran then 1 else 0))
  }

  /** As written, a timer with a normal wait outstanding runs its loop's
      work on every completion and is always re-armed. */
  lemma {:induction false} PendingRunsEveryTime(t: Timer, closedAt: int, n: nat, period: int)
    requires t.wait.Pending?
    ensures RunAfterClose(t, closedAt, n, period, false).1 == n
    ensures RunAfterClose(t, closedAt, n, period, false).0.wait.Pending?
    decreases n
  {
    if n > 0 {
      var now := CompletionTime(t, closedAt);
      PendingRunsEveryTime(Timer(now + period, Pending), closedAt, n - 1, period);
    }
  }

  /** As written, a loop whose deadline had passed when close_server
      cancelled it is not stopped: every later completion runs its work
      again, with the server closed, and re-arms the timer. */
  lemma ExpiredLoopNeverStops(t: Timer, closedAt: int, n: nat, period: int)
    requires Expired(t, closedAt)
    ensures RunAfterClose(Cancel(t, closedAt), closedAt, n, period, false).1 == n
    ensures RunAfterClose(Cancel(t, closedAt), closedAt, n, period, false).0.wait.Pending?
  {
    PendingRunsEveryTime(Cancel(t, closedAt), closedAt, n, period);
  }

  /** A loop whose deadline was still ahead when close_server cancelled it
      never runs its work again, and ends without a wait. */
  lemma {:induction false} UnexpiredLoopStops(t: Timer, closedAt: int, n: nat, period: int)
    requires !Expired(t, closedAt)
    ensures RunAfterClose(Cancel(t, closedAt), closedAt, n, period, false).1 == 0
    ensures n > 0 ==> RunAfterClose(Cancel(t, closedAt), closedAt, n, period, false).0.wait.Idle?
  {
    var c := Cancel(t, closedAt);
    if n > 0 && !c.wait.Idle? {
      assert c.wait.Aborting?;
      var next := OnTimer(c, OperationAborted, CompletionTime(c, closedAt), period).0;
      assert RunAfterClose(next, closedAt, n - 1, period, false) == (next, 0);
    }
  }

  /** With the checked handler, no loop runs its work after close, whether
      or not its deadline had passed, and each ends without a wait. */
  lemma {:induction false} CheckedLoopStopsAtClose(t: Timer, closedAt: int, n: nat, period: int)
    ensures RunAfterClose(Cancel(t, closedAt), closedAt, n, period, true).1 == 0
    ensures n > 0 ==> RunAfterClose(Cancel(t, closedAt), closedAt, n, period, true).0.wait.Idle?
  {
    var c := Cancel(t, closedAt);
    if n > 0 && !c.wait.Idle? {
      var next := OnTimerChecked(c, NextOutcome(c), CompletionTime(c, closedAt), period, false).0;
      assert next.wait.Idle?;
      assert RunAfterClose(next, closedAt, n - 1, period, true) == (next, 0);
    }
  }

  class Core {
    var contactTimer: Timer
    var dynamicTimer: Timer
    var server: Server
    var trace: seq<Effect>

    /** The constructor sets both timers' first expiry one period ahead. */
    constructor (now: int)
      ensures contactTimer == Timer(now + ContactPeriod, Idle)
      ensures dynamicTimer == Timer(now + DynamicContactPeriod, Idle)
      ensures server == NotCreated && trace == []
    {
      contactTimer := Timer(now + ContactPeriod, Idle);
      dynamicTimer := Timer(now + DynamicContactPeriod, Idle);
      server := NotCreated;
      trace := [];
    }

    /** open() and open_server: refused without a local identity, before
        any server exists. Otherwise the server is created; if it cannot
        bind its listen endpoint the open fails there, with nothing
        contacted and no timer armed. Once open, the static contacts are
        contacted at once and one wait is started on each timer. */
    method Open(hasIdentity: bool, bindOk: bool) returns (ok: bool)
      requires server.NotCreated? && contactTimer.wait.Idle? && dynamicTimer.wait.Idle?
      modifies this
      ensures ok == (hasIdentity && bindOk)
      ensures !hasIdentity ==> unchanged(this)
      ensures hasIdentity && !bindOk ==> server == OpenFailed && trace == old(trace)
      ensures hasIdentity && !bindOk ==> contactTimer == old(contactTimer) && dynamicTimer == old(dynamicTimer)
      ensures ok ==> server == Opened && trace == old(trace) + [ContactAll]
      ensures ok ==> contactTimer == Timer(old(contactTimer.deadline), Pending)
      ensures ok ==> dynamicTimer == Timer(old(dynamicTimer.deadline), Pending)
    {
      if !hasIdentity {
        return false;
      }
      if !bindOk {
        server := OpenFailed;
        return false;
      }
      server := Opened;
      trace := trace + [ContactAll];
      contactTimer := contactTimer.(wait := Pending);
      dynamicTimer := dynamicTimer.(wait := Pending);
      ok := true;
    }

    /** do_handle_periodic_contact. A wait must be outstanding; one that a
        cancel reached completes with operation_aborted, and a normal
        completion comes no earlier than the deadline. The server's state
        is not consulted. */
    method HandlePeriodicContact(ec: ErrorCode, now: int)
      requires !contactTimer.wait.Idle?
      requires contactTimer.wait.Aborting? ==> ec == OperationAborted
      requires ec != OperationAborted ==> now >= contactTimer.deadline
      modifies this
      ensures contactTimer == OnTimer(old(contactTimer), ec, now, ContactPeriod).0
      ensures trace == old(trace) + (if ec != OperationAborted then [ContactAll] else [])
      ensures dynamicTimer == old(dynamicTimer) && server == old(server)
    {
      if ec != OperationAborted {
        trace := trace + [ContactAll];
        contactTimer := Timer(now + ContactPeriod, Pending);
      } else {
        contactTimer := contactTimer.(wait := Idle);
      }
    }

    /** do_handle_periodic_dynamic_contact: the same, for the dynamic loop. */
    method HandlePeriodicDynamicContact(ec: ErrorCode, now: int)
      requires !dynamicTimer.wait.Idle?
      requires dynamicTimer.wait.Aborting? ==> ec == OperationAborted
      requires ec != OperationAborted ==> now >= dynamicTimer.deadline
      modifies this
      ensures dynamicTimer == OnTimer(old(dynamicTimer), ec, now, DynamicContactPeriod).0
      ensures trace == old(trace) + (if ec != OperationAborted then [DynamicContactAll] else [])
      ensures contactTimer == old(contactTimer) && server == old(server)
    {
      if ec != OperationAborted {
        trace := trace + [DynamicContactAll];
        dynamicTimer := Timer(now + DynamicContactPeriod, Pending);
      } else {
        dynamicTimer := dynamicTimer.(wait := Idle);
      }
    }

    /** close() and close_server at time `now`: cancel the dynamic timer,
        then the static one, then close the server. The server must have
        been created, since it is closed unconditionally. */
    method Close(now: int)
      requires !server.NotCreated?
      modifies this
      ensures server == Closed
      ensures trace == old(trace) + [CancelDynamicTimer, CancelContactTimer, CloseServer]
      ensures contactTimer == Cancel(old(contactTimer), now) && dynamicTimer == Cancel(old(dynamicTimer), now)
    {
      trace := trace + [CancelDynamicTimer];
      dynamicTimer := Cancel(dynamicTimer, now);
      trace := trace + [CancelContactTimer];
      contactTimer := Cancel(contactTimer, now);
      trace := trace + [CloseServer];
      server := Closed;
    }
  }

  /** close() at `now`, followed by the completion each timer still owes.
      A loop whose deadline was ahead starts nothing; a loop whose deadline
      had passed runs its work once more after the server is closed and is
      left armed again. Completions are delivered here dynamic loop first;
      asio would deliver them in the order it collected the timers. */
  method CloseThenDrain(core: Core, now: int)
    requires !core.server.NotCreated?
    modifies core
    ensures core.server == Closed
    ensures core.trace == old(core.trace) + [CancelDynamicTimer, CancelContactTimer, CloseServer]
      + (if Expired(old(core.dynamicTimer), now) then [DynamicContactAll] else [])
      + (if Expired(old(core.contactTimer), now) then [ContactAll] else [])
    ensures core.dynamicTimer == (if Expired(old(core.dynamicTimer), now)
                                  then Timer(now + DynamicContactPeriod, Pending)
                                  else Timer(old(core.dynamicTimer.deadline), Idle))
    ensures core.contactTimer == (if Expired(old(core.contactTimer), now)
                                  then Timer(now + ContactPeriod, Pending)
                                  else Timer(old(core.contactTimer.deadline), Idle))
  {
    core.Close(now);
    if !core.dynamicTimer.wait.Idle? {
      core.HandlePeriodicDynamicContact(NextOutcome(core.dynamicTimer), CompletionTime(core.dynamicTimer, now));
    }
    if !core.contactTimer.wait.Idle? {
      core.HandlePeriodicContact(NextOutcome(core.contactTimer), CompletionTime(core.contactTimer, now));
    }
  }
}
