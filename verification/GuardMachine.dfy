/**
 The life of one supervised plugin process (`guard` in host.go): the `run`
 goroutine against `requestStop`, the group-kill timer, `waitStopped` and the
 process itself. Every locked section of the source is one step, and so is every
 library call; which step comes next is arbitrary. Times are in nanoseconds.
 */
module GuardMachine {
  const SECOND: nat := 1_000_000_000
  const FATAL_WINDOW: nat := SECOND
  const STABLE_WINDOW: nat := 30 * SECOND
  const MIN_RESTART_DELAY: nat := SECOND
  const MAX_RESTART_DELAY: nat := 30 * SECOND
  const STOP_GRACE: nat := SECOND
  const PIPE_GRACE: nat := 500_000_000
  const STOP_PATIENCE: nat := STOP_GRACE + PIPE_GRACE + SECOND

  // How late the group-kill timer must be for `waitStopped` to give up before it fires.
  const OVERDUE: nat := PIPE_GRACE + SECOND

  // A process the guard started: whether it still runs and which signals it was sent.
  datatype Process = Process(live: bool, term: bool, kill: bool)

  // A timer that was stopped before it fired remembers when it was due and when it was stopped.
  datatype Timer = Unset | Armed(due: nat) | Fired | Ran | Cancelled(due: nat, at: nat)

  datatype Waiter = NotWaiting | WaitingUntil(patience: nat) | WaitOver

  // Where `run` is; the comments name what it does next.
  datatype PC =
    | AboutToStart            // cmd.Start
    | Attaching               // the locked section of attach
    | Attached(sawStop: bool) // the rest of attach: Kill when it saw the stop
    | Waiting(began: nat)     // cmd.Wait
    | Reaped(lived: nat)      // detach
    | Detached(lived: nat)    // isStopping
    | Judging(lived: nat)     // startup failure or back off
    | BackingOff(due: nat)    // select on stop and the restart timer
    | Failing                 // the isStopping check of fail
    | Reporting               // host.fatal
    | Returning               // the deferred close(done)
    | Exited

  datatype State = State(
    pc: PC,
    first: bool,
    delay: nat,
    attached: bool,           // g.process != nil
    stopping: bool,
    kill: Timer,
    waiter: Waiter,
    procs: seq<Process>,      // every process started so far, oldest first
    now: nat,
    startedAt: nat,           // when the first start was tried
    restarts: nat,            // starts tried after the first
    results: seq<bool>,       // sent on `started`: true for a nil error
    fatals: nat,              // calls of host.fatal
    closes: nat)              // calls of close(done)

  datatype Event =
    // steps of run
    | StartOk | StartErr | AttachLock | AttachRest | WaitReturns | Detach | CheckStop | Judge
    | SelectStop | SelectTimer | FailCheck | Report | CloseDone
    // the rest of the world
    | RequestStop | BeginWait | EndWait | TimerFires | KillGroup | ProcessExits | Tick(dt: nat)

  predicate OfRun(e: Event) {
    e.StartOk? || e.StartErr? || e.AttachLock? || e.AttachRest? || e.WaitReturns? || e.Detach? || e.CheckStop?
      || e.Judge?
    || e.SelectStop? || e.SelectTimer? || e.FailCheck? || e.Report? || e.CloseDone?
  }

  function Init(now: nat): State {
    State(AboutToStart, true, MIN_RESTART_DELAY, false, false, Unset, NotWaiting, [], now, now, 0, [], 0, 0)
  }

  predicate Live(s: State) {
    s.procs != [] && s.procs[|s.procs| - 1].live
  }

  // The processes after a signal to the last one.
  function Signal(procs: seq<Process>, term: bool, kill: bool): seq<Process> {
    if procs == [] then procs
    else
      var p := procs[|procs| - 1];
      procs[|procs| - 1 := p.(term := p.term || term, kill := p.kill || kill)]
  }

  predicate Enabled(s: State, e: Event) {
    match e
    case StartOk | StartErr => s.pc.AboutToStart?
    case AttachLock => s.pc.Attaching?
    case AttachRest => s.pc.Attached?
    case WaitReturns => s.pc.Waiting? && !Live(s) && s.pc.began <= s.now
    case Detach => s.pc.Reaped?
    case CheckStop => s.pc.Detached?
    case Judge => s.pc.Judging?
    case SelectStop => s.pc.BackingOff? && s.stopping
    case SelectTimer => s.pc.BackingOff? && s.pc.due <= s.now
    case FailCheck => s.pc.Failing?
    case Report => s.pc.Reporting?
    case CloseDone => s.pc.Returning?
    case RequestStop => true
    case BeginWait => s.stopping && s.waiter.NotWaiting?
    case EndWait => s.waiter.WaitingUntil? && (s.pc.Exited? || s.waiter.patience <= s.now)
    case TimerFires => s.kill.Armed? && s.kill.due <= s.now
    case KillGroup => s.kill.Fired?
    case ProcessExits => Live(s)
    case Tick(_) => true
  }

  function Doubled(delay: nat): nat {
    if delay * 2 < MAX_RESTART_DELAY then delay * 2 else MAX_RESTART_DELAY
  }

  function Step(s: State, e: Event): State
    requires Enabled(s, e)
  {
    match e
    case StartOk =>
      var t := if s.first then s.(results := s.results + [true], startedAt := s.now)
        else s.(restarts := s.restarts + 1);
      t.(pc := Attaching, procs := s.procs + [Process(true, false, false)])
    case StartErr =>
      if s.first then s.(results := s.results + [false], startedAt := s.now, pc := Returning)
      else s.(restarts := s.restarts + 1, pc := Failing)
    case AttachLock => s.(attached := true, pc := Attached(s.stopping))
    case AttachRest =>
      s.(procs := if s.pc.sawStop then Signal(s.procs, false, true) else s.procs, pc := Waiting(s.now))
    case WaitReturns => s.(pc := Reaped(s.now - s.pc.began))
    case Detach => s.(attached := false, pc := Detached(s.pc.lived))
    case CheckStop => s.(pc := if s.stopping then Returning else Judging(s.pc.lived))
    case Judge =>
      if s.first && s.pc.lived < FATAL_WINDOW then s.(pc := Failing)
      else
        var delay := if s.pc.lived >= STABLE_WINDOW then MIN_RESTART_DELAY else s.delay;
        s.(delay := delay, pc := BackingOff(s.now + delay))
    case SelectStop => s.(pc := Returning)
    case SelectTimer => s.(delay := Doubled(s.delay), first := false, pc := AboutToStart)
    case FailCheck => s.(pc := if s.stopping then Returning else Reporting)
    case Report => s.(fatals := s.fatals + 1, pc := Returning)
    case CloseDone => s.(closes := s.closes + 1, pc := Exited)
    case RequestStop =>
      if s.stopping then s
      else if !s.attached then s.(stopping := true)
      else s.(stopping := true, procs := Signal(s.procs, true, false), kill := Armed(s.now + STOP_GRACE))
    case BeginWait => s.(waiter := WaitingUntil(s.now + STOP_PATIENCE))
    case EndWait => s.(waiter := WaitOver, kill := if s.kill.Armed? then Cancelled(s.kill.due, s.now) else s.kill)
    case TimerFires => s.(kill := Fired)
    case KillGroup => s.(procs := if s.attached then Signal(s.procs, false, true) else s.procs, kill := Ran)
    case ProcessExits => s.(procs := s.procs[|s.procs| - 1 := s.procs[|s.procs| - 1].(live := false)])
    case Tick(dt) => s.(now := s.now + dt)
  }

  /** A run of the machine: `states[i + 1]` is `states[i]` after `events[i]`. */
  ghost predicate IsRun(states: seq<State>, events: seq<Event>) {
    && |states| == |events| + 1
    && states[0] == Init(states[0].now)
    && forall i {:trigger events[i]} :: 0 <= i < |events| ==>
      Enabled(states[i], events[i]) && states[i + 1] == Step(states[i], events[i])
  }

  // ---- What every step keeps ----

  // Which process `run` is holding, and that every other one is gone.
  predicate Holding(s: State) {
    && (s.attached <==> s.pc.Attached? || s.pc.Waiting? || s.pc.Reaped?)
    && (forall i :: 0 <= i < |s.procs| - 1 ==> !s.procs[i].live)
    && (Live(s) ==> s.pc.Attaching? || s.pc.Attached? || s.pc.Waiting?)
    && (s.attached || s.pc.Attaching? ==> s.procs != [])
    && (s.pc.Waiting? ==> s.pc.began <= s.now)
  }

  // The group kill was due at least OVERDUE before it was cancelled.
  predicate CancelledLate(s: State) {
    s.kill.Cancelled? && s.kill.due + OVERDUE <= s.kill.at
  }

  // Signals and timer of a stopping guard. A stop that found a process armed the timer.
  predicate Signalled(s: State) {
    && (!s.stopping ==> s.kill.Unset? && s.waiter.NotWaiting? && s.pc != Attached(true))
    && (!s.kill.Unset? ==>
      s.pc == Attached(false) || s.pc.Waiting? || s.pc.Reaped? || s.pc.Detached? || s.pc.Returning? || s.pc.Exited?)
    && (s.stopping && s.kill.Unset? && s.attached && s.procs != [] ==>
      s.pc == Attached(true) || s.procs[|s.procs| - 1].kill)
    && (!s.kill.Unset? && Live(s) ==>
      var p := s.procs[|s.procs| - 1]; p.kill || (p.term && (s.kill.Armed? || s.kill.Fired? || s.kill.Cancelled?)))
    && (s.kill.Armed? ==> s.kill.due <= s.now + STOP_GRACE)
    && (s.kill.Armed? && s.waiter.WaitingUntil? ==> s.kill.due + OVERDUE <= s.waiter.patience)
    && (s.kill.Armed? ==> !s.waiter.WaitOver?)
    && (s.kill.Cancelled? ==> s.waiter.WaitOver? && s.kill.at <= s.now && (s.pc.Exited? || CancelledLate(s)))
  }

  // What was delivered: one start result, at most one fatal report, one close.
  predicate Delivered(s: State) {
    && |s.results| == (if s.first && s.pc.AboutToStart? then 0 else 1)
    && (s.results != [] && !s.results[0] ==> s.procs == [] && (s.pc.Returning? || s.pc.Exited?) && s.fatals == 0)
    && (s.first && s.pc.AboutToStart? ==> s.procs == [])
    && (s.procs == [] ==> s.pc.AboutToStart? || s.pc.Returning? || s.pc.Exited?)
    && s.fatals <= 1
    && (s.fatals == 1 ==> s.pc.Returning? || s.pc.Exited?)
    && s.closes == (if s.pc.Exited? then 1 else 0)
    && (s.first || s.procs != [])
  }

  predicate Inv(s: State) {
    Holding(s) && Signalled(s) && Delivered(s)
  }

  lemma RunKeepsHolding(s: State, e: Event)
    requires Inv(s) && Enabled(s, e) && OfRun(e)
    ensures Holding(Step(s, e))
  {
  }

  lemma WorldKeepsHolding(s: State, e: Event)
    requires Inv(s) && Enabled(s, e) && !OfRun(e)
    ensures Holding(Step(s, e))
  {
  }

  lemma RunKeepsSignalled(s: State, e: Event)
    requires Inv(s) && Enabled(s, e) && OfRun(e)
    ensures Signalled(Step(s, e))
  {
  }

  lemma WorldKeepsSignalled(s: State, e: Event)
    requires Inv(s) && Enabled(s, e) && !OfRun(e)
    ensures Signalled(Step(s, e))
  {
  }

  lemma StepKeepsDelivered(s: State, e: Event)
    requires Inv(s) && Enabled(s, e)
    ensures Delivered(Step(s, e))
  {
    assert e.StartOk? && s.first ==> Step(s, e).results[|s.results|];
  }

  lemma StepKeepsInv(s: State, e: Event)
    requires Inv(s) && Enabled(s, e)
    ensures Inv(Step(s, e))
  {
    if OfRun(e) {
      RunKeepsHolding(s, e);
      RunKeepsSignalled(s, e);
    } else {
      WorldKeepsHolding(s, e);
      WorldKeepsSignalled(s, e);
    }
    StepKeepsDelivered(s, e);
  }

  lemma {:induction false} RunKeepsInv(states: seq<State>, events: seq<Event>, i: nat)
    requires IsRun(states, events) && i < |states|
    ensures Inv(states[i])
  {
    if i > 0 {
      RunKeepsInv(states, events, i - 1);
      var e := events[i - 1];
      StepKeepsInv(states[i - 1], e);
    }
  }

  // ---- The race of a stop with a start ----

  // Processes started so far, plus the one a stop can no longer prevent.
  function Budget(s: State): nat {
    |s.procs| + if s.pc.Judging? || s.pc.BackingOff? || s.pc.AboutToStart? then 1 else 0
  }

  lemma StoppedBudget(s: State, e: Event)
    requires Inv(s) && s.stopping && Enabled(s, e)
    ensures Step(s, e).stopping && Budget(Step(s, e)) <= Budget(s)
  {
  }

  /**
   Once `requestStop` has run, no further process starts when it found one
   attached, and at most one does otherwise.
   */
  lemma {:induction false} StartsAfterStop(states: seq<State>, events: seq<Event>, stop: nat, later: nat)
    requires IsRun(states, events) && stop < later < |states|
    requires events[stop].RequestStop? && !states[stop].stopping
    ensures states[later].stopping
    ensures Budget(states[later]) <= Budget(states[stop + 1])
    ensures |states[later].procs| <= |states[stop].procs| + if states[stop].attached then 0 else 1
  {
    RunKeepsInv(states, events, later - 1);
    if later == stop + 1 {
      assert states[stop + 1] == Step(states[stop], events[stop]);
    } else {
      StartsAfterStop(states, events, stop, later - 1);
      var e := events[later - 1];
      StoppedBudget(states[later - 1], e);
    }
    RunKeepsInv(states, events, stop);
  }

  // Killed, or about to be.
  predicate Covered(s: State, p: Process) {
    || p.kill
    || (p.term && (s.kill.Armed? || s.kill.Fired?))
    || s.pc.Attaching? || s.pc == Attached(true)
  }

  /**
   A process still running under a stopping guard has been sent SIGKILL, or
   SIGTERM with the group kill armed or fired, or `run` has yet to reach the Kill
   in `attach` that covers it. Otherwise it was sent SIGTERM, and `waitStopped`
   cancelled a group kill that was late by OVERDUE or more.
   */
  lemma LiveProcessIsCovered(states: seq<State>, events: seq<Event>, i: nat, k: nat)
    requires IsRun(states, events) && i < |states|
    requires states[i].stopping && k < |states[i].procs| && states[i].procs[k].live
    ensures Covered(states[i], states[i].procs[k]) || (states[i].procs[k].term && CancelledLate(states[i]))
  {
    RunKeepsInv(states, events, i);
  }

  // A running process that is neither: what a stop is meant to exclude.
  predicate Uncovered(s: State) {
    s.stopping && Live(s) && !Covered(s, s.procs[|s.procs| - 1])
  }

  lemma RunStep(states: seq<State>, events: seq<Event>, i: nat)
    requires IsRun(states, events) && i < |events|
    ensures Inv(states[i]) && Enabled(states[i], events[i]) && states[i + 1] == Step(states[i], events[i])
  {
    RunKeepsInv(states, events, i);
    var e := events[i];
  }

  /** `waitStopped` cancels the group kill only after `run` is gone, or when the timer is late by OVERDUE or more. */
  lemma CancelOnlyAfterExit(states: seq<State>, events: seq<Event>, i: nat)
    requires IsRun(states, events) && i < |events|
    requires states[i].kill.Armed? && states[i + 1].kill.Cancelled?
    ensures states[i].kill.due + OVERDUE <= states[i].now || states[i].pc.Exited?
    ensures states[i].pc.Exited? ==> forall k :: 0 <= k < |states[i].procs| ==> !states[i].procs[k].live
  {
    RunStep(states, events, i);
  }

  /**
   The end of `waitStopped` leaves a running process that is neither killed nor about
   to be exactly when the group kill is still armed and late by OVERDUE or more.
   */
  lemma KillIsLostWhenLate(states: seq<State>, events: seq<Event>, i: nat)
    requires IsRun(states, events) && i < |events| && events[i].EndWait?
    requires Live(states[i]) && !states[i].procs[|states[i].procs| - 1].kill
    ensures Uncovered(states[i + 1]) <==> states[i].kill.Armed? && states[i].kill.due + OVERDUE <= states[i].now
  {
    RunStep(states, events, i);
  }

  /** No other step can leave such a process. */
  lemma OnlyTheWaitLosesTheKill(states: seq<State>, events: seq<Event>, i: nat)
    requires IsRun(states, events) && i < |events| && Uncovered(states[i + 1]) && !Uncovered(states[i])
    ensures events[i].EndWait? && states[i].kill.Armed? && states[i].kill.due + OVERDUE <= states[i].now
  {
    RunStep(states, events, i);
    StepKeepsInv(states[i], events[i]);
  }

  /** Such a run exists: the stop ends, and the process lives on with SIGTERM only. */
  lemma LateTimerLosesTheKill() returns (states: seq<State>, events: seq<Event>)
    ensures IsRun(states, events)
    ensures var s := states[|events|]; Uncovered(s) && s.waiter.WaitOver? && s.procs == [Process(true, true, false)]
  {
    states, events := StartWaiting([Init(0)], []);
    states, events := StopWhileWaiting(states, events);
    states, events := Extend(states, events, Tick(STOP_PATIENCE));
    states, events := Extend(states, events, EndWait);
  }

  /**
   When `waitStopped` goes on to remove the files, `run` has returned and every process is
   gone, or patience has run out, and the last process was killed, is about to be, or
   has lost its late group kill to this very step.
   */
  lemma WaitedMeans(states: seq<State>, events: seq<Event>, i: nat)
    requires IsRun(states, events) && i < |events| && events[i].EndWait?
    ensures states[i].stopping
    ensures states[i].pc.Exited? ==> forall k :: 0 <= k < |states[i].procs| ==> !states[i].procs[k].live
    ensures !states[i].pc.Exited? ==> states[i].waiter.patience <= states[i].now
    ensures Live(states[i]) ==>
      var last := states[i].procs[|states[i].procs| - 1];
      Covered(states[i + 1], last) || (states[i].kill.Armed? && states[i].kill.due + OVERDUE <= states[i].now)
  {
    RunStep(states, events, i);
  }

  // ---- What is delivered ----

  /** Over a whole life: one start result, one close, at most one fatal report and never both failures. */
  lemma DeliveredOnce(states: seq<State>, events: seq<Event>, i: nat)
    requires IsRun(states, events) && i < |states|
    ensures |states[i].results| <= 1 && states[i].fatals <= 1 && states[i].closes <= 1
    ensures states[i].closes == 1 <==> states[i].pc.Exited?
    ensures states[i].closes == 1 ==> |states[i].results| == 1
    ensures states[i].results != [] && !states[i].results[0] ==> states[i].fatals == 0 && states[i].procs == []
  {
    RunKeepsInv(states, events, i);
  }

  // A guard that has ended on its own has said why.
  predicate Reported(s: State) {
    (s.pc.Returning? || s.pc.Exited?) && !s.stopping ==> s.results == [false] || s.fatals == 1
  }

  lemma StepKeepsReported(s: State, e: Event, next: State)
    requires Delivered(s) && Reported(s) && Enabled(s, e) && next == Step(s, e)
    ensures Reported(next)
  {
  }

  lemma {:induction false} RunKeepsReported(states: seq<State>, events: seq<Event>, i: nat)
    requires IsRun(states, events) && i < |states|
    ensures Reported(states[i])
  {
    if i > 0 {
      RunKeepsReported(states, events, i - 1);
      RunKeepsInv(states, events, i - 1);
      var e := events[i - 1];
      StepKeepsReported(states[i - 1], e, states[i]);
    }
  }

  /** A guard that ends without a stop has reported a start error or, once, a fatal failure. */
  lemma FailureIsReported(states: seq<State>, events: seq<Event>, i: nat)
    requires IsRun(states, events) && i < |states|
    ensures (states[i].pc.Returning? || states[i].pc.Exited?) && !states[i].stopping ==>
      states[i].results == [false] || states[i].fatals == 1
  {
    RunKeepsReported(states, events, i);
  }

  // `run` starts nothing any more.
  predicate Finishing(pc: PC) {
    pc.Failing? || pc.Reporting? || pc.Returning? || pc.Exited?
  }

  /** A start that fails, the first or any later one, is the last: nothing is started after it. */
  lemma {:induction false} StartErrorIsFinal(states: seq<State>, events: seq<Event>, i: nat, j: nat)
    requires IsRun(states, events) && i < j < |states| && events[i].StartErr?
    ensures Finishing(states[j].pc) && |states[j].procs| == |states[i].procs|
  {
    RunStep(states, events, j - 1);
    if i + 1 < j {
      StartErrorIsFinal(states, events, i, j - 1);
      FinishingStays(states[j - 1], events[j - 1]);
    }
  }

  lemma FinishingStays(s: State, e: Event)
    requires Enabled(s, e) && Finishing(s.pc)
    ensures Finishing(Step(s, e).pc) && |Step(s, e).procs| == |s.procs|
  {
  }

  lemma NoFatalStep(s: State, e: Event)
    requires Enabled(s, e) && s.stopping && !s.pc.Reporting?
    ensures Step(s, e).stopping && !Step(s, e).pc.Reporting? && Step(s, e).fatals == s.fatals
  {
  }

  /** Once a stop was requested no failure is reported, unless its report was already on the way. */
  lemma {:induction false} NoFatalAfterStop(states: seq<State>, events: seq<Event>, i: nat, j: nat)
    requires IsRun(states, events) && i <= j < |states|
    requires states[i].stopping && !states[i].pc.Reporting?
    ensures states[j].stopping && !states[j].pc.Reporting? && states[j].fatals == states[i].fatals
  {
    if i < j {
      NoFatalAfterStop(states, events, i, j - 1);
      RunStep(states, events, j - 1);
      NoFatalStep(states[j - 1], events[j - 1]);
    }
  }

  // ---- When signals are sent ----

  predicate Unsignalled(s: State) {
    !s.stopping ==> forall p :: p in s.procs ==> !p.term && !p.kill
  }

  lemma StepKeepsUnsignalled(s: State, e: Event)
    requires Inv(s) && Unsignalled(s) && Enabled(s, e)
    ensures Unsignalled(Step(s, e))
  {
  }

  /** No process is signalled before a stop. */
  lemma {:induction false} NoSignalBeforeStop(states: seq<State>, events: seq<Event>, i: nat)
    requires IsRun(states, events) && i < |states|
    ensures !states[i].stopping ==> forall p :: p in states[i].procs ==> !p.term && !p.kill
  {
    if i > 0 {
      NoSignalBeforeStop(states, events, i - 1);
      RunStep(states, events, i - 1);
      StepKeepsUnsignalled(states[i - 1], events[i - 1]);
    }
  }

  // The stop found process k, and its group kill is due at `due`.
  predicate InGrace(s: State, k: nat, due: nat) {
    && s.stopping && !s.kill.Unset? && |s.procs| == k + 1 && s.procs[k].term
    && (s.kill.Armed? ==> s.kill.due == due)
    && (s.kill.Fired? || s.kill.Ran? || s.procs[k].kill ==> due <= s.now)
  }

  lemma StepKeepsGrace(s: State, e: Event, k: nat, due: nat)
    requires Inv(s) && InGrace(s, k, due) && Enabled(s, e)
    ensures InGrace(Step(s, e), k, due)
  {
  }

  /** A process that a stop finds is sent SIGTERM at once, and SIGKILL no sooner than a second later. */
  lemma {:induction false} GraceIsGiven(states: seq<State>, events: seq<Event>, stop: nat, j: nat)
    requires IsRun(states, events) && stop < j < |states|
    requires events[stop].RequestStop? && !states[stop].stopping && states[stop].attached
    ensures |states[j].procs| == |states[stop].procs| > 0
    ensures var p := states[j].procs[|states[j].procs| - 1];
      p.term && (p.kill ==> states[stop].now + 1_000_000_000 <= states[j].now)
  {
    FoundIsInGrace(states, events, stop, j);
  }

  lemma {:induction false} FoundIsInGrace(states: seq<State>, events: seq<Event>, stop: nat, j: nat)
    requires IsRun(states, events) && stop < j < |states|
    requires events[stop].RequestStop? && !states[stop].stopping && states[stop].attached
    ensures |states[stop].procs| > 0
    ensures InGrace(states[j], |states[stop].procs| - 1, states[stop].now + 1_000_000_000)
  {
    RunStep(states, events, j - 1);
    if j == stop + 1 {
      NoSignalBeforeStop(states, events, stop);
      StopBeginsGrace(states[stop]);
    } else {
      FoundIsInGrace(states, events, stop, j - 1);
      StepKeepsGrace(states[j - 1], events[j - 1], |states[stop].procs| - 1, states[stop].now + 1_000_000_000);
    }
  }

  lemma StopBeginsGrace(s: State)
    requires Inv(s) && Unsignalled(s) && !s.stopping && s.attached
    ensures |s.procs| > 0 && InGrace(Step(s, RequestStop), |s.procs| - 1, s.now + 1_000_000_000)
  {
    var p := s.procs[|s.procs| - 1];
    assert p in s.procs;
  }

  /** A wait gives up two and a half seconds after it began, and no sooner while `run` goes on. */
  lemma {:induction false} PatienceIsFixed(states: seq<State>, events: seq<Event>, i: nat, j: nat)
    requires IsRun(states, events) && i < j < |states| && events[i].BeginWait?
    ensures states[j].waiter == WaitOver || states[j].waiter == WaitingUntil(states[i].now + 2_500_000_000)
    ensures states[j].waiter.WaitingUntil? ==>
      (Enabled(states[j], EndWait) <==> states[j].pc.Exited? || states[i].now + 2_500_000_000 <= states[j].now)
  {
    RunStep(states, events, j - 1);
    if i < j - 1 {
      PatienceIsFixed(states, events, i, j - 1);
    }
  }

  // ---- A stop comes to an end ----

  // How far `run` is from returning once the guard is stopping.
  function Rank(pc: PC): nat {
    match pc
    case Judging(_) => 12
    case BackingOff(_) => 11
    case AboutToStart => 10
    case Attaching => 9
    case Attached(_) => 8
    case Waiting(_) => 7
    case Reaped(_) => 6
    case Detached(_) => 5
    case Failing => 4
    case Reporting => 3
    case Returning => 2
    case Exited => 0
  }

  // Everything but requests and the clock still ahead of a stopping guard.
  function Ahead(s: State): nat {
    3 * Rank(s.pc)
    + (if Live(s) then 1 else 0)
    + (if s.kill.Armed? then 2 else if s.kill.Fired? then 1 else 0)
    + (if s.waiter.NotWaiting? then 4 else if s.waiter.WaitingUntil? then 1 else 0)
  }

  predicate Idle(e: Event) {
    e.Tick? || e.RequestStop?
  }

  // The events in events[from..to] that are not idle.
  function Work(events: seq<Event>, from: nat, to: nat): nat
    requires from <= to <= |events|
  {
    if from == to then 0 else Work(events, from, to - 1) + if Idle(events[to - 1]) then 0 else 1
  }

  lemma RunDescends(s: State, e: Event)
    requires s.stopping && Enabled(s, e)
    ensures if OfRun(e) then Rank(Step(s, e).pc) < Rank(s.pc) else Step(s, e).pc == s.pc
  {
  }

  // A step of `run` leaves the timers alone and at most starts one process.
  lemma RunKeepsRest(s: State, e: Event)
    requires Enabled(s, e) && OfRun(e)
    ensures var next := Step(s, e); next.stopping == s.stopping && next.kill == s.kill && next.waiter == s.waiter
  {
  }

  lemma WorldAdvances(s: State, e: Event)
    requires Inv(s) && s.stopping && Enabled(s, e) && !OfRun(e)
    ensures Step(s, e).stopping
    ensures if Idle(e) then Ahead(Step(s, e)) == Ahead(s) else Ahead(Step(s, e)) < Ahead(s)
  {
  }

  lemma StopAdvances(s: State, e: Event, next: State)
    requires Inv(s) && s.stopping && Enabled(s, e) && next == Step(s, e)
    ensures next.stopping
    ensures if Idle(e) then Ahead(next) == Ahead(s) else Ahead(next) < Ahead(s)
  {
    if OfRun(e) {
      RunDescends(s, e);
      RunKeepsRest(s, e);
    } else {
      WorldAdvances(s, e);
    }
  }

  lemma StopStep(states: seq<State>, events: seq<Event>, i: nat)
    requires IsRun(states, events) && i < |events| && states[i].stopping
    ensures states[i + 1].stopping
    ensures Ahead(states[i + 1]) + (if Idle(events[i]) then 0 else 1) <= Ahead(states[i])
  {
    RunStep(states, events, i);
    StopAdvances(states[i], events[i], states[i + 1]);
  }

  lemma {:induction false} StopStays(states: seq<State>, events: seq<Event>, from: nat, to: nat)
    requires IsRun(states, events) && from <= to < |states| && states[from].stopping
    ensures states[to].stopping
  {
    if from < to {
      StopStays(states, events, from, to - 1);
      StopStep(states, events, to - 1);
    }
  }

  // For any measure that each event but the idle ones lowers.
  lemma {:induction false} WorkIsBounded(measure: State -> nat, states: seq<State>, events: seq<Event>, from: nat,
                                         to: nat)
    requires |states| == |events| + 1 && from <= to < |states|
    requires forall k :: from <= k < to ==>
      measure(states[k + 1]) + (if Idle(events[k]) then 0 else 1) <= measure(states[k])
    ensures Work(events, from, to) + measure(states[to]) <= measure(states[from])
  {
    if from < to {
      WorkIsBounded(measure, states, events, from, to - 1);
      var k := to - 1;
      assert measure(states[k + 1]) + (if Idle(events[k]) then 0 else 1) <= measure(states[k]);
    }
  }

  /** After a stop at most 43 steps other than clock ticks and repeated requests are left. */
  lemma StopIsBounded(states: seq<State>, events: seq<Event>, from: nat, to: nat)
    requires IsRun(states, events) && from <= to < |states| && states[from].stopping
    ensures states[to].stopping
    ensures Work(events, from, to) + Ahead(states[to]) <= Ahead(states[from])
    ensures Ahead(states[from]) <= 43
  {
    StopStays(states, events, from, to);
    forall k | from <= k < to
      ensures Ahead(states[k + 1]) + (if Idle(events[k]) then 0 else 1) <= Ahead(states[k])
    {
      StopStays(states, events, from, k);
      StopStep(states, events, k);
    }
    WorkIsBounded(Ahead, states, events, from, to);
    AheadIsSmall(states[from]);
  }

  lemma AheadIsSmall(s: State)
    ensures Ahead(s) <= 43
  {
  }

  /**
   A stopping guard that has not returned can always do something itself, unless it
   waits for the running process; once the grace is over, that process was sent SIGKILL,
   or its group kill was cancelled late.
   */
  lemma StopWaitsOnlyForTheKilled(states: seq<State>, events: seq<Event>, i: nat)
    requires IsRun(states, events) && i < |states| && states[i].stopping && !states[i].pc.Exited?
    requires forall e | OfRun(e) || e.TimerFires? || e.KillGroup? :: !Enabled(states[i], e)
    ensures states[i].pc.Waiting? && Live(states[i])
    ensures states[i].kill.Armed? || states[i].procs[|states[i].procs| - 1].kill || CancelledLate(states[i])
    ensures states[i].kill.Armed? ==> states[i].now < states[i].kill.due
  {
    RunKeepsInv(states, events, i);
    StuckIsWaiting(states[i]);
    StuckIsKilled(states[i]);
  }

  lemma StuckIsWaiting(s: State)
    requires Inv(s) && s.stopping && !s.pc.Exited?
    requires forall e | OfRun(e) || e.TimerFires? || e.KillGroup? :: !Enabled(s, e)
    ensures s.pc.Waiting? && Live(s)
  {
    assert !Enabled(s, StartOk) && !Enabled(s, AttachLock) && !Enabled(s, AttachRest) && !Enabled(s, WaitReturns);
    assert !Enabled(s, Detach) && !Enabled(s, CheckStop) && !Enabled(s, Judge) && !Enabled(s, SelectStop);
    assert !Enabled(s, FailCheck) && !Enabled(s, Report) && !Enabled(s, CloseDone);
  }

  lemma StuckIsKilled(s: State)
    requires Inv(s) && s.stopping && s.pc.Waiting? && Live(s)
    requires !Enabled(s, TimerFires) && !Enabled(s, KillGroup)
    ensures s.kill.Armed? || s.procs[|s.procs| - 1].kill || CancelledLate(s)
    ensures s.kill.Armed? ==> s.now < s.kill.due
  {
  }

  // ---- How often a plugin can restart ----

  // Credit left in a delay state: a restart costs 45, a second is worth 4.
  function Credit(delay: nat): nat {
    if delay <= 1_000_000_000 then 116_000_000_000
    else if delay == 2_000_000_000 then 79_000_000_000
    else if delay == 4_000_000_000 then 42_000_000_000
    else if delay == 8_000_000_000 then 13_000_000_000
    else if delay == 16_000_000_000 then 0
    else 19_000_000_000
  }

  predicate DelayState(delay: nat) {
    || delay == 1_000_000_000 || delay == 2_000_000_000 || delay == 4_000_000_000
    || delay == 8_000_000_000 || delay == 16_000_000_000 || delay == 30_000_000_000
  }

  // `restarts` and `delay` are paid for by what passed from the first start to `t`.
  predicate Paid(s: State, restarts: nat, delay: nat, t: int) {
    45_000_000_000 * restarts + Credit(delay) <= 4 * (t - s.startedAt) + 116_000_000_000
  }

  predicate Paced(s: State) {
    && DelayState(s.delay)
    && s.startedAt <= s.now
    && (s.first ==> s.restarts == 0 && (s.delay == SECOND))
    && (s.delay == SECOND && !s.first ==> s.pc.BackingOff? || s.pc.Returning? || s.pc.Exited?)
    && (match s.pc
        case AboutToStart => !s.first ==> Paid(s, s.restarts + 1, s.delay, s.now)
        case Attaching | Attached(_) => Paid(s, s.restarts, s.delay, s.now)
        case Waiting(began) => began <= s.now && Paid(s, s.restarts, s.delay, began)
        case Reaped(lived) => Paid(s, s.restarts, s.delay, s.now - lived)
        case Detached(lived) => Paid(s, s.restarts, s.delay, s.now - lived)
        case Judging(lived) => Paid(s, s.restarts, s.delay, s.now - lived)
        case BackingOff(due) => Paid(s, s.restarts + 1, Doubled(s.delay), due)
          && Paid(s, s.restarts, 16 * SECOND, s.now)
        case Failing | Reporting | Returning | Exited => Paid(s, s.restarts, 16 * SECOND, s.now))
  }

  // The credit a doubling needs: a full wait of the delay pays for one restart.
  lemma BackingOffPays(s: State, delay: nat)
    requires s.pc.Judging? && Paced(s) && !(s.first && s.pc.lived < FATAL_WINDOW)
    requires delay == if s.pc.lived >= STABLE_WINDOW then MIN_RESTART_DELAY else s.delay
    ensures Paid(s, s.restarts + 1, Doubled(delay), s.now + delay) && Paid(s, s.restarts, 16 * SECOND, s.now)
  {
    if s.pc.lived >= STABLE_WINDOW {
      assert Credit(Doubled(delay)) == 79_000_000_000;
      assert Credit(s.delay) >= 0;
    } else if s.delay == 1_000_000_000 {
      assert s.first && s.pc.lived >= FATAL_WINDOW;
    }
  }

  lemma TickKeepsPaced(s: State, e: Event)
    requires Paced(s) && e.Tick?
    ensures Paced(Step(s, e))
  {
  }

  lemma RestartKeepsPaced(s: State, e: Event)
    requires Paced(s) && Enabled(s, e) && e.SelectTimer?
    ensures Paced(Step(s, e))
  {
  }

  lemma StartKeepsPaced(s: State, e: Event)
    requires Paced(s) && Enabled(s, e) && (e.StartOk? || e.StartErr?)
    ensures Paced(Step(s, e))
  {
  }

  lemma JudgeKeepsPaced(s: State, e: Event)
    requires Paced(s) && Enabled(s, e) && e.Judge?
    ensures Paced(Step(s, e))
  {
    if !(s.first && s.pc.lived < FATAL_WINDOW) {
      BackingOffPays(s, if s.pc.lived >= STABLE_WINDOW then MIN_RESTART_DELAY else s.delay);
    }
  }

  lemma AttachKeepsPaced(s: State, e: Event)
    requires Paced(s) && Enabled(s, e) && (e.AttachLock? || e.AttachRest? || e.WaitReturns?)
    ensures Paced(Step(s, e))
  {
  }

  lemma ExitKeepsPaced(s: State, e: Event)
    requires Paced(s) && Enabled(s, e) && (e.Detach? || e.CheckStop?)
    ensures Paced(Step(s, e))
  {
  }

  lemma ReturnKeepsPaced(s: State, e: Event)
    requires Paced(s) && Enabled(s, e) && (e.SelectStop? || e.FailCheck? || e.Report? || e.CloseDone?)
    ensures Paced(Step(s, e))
  {
  }

  // What the pace depends on.
  predicate SamePace(s: State, t: State) {
    && t.pc == s.pc && t.first == s.first && t.delay == s.delay
    && t.now == s.now && t.startedAt == s.startedAt && t.restarts == s.restarts
  }

  lemma WorldKeepsPace(s: State, e: Event)
    requires Enabled(s, e) && !OfRun(e) && !e.Tick?
    ensures SamePace(s, Step(s, e))
  {
  }

  lemma SamePaceIsPaced(s: State, t: State)
    requires Paced(s) && SamePace(s, t)
    ensures Paced(t)
  {
  }

  lemma StepKeepsPaced(s: State, e: Event)
    requires Paced(s) && Enabled(s, e)
    ensures Paced(Step(s, e))
  {
    match e {
      case Tick(_) => TickKeepsPaced(s, e);
      case SelectTimer => RestartKeepsPaced(s, e);
      case StartOk => StartKeepsPaced(s, e);
      case StartErr => StartKeepsPaced(s, e);
      case Judge => JudgeKeepsPaced(s, e);
      case AttachLock => AttachKeepsPaced(s, e);
      case AttachRest => AttachKeepsPaced(s, e);
      case WaitReturns => AttachKeepsPaced(s, e);
      case Detach => ExitKeepsPaced(s, e);
      case CheckStop => ExitKeepsPaced(s, e);
      case SelectStop => ReturnKeepsPaced(s, e);
      case FailCheck => ReturnKeepsPaced(s, e);
      case Report => ReturnKeepsPaced(s, e);
      case CloseDone => ReturnKeepsPaced(s, e);
      case _ =>
        WorldKeepsPace(s, e);
        SamePaceIsPaced(s, Step(s, e));
    }
  }

  lemma {:induction false} RunKeepsPaced(states: seq<State>, events: seq<Event>, i: nat)
    requires IsRun(states, events) && i < |states|
    ensures Paced(states[i])
  {
    if i > 0 {
      RunKeepsPaced(states, events, i - 1);
      var e := events[i - 1];
      StepKeepsPaced(states[i - 1], e);
    }
  }

  /** N restarts within T seconds of the first start satisfy 45 N <= 4 T + 116. */
  lemma RestartsAreBounded(states: seq<State>, events: seq<Event>, i: nat)
    requires IsRun(states, events) && i < |states|
    ensures 45_000_000_000 * states[i].restarts <= 4 * (states[i].now - states[i].startedAt) + 116_000_000_000
  {
    RunKeepsPaced(states, events, i);
    RunKeepsInv(states, events, i);
  }

  // ---- What the history says about restarts ----

  // When the process that is running, or ran last, was waited for first.
  function BeganAt(states: seq<State>, events: seq<Event>, i: nat): nat
    requires i <= |events| < |states|
  {
    if i == 0 then 0
    else if events[i - 1].AttachRest? then states[i - 1].now
    else BeganAt(states, events, i - 1)
  }

  // How long the process that ended last had run.
  function LivedFor(states: seq<State>, events: seq<Event>, i: nat): int
    requires i <= |events| < |states|
  {
    if i == 0 then 0
    else if events[i - 1].WaitReturns? then states[i - 1].now - BeganAt(states, events, i - 1)
    else LivedFor(states, events, i - 1)
  }

  // The restarts since the last run of thirty seconds or more.
  function Streak(states: seq<State>, events: seq<Event>, i: nat): nat
    requires i <= |events| < |states|
  {
    if i == 0 then 0
    else if events[i - 1].Judge? && LivedFor(states, events, i - 1) >= 30_000_000_000 then 0
    else Streak(states, events, i - 1) + if events[i - 1].SelectTimer? then 1 else 0
  }

  // 1, 2, 4, 8 and 16 seconds, and then 30 each time.
  function Backoff(streak: nat): nat {
    if streak == 0 then 1_000_000_000
    else if streak == 1 then 2_000_000_000
    else if streak == 2 then 4_000_000_000
    else if streak == 3 then 8_000_000_000
    else if streak == 4 then 16_000_000_000
    else 30_000_000_000
  }

  // The machine's own record of it.
  predicate Remembers(s: State, began: nat, lived: int, streak: nat, restarted: bool) {
    && s.delay == Backoff(streak)
    && (s.first <==> !restarted)
    && (s.pc.Waiting? ==> s.pc.began == began)
    && (s.pc.Reaped? ==> s.pc.lived == lived)
    && (s.pc.Detached? ==> s.pc.lived == lived)
    && (s.pc.Judging? ==> s.pc.lived == lived)
  }

  predicate Restarted(events: seq<Event>, i: nat)
    requires i <= |events|
  {
    exists k :: 0 <= k < i && events[k].SelectTimer?
  }

  lemma StepRemembers(s: State, e: Event, next: State, began: nat, lived: int, streak: nat, restarted: bool)
    requires Enabled(s, e) && next == Step(s, e) && Remembers(s, began, lived, streak, restarted)
    ensures Remembers(next,
      if e.AttachRest? then s.now else began,
      if e.WaitReturns? then s.now - began else lived,
      if e.Judge? && lived >= 30_000_000_000 then 0 else streak + if e.SelectTimer? then 1 else 0,
      restarted || e.SelectTimer?)
  {
  }

  lemma {:induction false} HistoryTells(states: seq<State>, events: seq<Event>, i: nat)
    requires IsRun(states, events) && i < |states|
    ensures Remembers(states[i], BeganAt(states, events, i), LivedFor(states, events, i), Streak(states, events, i),
      Restarted(events, i))
  {
    if i > 0 {
      HistoryTells(states, events, i - 1);
      HistoryStep(states, events, i - 1, BeganAt(states, events, i - 1), LivedFor(states, events, i - 1),
        Streak(states, events, i - 1), Restarted(events, i - 1));
    }
  }

  lemma HistoryStep(states: seq<State>, events: seq<Event>, i: nat, began: nat, lived: int, streak: nat,
                    restarted: bool)
    requires IsRun(states, events) && i < |events| && Remembers(states[i], began, lived, streak, restarted)
    requires began == BeganAt(states, events, i) && lived == LivedFor(states, events, i)
    requires streak == Streak(states, events, i) && restarted == Restarted(events, i)
    ensures Remembers(states[i + 1], BeganAt(states, events, i + 1), LivedFor(states, events, i + 1),
      Streak(states, events, i + 1), Restarted(events, i + 1))
  {
    var e := events[i];
    StepRemembers(states[i], e, states[i + 1], began, lived, streak, restarted);
    RestartedStep(events, i);
  }

  lemma RestartedStep(events: seq<Event>, i: nat)
    requires i < |events|
    ensures Restarted(events, i + 1) <==> Restarted(events, i) || events[i].SelectTimer?
  {
  }

  /**
   What follows the end of a run is told by the history alone: a first run of less than a
   second is a failure, and any other end leads to a wait of 1, 2, 4, 8, 16 and then 30
   seconds, counted anew after a run of thirty seconds.
   */
  lemma JudgedByHistory(states: seq<State>, events: seq<Event>, i: nat)
    requires IsRun(states, events) && i < |events| && events[i].Judge?
    ensures if !Restarted(events, i) && LivedFor(states, events, i) < 1_000_000_000 then states[i + 1].pc == Failing
      else states[i + 1].pc == BackingOff(states[i].now + Backoff(Streak(states, events, i + 1)))
  {
    HistoryTells(states, events, i);
    HistoryTells(states, events, i + 1);
    RunStep(states, events, i);
  }

  lemma {:induction false} BackingOffStays(states: seq<State>, events: seq<Event>, i: nat, j: nat)
    requires IsRun(states, events) && i < j < |states| && states[i + 1].pc.BackingOff?
    requires forall k :: i < k < j ==> !events[k].SelectTimer?
    ensures states[j].pc == states[i + 1].pc || states[j].pc.Returning? || states[j].pc.Exited?
  {
    if i + 1 < j {
      BackingOffStays(states, events, i, j - 1);
      RunStep(states, events, j - 1);
    }
  }

  /** The restart after it comes no sooner. */
  lemma RestartWaits(states: seq<State>, events: seq<Event>, i: nat, j: nat)
    requires IsRun(states, events) && i < j < |events| && events[i].Judge? && events[j].SelectTimer?
    requires forall k :: i < k < j ==> !events[k].SelectTimer? && !events[k].Judge?
    ensures states[i].now + Backoff(Streak(states, events, i + 1)) <= states[j].now
  {
    JudgedByHistory(states, events, i);
    RunStep(states, events, j);
    if states[i + 1].pc.BackingOff? {
      BackingOffStays(states, events, i, j);
    } else {
      FinishingLasts(states, events, i, j);
    }
  }

  lemma {:induction false} FinishingLasts(states: seq<State>, events: seq<Event>, i: nat, j: nat)
    requires IsRun(states, events) && i < j < |states| && Finishing(states[i + 1].pc)
    ensures Finishing(states[j].pc)
  {
    if i + 1 < j {
      FinishingLasts(states, events, i, j - 1);
      RunStep(states, events, j - 1);
      FinishingStays(states[j - 1], events[j - 1]);
    }
  }

  // ---- The bound is tight ----

  lemma Extend(states: seq<State>, events: seq<Event>, e: Event) returns (longer: seq<State>, more: seq<Event>)
    requires IsRun(states, events) && Enabled(states[|events|], e)
    ensures IsRun(longer, more) && longer[|more|] == Step(states[|events|], e) && longer[0] == states[0]
  {
    longer, more := states + [Step(states[|events|], e)], events + [e];
    forall i {:trigger more[i]} | 0 <= i < |more|
      ensures Enabled(longer[i], more[i]) && longer[i + 1] == Step(longer[i], more[i])
    {
      if i < |events| {
        assert Enabled(states[i], events[i]);
      }
    }
  }

  // A start whose process is running and waited for.
  predicate Started(s: State, t: State) {
    && t.pc == Waiting(s.now) && !t.stopping && t.attached && t.kill.Unset? && t.waiter == s.waiter
    && t.procs == s.procs + [Process(true, false, false)]
    && t.delay == s.delay && t.first == s.first && t.now == s.now
    && t.restarts == s.restarts + (if s.first then 0 else 1)
    && t.startedAt == (if s.first then s.now else s.startedAt)
  }

  lemma StartWaiting(states: seq<State>, events: seq<Event>) returns (longer: seq<State>, more: seq<Event>)
    requires IsRun(states, events)
    requires states[|events|].pc.AboutToStart? && !states[|events|].stopping && states[|events|].kill.Unset?
    ensures IsRun(longer, more) && Started(states[|events|], longer[|more|])
  {
    longer, more := Extend(states, events, StartOk);
    longer, more := Extend(longer, more, AttachLock);
    longer, more := Extend(longer, more, AttachRest);
  }

  lemma StopWhileWaiting(states: seq<State>, events: seq<Event>) returns (longer: seq<State>, more: seq<Event>)
    requires IsRun(states, events)
    requires var s := states[|events|];
      s.pc.Waiting? && s.attached && !s.stopping && s.waiter.NotWaiting? && s.procs == [Process(true, false, false)]
    ensures IsRun(longer, more)
    ensures var s, t := states[|events|], longer[|more|];
      t == s.(stopping := true, procs := [Process(true, true, false)], kill := Armed(s.now + STOP_GRACE),
              waiter := WaitingUntil(s.now + STOP_PATIENCE))
  {
    longer, more := Extend(states, events, RequestStop);
    longer, more := Extend(longer, more, BeginWait);
  }

  // A start at `s` whose process has been reaped after `lived`.
  predicate RanFrom(s: State, t: State, lived: nat) {
    && t.pc == Reaped(lived) && !t.stopping && t.kill.Unset? && t.delay == s.delay && t.first == s.first
    && t.now == s.now + lived
    && t.restarts == s.restarts + (if s.first then 0 else 1)
    && t.startedAt == (if s.first then s.now else s.startedAt)
  }

  lemma RunOnce(states: seq<State>, events: seq<Event>, lived: nat) returns (longer: seq<State>, more: seq<Event>)
    requires IsRun(states, events)
    requires states[|events|].pc.AboutToStart? && !states[|events|].stopping && states[|events|].kill.Unset?
    ensures IsRun(longer, more) && RanFrom(states[|events|], longer[|more|], lived)
  {
    longer, more := StartWaiting(states, events);
    longer, more := Extend(longer, more, Tick(lived));
    longer, more := Extend(longer, more, ProcessExits);
    longer, more := Extend(longer, more, WaitReturns);
  }

  // One more short-lived run of the plugin, and the wait before the next start.
  lemma CrashOnce(states: seq<State>, events: seq<Event>, lived: nat) returns (longer: seq<State>, more: seq<Event>)
    requires IsRun(states, events)
    requires var s := states[|events|];
      s.pc.AboutToStart? && !s.stopping && s.kill.Unset? && lived < STABLE_WINDOW && (s.first ==> FATAL_WINDOW <= lived)
    ensures IsRun(longer, more)
    ensures var s, t := states[|events|], longer[|more|];
      t.pc.AboutToStart? && !t.stopping && t.kill.Unset? && !t.first
      && t.restarts == s.restarts + (if s.first then 0 else 1)
      && t.now == s.now + lived + s.delay && t.delay == Doubled(s.delay)
      && t.startedAt == (if s.first then s.now else s.startedAt)
  {
    longer, more := RunOnce(states, events, lived);
    longer, more := Extend(longer, more, Detach);
    longer, more := Extend(longer, more, CheckStop);
    longer, more := Extend(longer, more, Judge);
    longer, more := Extend(longer, more, Tick(states[|events|].delay));
    longer, more := Extend(longer, more, SelectTimer);
  }

  /** Some run restarts four times within sixteen seconds, which meets the bound with equality. */
  lemma BoundIsTight() returns (states: seq<State>, events: seq<Event>)
    ensures IsRun(states, events)
    ensures states[|events|].restarts == 4 && states[|events|].now - states[|events|].startedAt == 16 * SECOND
  {
    states, events := [Init(0)], [];
    states, events := CrashOnce(states, events, FATAL_WINDOW);
    states, events := CrashOnce(states, events, 0);
    states, events := CrashOnce(states, events, 0);
    states, events := CrashOnce(states, events, 0);
    states, events := Extend(states, events, StartOk);
  }
}
