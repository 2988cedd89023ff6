/**
 One session of a distributed worker: the command loop, the heartbeat, the orchestrator
 of every run and the session's teardown, as interleaved atomic steps on the run slot.
 */
module WorkerControl {
  import opened Wrappers

  datatype Command =
    | Start
    | BadStart   // no configuration, or one that gives no plan
    | Stop
    | Abort
    | Unspecified

  datatype Lifecycle = Ready | Running | Draining | Error

  predicate CanTransition(current: Lifecycle, next: Lifecycle) {
    || (current == Ready && next != Ready)
    || (current == Running && next != Running)
    || (current == Draining && (next == Ready || next == Error))
    || (current == Error && (next == Ready || next == Draining))
  }

  /** An illegal transition is ignored. */
  function Transition(current: Lifecycle, next: Lifecycle): Lifecycle {
    if next == current || CanTransition(current, next) then next else current
  }

  /** What became of an orchestrator task. */
  datatype Run = Executing | Reported | Ended

  /** Where the command loop is. */
  datatype Loop =
    | Idle
    | Offering(r: nat)     // orchestrator spawned, slot not asked for yet
    | Starting             // slot won, state not updated yet
    | Stopping             // STOP: about to take the slot
    | Telling(r: nat)      // STOP: took `r`, about to cancel it
    | Waiting(r: nat)      // STOP: awaiting the handle of `r`
    | Stopped              // STOP: about to update the state
    | Aborting             // ABORT: about to update the state
    | Dead                 // aborted with its session

  /** How far the teardown of the session is. */
  datatype Teardown = NotYet | Taken(r: nat) | Awaiting(r: nat) | Over

  datatype Event =
    | Accepted(r: nat)   // START won the slot and is acknowledged
    | Rejected(r: nat)   // START found the slot taken
    | Took(r: nat)       // STOP took the handle
    | Told(r: nat)       // STOP cancelled the run it took
    | Joined(r: nat)     // STOP saw the run end
    | Cancelled(r: nat)  // ABORT, a heartbeat or the teardown cancelled the run
    | Finished(r: nat)   // the orchestrator task ended

  datatype Session = Session(
    pending: seq<Command>, runs: seq<Run>, cancelled: set<nat>, slot: Option<nat>,
    at: Loop, teardown: Teardown, state: Lifecycle, log: seq<Event>)

  function Fresh(script: seq<Command>): Session {
    Session(script, [], {}, None, Idle, NotYet, Ready, [])
  }

  datatype Action =
    | Command                // the command loop reads the next command
    | Offer | BeginRunning
    | StopTake | StopTell | StopJoin | StopDone
    | AbortDone
    | Heartbeat              // a heartbeat answered with ABORT
    | Report(r: nat)         // the orchestrator resets the advertised state
    | Finish(r: nat)
    | TearTake | TearTell | TearJoin | TearAbort

  predicate Enabled(s: Session, a: Action) {
    match a
    case Command => s.at == Idle && s.pending != []
    case Offer => s.at.Offering?
    case BeginRunning => s.at == Starting
    case StopTake => s.at == Stopping
    case StopTell => s.at.Telling?
    case StopJoin => s.at.Waiting? && s.at.r < |s.runs| && s.runs[s.at.r] == Ended
    case StopDone => s.at == Stopped
    case AbortDone => s.at == Aborting
    case Heartbeat => s.teardown != Over
    case Report(r) => r < |s.runs| && s.runs[r] == Executing
    case Finish(r) => r < |s.runs| && s.runs[r] == Reported
    case TearTake => s.teardown == NotYet
    case TearTell => s.teardown.Taken?
    case TearJoin => s.teardown.Awaiting? && s.teardown.r < |s.runs| && s.runs[s.teardown.r] == Ended
    case TearAbort => s.teardown == Over && (s.at == Idle || s.at.Waiting?)
  }

  function Say(s: Session, e: Event): Session {
    s.(log := s.log + [e])
  }

  /** `Shared::cancel_run`. */
  function CancelRun(s: Session): Session {
    if s.slot.Some?
    then Say(s.(cancelled := s.cancelled + {s.slot.value}), Cancelled(s.slot.value))
    else s
  }

  function Handle(s: Session, c: Command): Session {
    match c
    case Start => s.(runs := s.runs + [Executing], at := Offering(|s.runs|))
    case BadStart => s
    case Stop => s.(at := Stopping)
    case Abort => CancelRun(s).(at := Aborting)
    case Unspecified => s
  }

  function Next(s: Session, a: Action): Session
    requires Enabled(s, a)
  {
    match a
    case Command => Handle(s.(pending := s.pending[1..]), s.pending[0])
    case Offer =>
      var r := s.at.r;
      if s.slot.Some?
      then Say(s.(at := Idle), Rejected(r))
      else Say(s.(slot := Some(r), at := Starting), Accepted(r))
    case BeginRunning => s.(state := Transition(s.state, Running), at := Idle)
    case StopTake =>
      if s.slot.Some?
      then Say(s.(slot := None, at := Telling(s.slot.value)), Took(s.slot.value))
      else s.(at := Stopped)
    case StopTell =>
      var r := s.at.r;
      Say(s.(cancelled := s.cancelled + {r}, at := Waiting(r)), Told(r))
    case StopJoin => Say(s.(at := Stopped), Joined(s.at.r))
    case StopDone => s.(state := Transition(s.state, Ready), at := Idle)
    case AbortDone => s.(state := Transition(s.state, Ready), at := Idle)
    case Heartbeat => CancelRun(s)
    case Report(r) => s.(runs := s.runs[r := Reported], state := Transition(s.state, Ready))
    case Finish(r) => Say(s.(runs := s.runs[r := Ended]), Finished(r))
    case TearTake =>
      if s.slot.Some?
      then s.(slot := None, teardown := Taken(s.slot.value))
      else s.(teardown := Over)
    case TearTell =>
      var r := s.teardown.r;
      Say(s.(cancelled := s.cancelled + {r}, teardown := Awaiting(r)), Cancelled(r))
    case TearJoin => s.(teardown := Over)
    case TearAbort => s.(at := Dead)
  }

  predicate Reaches(s: Session, run: seq<Action>, t: Session)
    decreases run
  {
    if run == [] then s == t
    else Enabled(s, run[0]) && Reaches(Next(s, run[0]), run[1..], t)
  }

  lemma {:induction false} Extend(s: Session, run: seq<Action>, t: Session, a: Action)
    requires Reaches(s, run, t) && Enabled(t, a)
    ensures Reaches(s, run + [a], Next(t, a))
    decreases run
  {
    if run == [] {
      assert (run + [a])[1..] == [];
      assert Reaches(Next(t, a), [], Next(t, a));
    } else {
      Extend(Next(s, run[0]), run[1..], t, a);
      assert (run + [a])[1..] == run[1..] + [a];
    }
  }

  // ------------------------------------------------------------- acknowledged runs

  /** What the log says about the acknowledged runs. */
  datatype Claim = Free | Claimed(r: nat) | Seized(r: nat) | Warned(r: nat) | Broken

  function Advance(c: Claim, before: seq<Event>, e: Event): Claim {
    match e
    case Accepted(r) => if c == Free then Claimed(r) else Broken
    case Took(r) => if c == Claimed(r) then Seized(r) else Broken
    case Told(r) => if c == Seized(r) then Warned(r) else Broken
    case Joined(r) => if c == Warned(r) && Finished(r) in before then Free else Broken
    case _ => c
  }

  /**
   The protocol of acknowledged runs, read off the log: one is accepted, taken, told to
   stop, has ended and is joined, before the next one is accepted.
   */
  function Track(log: seq<Event>): Claim {
    if log == [] then Free
    else Advance(Track(log[..|log| - 1]), log[..|log| - 1], log[|log| - 1])
  }

  /** Where the log must be, given the slot and the command loop. */
  function Expected(s: Session): Claim {
    match s.at
    case Telling(r) => Seized(r)
    case Waiting(r) => Warned(r)
    case _ => if s.slot.Some? then Claimed(s.slot.value) else Free
  }

  ghost predicate Sound(s: Session) {
    && (s.at.Telling? || s.at.Waiting? || s.at == Stopped ==> s.slot.None?)
    && (s.at.Offering? ==> s.at.r < |s.runs|)
    && (s.slot.Some? ==> s.slot.value < |s.runs|)
    && (forall r: nat :: Finished(r) in s.log <==> r < |s.runs| && s.runs[r] == Ended)
    && Track(s.log) == Expected(s)
  }

  lemma TrackSnoc(log: seq<Event>, e: Event)
    ensures Track(log + [e]) == Advance(Track(log), log, e)
  {
    assert (log + [e])[..|log|] == log;
  }

  lemma StepSound(s: Session, a: Action)
    requires s.teardown == NotYet && Sound(s) && Enabled(s, a) && a != TearTake
    ensures Sound(Next(s, a)) && Next(s, a).teardown == NotYet
  {
    hide Track, Transition;
    var t := Next(s, a);
    if t.log != s.log {
      TrackSnoc(s.log, t.log[|s.log|]);
    }
  }
}
