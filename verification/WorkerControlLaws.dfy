/** Which runs of a distributed worker can be executing at the same time. */
module WorkerControlLaws {
  import opened Wrappers
  import opened WorkerControl

  lemma {:induction false} TeardownStays(s: Session, run: seq<Action>, t: Session)
    requires s.teardown != NotYet && Reaches(s, run, t)
    ensures t.teardown != NotYet
    decreases run
  {
    if run != [] {
      TeardownStays(Next(s, run[0]), run[1..], t);
    }
  }

  lemma {:induction false} RunSound(s: Session, run: seq<Action>, t: Session)
    requires s.teardown == NotYet && Sound(s) && Reaches(s, run, t) && t.teardown == NotYet
    ensures Sound(t)
    decreases run
  {
    hide Sound;
    if run != [] {
      if run[0] == TearTake {
        TeardownStays(Next(s, run[0]), run[1..], t);
        assert false;
      } else {
        StepSound(s, run[0]);
        RunSound(Next(s, run[0]), run[1..], t);
      }
    }
  }

  lemma LiveIsSound(script: seq<Command>, run: seq<Action>, t: Session)
    requires Reaches(Fresh(script), run, t) && t.teardown == NotYet
    ensures Sound(t)
  {
    hide Reaches;
    RunSound(Fresh(script), run, t);
  }

  /** How far an acknowledged run has come, by the log up to `j`. */
  lemma {:induction false} Settle(log: seq<Event>, i: nat, j: nat) returns (p: nat, q: nat, k: nat)
    requires i < j <= |log| && log[i].Accepted? && Track(log[..j]) != Broken
    ensures var a, c := log[i].r, Track(log[..j]);
      || c == Claimed(a)
      || (i < p < j && log[p] == Took(a)
          && (c == Seized(a)
              || (p < q < j && log[q] == Told(a)
                  && (c == Warned(a) || (q < k < j && log[k] == Joined(a) && Finished(a) in log[..k])))))
    decreases j
  {
    p, q, k := 0, 0, 0;
    assert log[..j][..j - 1] == log[..j - 1];
    if j > i + 1 {
      p, q, k := Settle(log, i, j - 1);
      match log[j - 1]
      case Took(_) => if Track(log[..j - 1]) == Claimed(log[i].r) { p := j - 1; }
      case Told(_) => if Track(log[..j - 1]) == Seized(log[i].r) { q := j - 1; }
      case Joined(_) => if Track(log[..j - 1]) == Warned(log[i].r) { k := j - 1; }
      case _ =>
    }
  }

  /**
   Acknowledged runs never overlap: between two acknowledged STARTs of a live session a
   STOP took the first run, cancelled it, and saw it end, whatever ABORTs, heartbeats and
   completions came in between.
   */
  lemma AcknowledgedRunsAreSeparated(script: seq<Command>, run: seq<Action>, t: Session, i: nat, j: nat)
    returns (p: nat, q: nat, k: nat)
    requires Reaches(Fresh(script), run, t) && t.teardown == NotYet
    requires i < j < |t.log| && t.log[i].Accepted? && t.log[j].Accepted?
    ensures var a := t.log[i].r;
      && i < p < q < k < j
      && t.log[p] == Took(a) && t.log[q] == Told(a) && t.log[k] == Joined(a)
      && Finished(a) in t.log[..k]
  {
    hide Reaches;
    LiveIsSound(script, run, t);
    NeverBroken(t.log, j + 1);
    assert t.log[..j + 1][..j] == t.log[..j];
    p, q, k := Settle(t.log, i, j);
  }

  lemma {:induction false} NeverBroken(log: seq<Event>, j: nat)
    requires j <= |log| && Track(log) != Broken
    ensures Track(log[..j]) != Broken
    decreases |log| - j
  {
    if j < |log| {
      NeverBroken(log, j + 1);
      assert log[..j + 1][..j] == log[..j];
    } else {
      assert log[..j] == log;
    }
  }

  /** In a live session, of two acknowledged runs the earlier has ended. */
  lemma AtMostOneAcknowledgedRun(script: seq<Command>, run: seq<Action>, t: Session, i: nat, j: nat)
    requires Reaches(Fresh(script), run, t) && t.teardown == NotYet
    requires i < j < |t.log| && t.log[i].Accepted? && t.log[j].Accepted?
    ensures t.log[i].r < |t.runs| && t.runs[t.log[i].r] == Ended
  {
    hide Reaches, Track;
    LiveIsSound(script, run, t);
    var p, q, k := AcknowledgedRunsAreSeparated(script, run, t, i, j);
    assert Finished(t.log[i].r) in t.log;
  }

  // ------------------------------------------------------------- all runs, acknowledged or not

  predicate AtMostOneRun(s: Session) {
    forall a, b :: 0 <= a < b < |s.runs| ==> s.runs[a] == Ended || s.runs[b] == Ended
  }

  /** Whether a START came after the last STOP. */
  predicate Open(script: seq<Command>) {
    script != [] &&
      match script[|script| - 1]
      case Start => true
      case Stop => false
      case _ => Open(script[..|script| - 1])
  }

  /** Between any two STARTs the master sends a STOP. */
  predicate Alternating(script: seq<Command>) {
    script == [] ||
      (Alternating(script[..|script| - 1]) && (script[|script| - 1] == Start ==> !Open(script[..|script| - 1])))
  }

  predicate InHand(s: Session, r: nat) {
    s.slot == Some(r) || s.at == Offering(r) || s.at == Telling(r) || s.at == Waiting(r)
  }

  /** The only run that has not ended is the one in the slot or in the hands of the command loop. */
  predicate Alone(s: Session, done: seq<Command>) {
    && (s.slot.Some? ==> !s.at.Offering? && !s.at.Telling? && !s.at.Waiting?)
    && (forall r :: 0 <= r < |s.runs| && s.runs[r] != Ended ==> InHand(s, r))
    && (s.at == Stopping || s.at == Stopped ==> !Open(done))
    && (s.at != Stopping ==> (Open(done) <==> s.slot.Some? || s.at.Offering?))
  }

  lemma StepAlone(s: Session, a: Action, done: seq<Command>)
    requires s.teardown == NotYet && Enabled(s, a) && a != TearTake && a != Action.Command
    requires Alone(s, done)
    ensures Alone(Next(s, a), done)
  {
    hide Open;
  }

  lemma CommandAlone(s: Session, done: seq<Command>)
    requires s.teardown == NotYet && Enabled(s, Action.Command) && Alone(s, done)
    requires s.pending[0] == Start ==> !Open(done)
    ensures Alone(Next(s, Action.Command), done + [s.pending[0]])
  {
    hide Open;
    OpenSnoc(done, s.pending[0]);
  }

  lemma OpenSnoc(done: seq<Command>, c: Command)
    ensures Open(done + [c]) == (c == Start || (c != Stop && Open(done)))
  {
    assert (done + [c])[..|done|] == done;
  }

  lemma {:induction false} AlternatingPrefix(script: seq<Command>, n: nat)
    requires n < |script| && Alternating(script)
    ensures script[n] == Start ==> !Open(script[..n])
  {
    if n < |script| - 1 {
      AlternatingPrefix(script[..|script| - 1], n);
      assert script[..|script| - 1][..n] == script[..n];
    }
  }

  /** With such commands, the only run not ended is the one in the slot or in the command loop's hands. */
  lemma {:induction false} RunAlone(script: seq<Command>, n: nat, s: Session, run: seq<Action>, t: Session)
    returns (m: nat)
    requires n <= |script| && Alternating(script) && s.pending == script[n..] && Alone(s, script[..n])
    requires s.teardown == NotYet && Reaches(s, run, t) && t.teardown == NotYet
    ensures m <= |script| && t.pending == script[m..] && Alone(t, script[..m])
    decreases run
  {
    m := n;
    if run != [] {
      if run[0] == TearTake {
        TeardownStays(Next(s, run[0]), run[1..], t);
        assert false;
      } else if run[0] == Action.Command {
        AlternatingPrefix(script, n);
        CommandAlone(s, script[..n]);
        assert script[..n + 1] == script[..n] + [script[n]];
        m := RunAlone(script, n + 1, Next(s, run[0]), run[1..], t);
      } else {
        StepAlone(s, run[0], script[..n]);
        m := RunAlone(script, n, Next(s, run[0]), run[1..], t);
      }
    }
  }

  lemma AloneIsOne(s: Session, done: seq<Command>)
    requires Alone(s, done)
    ensures AtMostOneRun(s)
  {
    hide Open;
  }

  lemma {:induction false} FirstClash(script: seq<Command>) returns (n: nat)
    requires !Alternating(script)
    ensures n < |script| && Alternating(script[..n]) && script[n] == Start && Open(script[..n])
  {
    var m := |script| - 1;
    if Alternating(script[..m]) {
      n := m;
    } else {
      n := FirstClash(script[..m]);
      assert script[..m][..n] == script[..n];
    }
  }

  /** One more step at the end of a run. */
  lemma Act(s: Session, run: seq<Action>, t: Session, a: Action) returns (longer: seq<Action>, u: Session)
    requires Reaches(s, run, t) && Enabled(t, a)
    ensures Reaches(s, longer, u) && u == Next(t, a)
  {
    hide Reaches;
    Extend(s, run, t, a);
    longer, u := run + [a], Next(t, a);
  }

  /** Between two commands, with the run in the slot still executing. */
  predicate Resting(s: Session, done: seq<Command>) {
    && s.at == Idle && s.teardown == NotYet
    && (s.slot.Some? <==> Open(done))
    && (s.slot.Some? ==> s.slot.value < |s.runs| && s.runs[s.slot.value] == Executing)
  }

  lemma DriveStop(s: Session, run: seq<Action>, t: Session) returns (longer: seq<Action>, u: Session)
    requires Reaches(s, run, t) && t.at == Stopping && t.teardown == NotYet
    requires t.slot.Some? ==> t.slot.value < |t.runs| && t.runs[t.slot.value] == Executing
    ensures Reaches(s, longer, u) && u.at == Idle && u.teardown == NotYet && u.slot.None? && u.pending == t.pending
  {
    hide Reaches, Transition;
    longer, u := Act(s, run, t, StopTake);
    if t.slot.Some? {
      var r := t.slot.value;
      longer, u := Act(s, longer, u, StopTell);
      longer, u := Act(s, longer, u, Report(r));
      longer, u := Act(s, longer, u, Finish(r));
      longer, u := Act(s, longer, u, StopJoin);
    }
    longer, u := Act(s, longer, u, StopDone);
  }

  /** A schedule under which a run only ends when a STOP waits for it. */
  lemma {:induction false} Drive(script: seq<Command>, n: nat) returns (run: seq<Action>, t: Session)
    requires n <= |script| && Alternating(script[..n])
    ensures Reaches(Fresh(script), run, t) && t.pending == script[n..] && Resting(t, script[..n])
  {
    hide Reaches, Transition;
    if n == 0 {
      run, t := [], Fresh(script);
      Nowhere(t);
    } else {
      assert script[..n][..n - 1] == script[..n - 1];
      run, t := Drive(script, n - 1);
      var before := t;
      run, t := Act(Fresh(script), run, t, Action.Command);
      match script[n - 1]
      case Start =>
        run, t := Act(Fresh(script), run, t, Offer);
        run, t := Act(Fresh(script), run, t, BeginRunning);
      case Stop => run, t := DriveStop(Fresh(script), run, t);
      case Abort => run, t := Act(Fresh(script), run, t, AbortDone);
      case _ =>
    }
  }

  lemma Nowhere(s: Session)
    ensures Reaches(s, [], s)
  {
  }

  /**
   Before its teardown begins: at most one run executes at a time, whatever the interleaving, if
   and only if the master sends a STOP between any two STARTs. The orchestrator of a START is
   spawned before the slot is asked for, so a rejected START executes all the same.
   */
  lemma OneRunExactly(script: seq<Command>)
    ensures Alternating(script) <==>
      forall run, t :: Reaches(Fresh(script), run, t) && t.teardown == NotYet ==> AtMostOneRun(t)
  {
    hide Reaches;
    if Alternating(script) {
      assert script[0..] == script && script[..0] == [];
      forall run, t | Reaches(Fresh(script), run, t) && t.teardown == NotYet ensures AtMostOneRun(t) {
        var m := RunAlone(script, 0, Fresh(script), run, t);
        AloneIsOne(t, script[..m]);
      }
    } else {
      var n := FirstClash(script);
      var run, t := Drive(script, n);
      var longer, u := Act(Fresh(script), run, t, Action.Command);
      assert u.runs[t.slot.value] == Executing && u.runs[|t.runs|] == Executing;
      assert !AtMostOneRun(u);
    }
  }

  // ------------------------------------------------------------- rejected and late runs

  predicate Owned(s: Session, r: nat) {
    || s.slot == Some(r) || s.at == Telling(r) || s.at == Waiting(r)
    || s.teardown == Teardown.Taken(r) || s.teardown == Awaiting(r)
  }

  /** Nobody holds a rejected run. */
  ghost predicate Adrift(s: Session) {
    && (forall r: nat :: Owned(s, r) || r in s.cancelled ==> r < |s.runs|)
    && (s.at.Offering? ==>
        && s.at.r < |s.runs| && !Owned(s, s.at.r)
        && s.at.r !in s.cancelled && Rejected(s.at.r) !in s.log)
    && (forall r: nat :: Rejected(r) in s.log ==>
        r < |s.runs| && !Owned(s, r) && r !in s.cancelled && s.at != Offering(r))
  }

  lemma StepOwns(s: Session, a: Action)
    requires Enabled(s, a)
    ensures var t := Next(s, a);
      && |s.runs| <= |t.runs|
      && (forall r: nat :: Rejected(r) in t.log ==> Rejected(r) in s.log || (a == Offer && r == s.at.r))
      && (forall r: nat :: Owned(t, r) ==> Owned(s, r) || (a == Offer && r == s.at.r && s.slot.None?))
      && (forall r: nat :: r in t.cancelled ==> r in s.cancelled || Owned(s, r))
  {
    hide Transition;
  }

  lemma StepOffers(s: Session, a: Action)
    requires Enabled(s, a)
    ensures var t := Next(s, a);
      && (t.at.Offering? ==> t.at == s.at || (t.at.r == |s.runs| && |t.runs| == |s.runs| + 1))
      && (a == Offer ==> t.at != s.at && t.cancelled == s.cancelled)
      && (a == Offer && s.slot.None? ==> t.log == s.log + [Accepted(s.at.r)])
      && (a == Offer && s.slot.Some? ==> forall r: nat :: Owned(t, r) ==> Owned(s, r))
  {
    hide Transition;
  }

  lemma StepAdrift(s: Session, a: Action)
    requires Adrift(s) && Enabled(s, a)
    ensures Adrift(Next(s, a))
  {
    hide Next, Owned;
    StepOwns(s, a);
    StepOffers(s, a);
  }

  lemma {:induction false} RunAdrift(s: Session, run: seq<Action>, t: Session)
    requires Adrift(s) && Reaches(s, run, t)
    ensures Adrift(t)
    decreases run
  {
    hide Adrift;
    if run != [] {
      StepAdrift(s, run[0]);
      RunAdrift(Next(s, run[0]), run[1..], t);
    }
  }

  /** A rejected run is out of reach: no STOP, ABORT, heartbeat or teardown ever cancels it. */
  lemma RejectedRunsAreNeverCancelled(script: seq<Command>, run: seq<Action>, t: Session, r: nat)
    requires Reaches(Fresh(script), run, t) && Rejected(r) in t.log
    ensures r !in t.cancelled && !Owned(t, r)
  {
    hide Reaches;
    RunAdrift(Fresh(script), run, t);
  }

  // ------------------------------------------------------------- the whole session, teardown included

  function Starts(script: seq<Command>): nat {
    if script == [] then 0 else Starts(script[..|script| - 1]) + One(script[|script| - 1] == Start)
  }

  /** Two acknowledged runs execute at once. */
  ghost predicate AcknowledgedTogether(s: Session) {
    exists a, b :: 0 <= a < b < |s.runs| && Accepted(a) in s.log && Accepted(b) in s.log
      && s.runs[a] != Ended && s.runs[b] != Ended
  }

  /** As many runs as STARTs were read. */
  lemma {:induction false} RunsAreStarts(script: seq<Command>, n: nat, s: Session, run: seq<Action>, t: Session)
    requires n <= |script| && s.pending == script[n..] && |s.runs| == Starts(script[..n]) && Reaches(s, run, t)
    ensures |t.runs| <= Starts(script)
    decreases run
  {
    if run == [] {
      StartsGrow(script, n);
    } else if run[0] == Action.Command {
      assert script[..n + 1][..n] == script[..n] && script[n..][1..] == script[n + 1..];
      RunsAreStarts(script, n + 1, Next(s, run[0]), run[1..], t);
    } else {
      RunsAreStarts(script, n, Next(s, run[0]), run[1..], t);
    }
  }

  lemma {:induction false} StartsGrow(script: seq<Command>, n: nat)
    requires n <= |script|
    ensures Starts(script[..n]) <= Starts(script)
  {
    if n < |script| {
      StartsGrow(script[..|script| - 1], n);
      assert script[..|script| - 1][..n] == script[..n];
    } else {
      assert script[..n] == script;
    }
  }

  /** Two STARTs, and everything before the first and between them. */
  lemma {:induction false} TwoStarts(script: seq<Command>) returns (i: nat, j: nat)
    requires Starts(script) >= 2
    ensures i < j < |script| && script[i] == Start && script[j] == Start
    ensures Starts(script[..i]) == 0
  {
    var n := |script| - 1;
    if script[n] == Start && Starts(script[..n]) == 1 {
      i := FirstStart(script[..n]);
      assert script[..n][..i] == script[..i];
      j := n;
    } else {
      i, j := TwoStarts(script[..n]);
      assert script[..n][..i] == script[..i];
    }
  }

  lemma {:induction false} FirstStart(script: seq<Command>) returns (i: nat)
    requires Starts(script) >= 1
    ensures i < |script| && script[i] == Start && Starts(script[..i]) == 0
  {
    var n := |script| - 1;
    if Starts(script[..n]) >= 1 {
      i := FirstStart(script[..n]);
      assert script[..n][..i] == script[..i];
    } else {
      i := n;
    }
  }

  /** Before any START there is nothing in the slot, and every command passes. */
  predicate Untouched(s: Session) {
    s.at == Idle && s.teardown == NotYet && s.slot.None? && s.runs == [] && s.log == []
  }

  lemma {:induction false} DriveToStart(script: seq<Command>, n: nat) returns (run: seq<Action>, t: Session)
    requires n <= |script| && Starts(script[..n]) == 0
    ensures Reaches(Fresh(script), run, t) && t.pending == script[n..] && Untouched(t)
  {
    hide Reaches, Transition;
    if n == 0 {
      run, t := [], Fresh(script);
      Nowhere(t);
    } else {
      assert script[..n][..n - 1] == script[..n - 1];
      run, t := DriveToStart(script, n - 1);
      run, t := PassOne(Fresh(script), run, t);
    }
  }

  /** With the slot empty, a command other than START changes no run and no log. */
  lemma PassOne(s: Session, run: seq<Action>, t: Session) returns (longer: seq<Action>, u: Session)
    requires Reaches(s, run, t) && t.at == Idle && t.pending != [] && t.pending[0] != Start && t.slot.None?
    ensures Reaches(s, longer, u) && u.pending == t.pending[1..] && u.at == Idle && u.slot.None?
    ensures u.runs == t.runs && u.log == t.log && u.teardown == t.teardown
  {
    hide Reaches, Transition;
    longer, u := Act(s, run, t, Action.Command);
    match t.pending[0]
    case Stop =>
      longer, u := Act(s, longer, u, StopTake);
      longer, u := Act(s, longer, u, StopDone);
    case Abort => longer, u := Act(s, longer, u, AbortDone);
    case _ =>
  }

  /** Once the teardown has taken the first run out of the slot, the next START is accepted beside it. */
  lemma {:induction false} DriveTorn(s: Session, run: seq<Action>, t: Session, k: nat)
    returns (longer: seq<Action>, u: Session)
    requires Reaches(s, run, t) && t.at == Idle && t.slot.None? && t.teardown == Teardown.Taken(0)
    requires t.runs == [Executing] && t.log == [Accepted(0)]
    requires k < |t.pending| && t.pending[k] == Start
    ensures Reaches(s, longer, u) && u.runs == [Executing, Executing] && u.log == [Accepted(0), Accepted(1)]
    decreases k
  {
    hide Reaches, Transition;
    if t.pending[0] == Start {
      longer, u := Act(s, run, t, Action.Command);
      longer, u := Act(s, longer, u, Offer);
    } else {
      longer, u := PassOne(s, run, t);
      longer, u := DriveTorn(s, longer, u, k - 1);
    }
  }

  /** Any two STARTs can be made to run together, both acknowledged, by a teardown in between. */
  lemma TeardownLetsRunsOverlap(script: seq<Command>) returns (run: seq<Action>, t: Session)
    requires Starts(script) >= 2
    ensures Reaches(Fresh(script), run, t)
    ensures t.log == [Accepted(0), Accepted(1)] && t.runs == [Executing, Executing]
  {
    hide Reaches, Transition;
    var i, j := TwoStarts(script);
    run, t := DriveToStart(script, i);
    run, t := Act(Fresh(script), run, t, Action.Command);
    run, t := Act(Fresh(script), run, t, Offer);
    run, t := Act(Fresh(script), run, t, BeginRunning);
    run, t := Act(Fresh(script), run, t, TearTake);
    assert t.pending == script[i + 1..];
    run, t := DriveTorn(Fresh(script), run, t, j - i - 1);
  }

  /**
   Over the whole life of a session, its teardown included: at most one run executes at a time under
   every interleaving if and only if the master sends at most one START.
   */
  lemma OneRunInAll(script: seq<Command>)
    ensures Starts(script) <= 1 <==> forall run, t :: Reaches(Fresh(script), run, t) ==> AtMostOneRun(t)
  {
    hide Reaches;
    if Starts(script) <= 1 {
      forall run, t | Reaches(Fresh(script), run, t) ensures AtMostOneRun(t) {
        assert script[0..] == script && script[..0] == [];
        RunsAreStarts(script, 0, Fresh(script), run, t);
      }
    } else {
      var run, t := TeardownLetsRunsOverlap(script);
      assert t.runs[0] == Executing && t.runs[1] == Executing;
      assert !AtMostOneRun(t);
    }
  }

  /** The same condition decides whether two acknowledged runs can ever execute at once. */
  lemma AcknowledgedTogetherExactly(script: seq<Command>)
    ensures Starts(script) <= 1 <==> forall run, t :: Reaches(Fresh(script), run, t) ==> !AcknowledgedTogether(t)
  {
    hide Reaches;
    if Starts(script) <= 1 {
      forall run, t | Reaches(Fresh(script), run, t) ensures !AcknowledgedTogether(t) {
        assert script[0..] == script && script[..0] == [];
        RunsAreStarts(script, 0, Fresh(script), run, t);
      }
    } else {
      var run, t := TeardownLetsRunsOverlap(script);
      assert t.log[0] == Accepted(0) && t.log[1] == Accepted(1) && t.runs[0] == Executing && t.runs[1] == Executing;
      assert AcknowledgedTogether(t);
    }
  }

  /** The lifecycle only ever alternates between ready and running, so no transition is refused. */
  lemma {:induction false} LifecycleIsLegal(s: Session, run: seq<Action>, t: Session)
    requires (s.state == Ready || s.state == Running) && Reaches(s, run, t)
    ensures t.state == Ready || t.state == Running
    ensures forall next :: next == Ready || next == Running ==> Transition(t.state, next) == next
    decreases run
  {
    if run != [] {
      LifecycleIsLegal(Next(s, run[0]), run[1..], t);
    }
  }
}
