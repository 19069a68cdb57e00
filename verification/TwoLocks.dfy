/** The two-lock protocol between consoles and simulator threads (ptt.cc): a console holds the
    application lock for the length of a command, a simulator holds the simulation lock for the
    length of a run and takes the application lock for every step.

    The protocol is a transition system over any number of threads.  A step is the code between
    two visible actions: taking or releasing a lock, or touching the shared `sys`. */
module TwoLocks {

  datatype Command = Get | SetPc | RunSim | Stop | Quit

  /** Where a thread is.  Consoles (ptt.cc:82-143): */
  datatype Where =
    | Idle                        // waiting for the user
    | AtApp(cmd: Command)         // about to lock the application
    | Getting | Setting | SetDone // holding it, in `g` and `s`
    | Trying                      // in `r`, before the trylock
    | Starting | Started          // in `r`, holding both locks, before and after starting the thread
    | RunDone                     // in `r`, before the application lock is released
    | Stopping | StopDone         // in `S`, before and after the flag is cleared
    | AtSimStop | GotSimStop      // in `S`, about to lock the simulation, and holding it
    | Quitted
    // Simulators (ptt.cc:33-66):
    | AtSim                             // about to lock the simulation
    | LoopTop(togo: int, left: int)     // about to lock the application for a step
    | InStep(togo: int, left: int)      // holding both, before PC++
    | Counted(togo: int, left: int)     // after PC++, before the flag is tested
    | Decided(togo: int, left: int, done: bool)
    | Leaving                           // holding the simulation lock only
    | Exited

  predicate HoldsApp(w: Where) {
    || w.Getting? || w.Setting? || w.SetDone? || w.Trying? || w.Starting? || w.Started?
    || w.RunDone? || w.Stopping? || w.StopDone? || w.InStep? || w.Counted? || w.Decided?
  }

  predicate HoldsSim(w: Where) {
    || w.Starting? || w.Started? || w.GotSimStop? || w.LoopTop? || w.InStep? || w.Counted?
    || w.Decided? || w.Leaving?
  }

  /** A simulator thread. */
  predicate IsSimulator(w: Where) {
    w.AtSim? || w.LoopTop? || w.InStep? || w.Counted? || w.Decided? || w.Leaving? || w.Exited?
  }

  /** A simulator between acquiring and releasing the simulation lock. */
  predicate IsRunning(w: Where) { IsSimulator(w) && HoldsSim(w) }

  /** In the middle of something: not waiting for the user and not finished. */
  predicate IsBusy(w: Where) { !w.Idle? && !w.Quitted? && !w.Exited? }

  datatype Owner = Nobody | Thread(id: nat)

  datatype State = State(threads: map<nat, Where>, app: Owner, sim: Owner, pc: int, simulating: bool)

  /** What a step leaves open: the command typed, the number read (a new PC, or the steps to go,
      which the simulator reads from a stack frame that is gone), the id of a new thread (an id in use
      stands for a thread creation that fails). */
  datatype Choice = Choice(cmd: Command, number: int, newId: nat)

  predicate Enabled(s: State, t: nat) {
    && t in s.threads
    && match s.threads[t]
       case AtApp(_) => s.app == Nobody
       case LoopTop(_, _) => s.app == Nobody
       case AtSim => s.sim == Nobody
       case AtSimStop => s.sim == Nobody
       case Quitted => false
       case Exited => false
       case _ => true
  }

  function Goes(s: State, t: nat, w: Where): State { s.(threads := s.threads[t := w]) }

  function AfterLock(cmd: Command): Where {
    match cmd
    case Get => Getting
    case SetPc => Setting
    case RunSim => Trying
    case _ => Stopping
  }

  /** The step of an enabled thread. */
  function Step(s: State, t: nat, x: Choice): State
    requires Enabled(s, t)
  {
    match s.threads[t]
    case Idle => Goes(s, t, if x.cmd == Quit then Quitted else AtApp(x.cmd))
    case AtApp(cmd) => Goes(s, t, AfterLock(cmd)).(app := Thread(t))
    case Getting => Goes(s, t, Idle).(app := Nobody)
    case Setting => Goes(s, t, SetDone).(pc := x.number)
    case SetDone => Goes(s, t, Idle).(app := Nobody)
    case Trying => if s.sim == Nobody then Goes(s, t, Starting).(sim := Thread(t)) else Goes(s, t, RunDone)
    case Starting =>
      var s1 := s.(simulating := true);
      Goes(if x.newId in s.threads then s1 else s1.(threads := s1.threads[x.newId := AtSim]), t, Started)
    case Started => Goes(s, t, RunDone).(sim := Nobody)
    case RunDone => Goes(s, t, Idle).(app := Nobody)
    case Stopping => Goes(s, t, StopDone).(simulating := false)
    case StopDone => Goes(s, t, AtSimStop).(app := Nobody)
    case AtSimStop => Goes(s, t, GotSimStop).(sim := Thread(t))
    case GotSimStop => Goes(s, t, Idle).(sim := Nobody)
    case AtSim => Goes(s, t, LoopTop(x.number, x.number)).(sim := Thread(t))
    case LoopTop(togo, left) => Goes(s, t, InStep(togo, left)).(app := Thread(t))
    case InStep(togo, left) => Goes(s, t, Counted(togo, left)).(pc := s.pc + 1)
    case Counted(togo, left) => Goes(s, t, Tested(togo, left, s.simulating))
    case Decided(togo, left, done) => Goes(s, t, if done then Leaving else LoopTop(togo, left)).(app := Nobody)
    case Leaving => Goes(s, t, Exited).(sim := Nobody)
    case _ => s
  }

  /** The end of a simulation step (ptt.cc:46-60): the count of steps left goes down, and what it says
      about being done is overwritten by the test of the flag. */
  function Tested(togo: int, left: int, simulating: bool): Where {
    Decided(togo, if togo > 0 then left - 1 else left, !simulating)
  }

  // ----- runs -----

  predicate Initial(s: State) {
    && s.app == Nobody && s.sim == Nobody && !s.simulating
    && forall t :: t in s.threads ==> s.threads[t] == Idle
  }

  /** A run: the states it goes through and the step between each two of them. */
  datatype Run = Run(states: seq<State>, who: seq<nat>, how: seq<Choice>)

  ghost predicate IsRun(r: Run) {
    && |r.states| == |r.who| + 1 == |r.how| + 1
    && forall i :: 0 <= i < |r.who| ==>
         Enabled(r.states[i], r.who[i]) && r.states[i + 1] == Step(r.states[i], r.who[i], r.how[i])
  }

  // ----- the invariant -----

  /** The recorded owner of each lock is the thread whose place in the code says it holds it. */
  ghost predicate Inv(s: State) {
    && (forall t :: t in s.threads ==>
          && (HoldsApp(s.threads[t]) <==> s.app == Thread(t))
          && (HoldsSim(s.threads[t]) <==> s.sim == Thread(t)))
    && (s.app.Thread? ==> s.app.id in s.threads)
    && (s.sim.Thread? ==> s.sim.id in s.threads)
  }

  /** A lock changes hands only between `t` and nobody. */
  predicate HandsOver(o: Owner, o': Owner, t: nat) {
    o' == o || (o == Nobody && o' == Thread(t)) || (o == Thread(t) && o' == Nobody)
  }

  lemma MoveKeepsInv(s: State, s': State, t: nat, w: Where)
    requires Inv(s) && t in s.threads && s'.threads == s.threads[t := w]
    requires HandsOver(s.app, s'.app, t) && (HoldsApp(w) <==> s'.app == Thread(t))
    requires HandsOver(s.sim, s'.sim, t) && (HoldsSim(w) <==> s'.sim == Thread(t))
    ensures Inv(s')
  {
    hide HoldsApp, HoldsSim;
  }

  lemma SpawnKeepsInv(s: State, u: nat)
    requires Inv(s) && u !in s.threads
    ensures Inv(s.(threads := s.threads[u := AtSim], simulating := true))
  {
  }

  lemma StepKeepsInv(s: State, t: nat, x: Choice)
    requires Inv(s) && Enabled(s, t)
    ensures Inv(Step(s, t, x))
  {
    var s' := Step(s, t, x);
    if s.threads[t].Starting? && x.newId !in s.threads {
      SpawnKeepsInv(s, x.newId);
      MoveKeepsInv(s.(threads := s.threads[x.newId := AtSim], simulating := true), s', t, Started);
    } else {
      MoveIsLocal(s, t, x);
      MoveKeepsInv(s, s', t, s'.threads[t]);
    }
  }

  lemma MoveIsLocal(s: State, t: nat, x: Choice)
    requires Enabled(s, t) && !(s.threads[t].Starting? && x.newId !in s.threads)
    requires (HoldsApp(s.threads[t]) <==> s.app == Thread(t)) && (HoldsSim(s.threads[t]) <==> s.sim == Thread(t))
    ensures var s' := Step(s, t, x);
      && t in s'.threads && s'.threads == s.threads[t := s'.threads[t]]
      && HandsOver(s.app, s'.app, t) && (HoldsApp(s'.threads[t]) <==> s'.app == Thread(t))
      && HandsOver(s.sim, s'.sim, t) && (HoldsSim(s'.threads[t]) <==> s'.sim == Thread(t))
  {
  }

  lemma {:induction false} InvLasts(r: Run, i: nat)
    requires IsRun(r) && Inv(r.states[0]) && i < |r.states|
    ensures Inv(r.states[i])
  {
    hide Step, Enabled, Inv;
    if i > 0 {
      InvLasts(r, i - 1);
      StepKeepsInv(r.states[i - 1], r.who[i - 1], r.how[i - 1]);
    }
  }

  lemma RunsKeepInv(r: Run, i: nat)
    requires IsRun(r) && Initial(r.states[0]) && i < |r.states|
    ensures Inv(r.states[i])
  {
    InvLasts(r, i);
  }

  // ----- what the locks protect -----

  /** The program counter is counted up only by a simulator that holds both locks, and set only by a
      console that holds the application lock; at most one simulator is running. */
  lemma PcIsProtected(r: Run, i: nat)
    requires IsRun(r) && Initial(r.states[0]) && i < |r.who|
    ensures var s, s', t := r.states[i], r.states[i + 1], r.who[i];
      s'.pc != s.pc ==>
        && s.app == Thread(t)
        && (IsSimulator(s.threads[t]) ==> s.sim == Thread(t) && s'.pc == s.pc + 1)
        && (!IsSimulator(s.threads[t]) ==> s.threads[t].Setting? && s'.pc == r.how[i].number)
  {
    RunsKeepInv(r, i);
  }

  /** Step `k` of the run counts, or sets, the program counter. */
  predicate CountsAt(r: Run, k: nat)
    requires k < |r.who| < |r.states|
  {
    r.who[k] in r.states[k].threads && r.states[k].threads[r.who[k]].InStep?
  }

  predicate SetsAt(r: Run, k: nat)
    requires k < |r.who| < |r.states|
  {
    r.who[k] in r.states[k].threads && r.states[k].threads[r.who[k]].Setting?
  }

  /** The steps up to and including the last one that sets; 0 if none does. */
  function LastSet(r: Run, n: nat): (m: nat)
    requires n <= |r.who| < |r.states|
    ensures m <= n
  {
    if n == 0 then 0 else if SetsAt(r, n - 1) then n else LastSet(r, n - 1)
  }

  /** The steps from `m` to `n` that count. */
  function CountsIn(r: Run, m: nat, n: nat): nat
    requires m <= n <= |r.who| < |r.states|
  {
    if n == m then 0 else CountsIn(r, m, n - 1) + if CountsAt(r, n - 1) then 1 else 0
  }

  /** The program counter is the last number that a console set, or the first one, plus the simulation
      steps since. */
  lemma {:induction false} PcIsSetPlusCounts(r: Run, n: nat)
    requires IsRun(r) && n <= |r.who|
    ensures var m := LastSet(r, n);
      r.states[n].pc == (if m == 0 then r.states[0].pc else r.how[m - 1].number) + CountsIn(r, m, n)
  {
    hide Step;
    if n > 0 {
      PcIsSetPlusCounts(r, n - 1);
      assert r.states[n] == Step(r.states[n - 1], r.who[n - 1], r.how[n - 1]);
      PcStep(r.states[n - 1], r.who[n - 1], r.how[n - 1]);
    }
  }

  lemma PcStep(s: State, t: nat, x: Choice)
    requires Enabled(s, t)
    ensures Step(s, t, x).pc == match s.threads[t]
                                case Setting => x.number
                                case InStep(_, _) => s.pc + 1
                                case _ => s.pc
  {
  }

  // ----- what the commands do -----

  /** Step `k` of the run starts a simulator, or clears the flag. */
  predicate FlagsAt(r: Run, k: nat)
    requires k < |r.who| < |r.states|
  {
    var s := r.states[k];
    r.who[k] in s.threads && (s.threads[r.who[k]].Starting? || s.threads[r.who[k]].Stopping?)
  }

  function LastFlag(r: Run, n: nat): (m: nat)
    requires n <= |r.who| < |r.states|
    ensures m <= n
  {
    if n == 0 then 0 else if FlagsAt(r, n - 1) then n else LastFlag(r, n - 1)
  }

  /** The flag is up exactly if the last command to touch it was a run that got the simulation lock. */
  lemma {:induction false} FlagIsLastCommand(r: Run, n: nat)
    requires IsRun(r) && n <= |r.who|
    ensures var m := LastFlag(r, n);
      r.states[n].simulating ==
        if m == 0 then r.states[0].simulating
        else r.who[m - 1] in r.states[m - 1].threads && r.states[m - 1].threads[r.who[m - 1]].Starting?
  {
    hide Step;
    if n > 0 {
      FlagIsLastCommand(r, n - 1);
      FlagStep(r.states[n - 1], r.who[n - 1], r.how[n - 1]);
      assert r.states[n] == Step(r.states[n - 1], r.who[n - 1], r.how[n - 1]);
    }
  }

  lemma FlagStep(s: State, t: nat, x: Choice)
    requires Enabled(s, t)
    ensures Step(s, t, x).simulating == match s.threads[t]
                                        case Starting => true
                                        case Stopping => false
                                        case _ => s.simulating
  {
  }

  datatype Action = TakeApp | FreeApp | TakeSim | FreeSim | FindSimTaken | ReadPc | WritePc | Launch | Clear

  /** What an action does to the shared state. */
  predicate Acts(a: Action, s: State, s': State, t: nat, x: Choice) {
    match a
    case TakeApp => s.app == Nobody && s'.app == Thread(t) && s' == s.(app := s'.app, threads := s'.threads)
    case FreeApp => s'.app == Nobody && s' == s.(app := s'.app, threads := s'.threads)
    case TakeSim => s.sim == Nobody && s'.sim == Thread(t) && s' == s.(sim := s'.sim, threads := s'.threads)
    case FreeSim => s'.sim == Nobody && s' == s.(sim := s'.sim, threads := s'.threads)
    case FindSimTaken => s.sim != Nobody && s' == s.(threads := s'.threads)
    case ReadPc => s'.app == Nobody && s' == s.(app := s'.app, threads := s'.threads)
    case WritePc => s'.pc == x.number && s' == s.(pc := s'.pc, threads := s'.threads)
    case Launch =>
      && s'.simulating && s' == s.(simulating := true, threads := s'.threads)
      && (x.newId !in s.threads ==> x.newId in s'.threads && s'.threads[x.newId] == AtSim)
    case Clear => !s'.simulating && s' == s.(simulating := false, threads := s'.threads)
  }

  /** The commands as the console runs them (ptt.cc:82-143); `free` says whether the simulation lock was
      free when a run tried it. */
  function Script(cmd: Command, free: bool): seq<Action> {
    match cmd
    case Get => [TakeApp, ReadPc]
    case SetPc => [TakeApp, WritePc, FreeApp]
    case RunSim => if free then [TakeApp, TakeSim, Launch, FreeSim, FreeApp] else [TakeApp, FindSimTaken, FreeApp]
    case Stop => [TakeApp, Clear, FreeApp, TakeSim, FreeSim]
    case Quit => []
  }

  /** Where a console is after `p` actions of a command. */
  function PlaceIn(cmd: Command, free: bool, p: nat): Where
    requires cmd != Quit && p <= |Script(cmd, free)|
  {
    if p == 0 then AtApp(cmd)
    else if p == |Script(cmd, free)| then Idle
    else
      match cmd
      case Get => Getting
      case SetPc => if p == 1 then Setting else SetDone
      case RunSim =>
        if p == 1 then Trying else if !free || p == 4 then RunDone else if p == 2 then Starting else Started
      case _ => if p == 1 then Stopping else if p == 2 then StopDone else if p == 3 then AtSimStop else GotSimStop
  }

  /** A console starts the command that was typed. */
  lemma TypedCommandStarts(s: State, t: nat, x: Choice)
    requires Enabled(s, t) && s.threads[t].Idle?
    ensures Step(s, t, x) == s.(threads := s.threads[t := if x.cmd == Quit then Quitted else PlaceIn(x.cmd, true, 0)])
  {
  }

  /** And then makes the actions of its script, one a step, in order. */
  lemma CommandFollowsScript(s: State, t: nat, x: Choice, cmd: Command, free: bool, p: nat)
    requires Enabled(s, t) && cmd != Quit && p < |Script(cmd, free)| && s.threads[t] == PlaceIn(cmd, free, p)
    requires s.threads[t].Trying? ==> free == (s.sim == Nobody)
    ensures var s' := Step(s, t, x);
      && Acts(Script(cmd, free)[p], s, s', t, x)
      && t in s'.threads && s'.threads[t] == PlaceIn(cmd, free, p + 1)
  {
  }

  /** Simulation steps that thread `t` has finished. */
  function Finished(r: Run, t: nat, n: nat): nat
    requires n <= |r.who| < |r.states|
  {
    if n == 0 then 0
    else
      var s := r.states[n - 1];
      Finished(r, t, n - 1) + if r.who[n - 1] == t && t in s.threads && s.threads[t].Counted? then 1 else 0
  }

  /** The steps to go are counted, if a positive number was read, though nothing comes of it. */
  predicate LeftIs(w: Where, finished: nat) {
    match w
    case LoopTop(togo, left) => left == togo - if togo > 0 then finished else 0
    case InStep(togo, left) => left == togo - if togo > 0 then finished else 0
    case Counted(togo, left) => left == togo - if togo > 0 then finished else 0
    case Decided(togo, left, _) => left == togo - if togo > 0 then finished else 0
    case AtSim => finished == 0
    case _ => true
  }

  lemma {:induction false} StepsToGo(r: Run, t: nat, n: nat)
    requires IsRun(r) && n <= |r.who| && t in r.states[0].threads && r.states[0].threads[t] == AtSim
    ensures t in r.states[n].threads && IsSimulator(r.states[n].threads[t])
    ensures LeftIs(r.states[n].threads[t], Finished(r, t, n))
  {
    hide Step;
    if n > 0 {
      StepsToGo(r, t, n - 1);
      var s, u := r.states[n - 1], r.who[n - 1];
      assert r.states[n] == Step(s, u, r.how[n - 1]);
      if u == t {
        LeftStep(s, t, r.how[n - 1], Finished(r, t, n - 1));
      } else {
        OthersStay(s, u, r.how[n - 1], t);
      }
    }
  }

  lemma LeftStep(s: State, t: nat, x: Choice, finished: nat)
    requires Enabled(s, t) && IsSimulator(s.threads[t]) && LeftIs(s.threads[t], finished)
    ensures var s' := Step(s, t, x);
      && t in s'.threads && IsSimulator(s'.threads[t])
      && LeftIs(s'.threads[t], finished + if s.threads[t].Counted? then 1 else 0)
  {
  }

  lemma OneSimulatorRuns(r: Run, i: nat, t: nat, u: nat)
    requires IsRun(r) && Initial(r.states[0]) && i < |r.states|
    requires t in r.states[i].threads && u in r.states[i].threads
    requires IsRunning(r.states[i].threads[t]) && IsRunning(r.states[i].threads[u])
    ensures t == u
  {
    RunsKeepInv(r, i);
  }

  /** A stop command that got the simulation lock has waited for the run to end. */
  lemma StopMeansStopped(r: Run, i: nat, t: nat, u: nat)
    requires IsRun(r) && Initial(r.states[0]) && i < |r.states|
    requires t in r.states[i].threads && r.states[i].threads[t].GotSimStop?
    requires u in r.states[i].threads
    ensures !IsRunning(r.states[i].threads[u])
  {
    RunsKeepInv(r, i);
  }

  // ----- no deadlock -----

  /** The holder of the application lock never waits for a lock. */
  lemma AppHolderIsEnabled(s: State, t: nat)
    requires Inv(s) && s.app == Thread(t)
    ensures Enabled(s, t) && IsBusy(s.threads[t])
  {
  }

  /** Whenever some thread is in the middle of something, such a thread can make a step. */
  lemma NoDeadlock(r: Run, i: nat)
    requires IsRun(r) && Initial(r.states[0]) && i < |r.states|
    requires exists t :: t in r.states[i].threads && IsBusy(r.states[i].threads[t])
    ensures exists t :: Enabled(r.states[i], t) && IsBusy(r.states[i].threads[t])
  {
    RunsKeepInv(r, i);
    BusyThreadCanGo(r.states[i]);
  }

  lemma BusyThreadCanGo(s: State)
    requires Inv(s) && exists t :: t in s.threads && IsBusy(s.threads[t])
    ensures exists t :: Enabled(s, t) && IsBusy(s.threads[t])
  {
    var t :| t in s.threads && IsBusy(s.threads[t]);
    if s.app != Nobody {
      AppHolderIsEnabled(s, s.app.id);
    } else if !Enabled(s, t) {
      // it waits for the simulation lock, whose holder does not wait for it
      var h := s.sim.id;
      assert HoldsSim(s.threads[h]) && Enabled(s, h) && IsBusy(s.threads[h]);
    }
  }

  // ----- a stop is bounded -----

  /** How often a simulator can still count while the flag stays cleared. */
  function CountsLeft(w: Where): nat {
    if w.AtSim? || w.LoopTop? || w.InStep? || (w.Decided? && !w.done) then 1 else 0
  }

  /** How many steps it can still make while the flag stays cleared. */
  function StepsLeft(w: Where): nat {
    match w
    case AtSim => 6
    case Decided(_, _, done) => if done then 2 else 6
    case LoopTop(_, _) => 5
    case InStep(_, _) => 4
    case Counted(_, _) => 3
    case Leaving => 1
    case _ => 0
  }

  /** The flag is cleared in all states of the run up to `n`. */
  ghost predicate Stopped(r: Run, n: nat) {
    IsRun(r) && n < |r.states| && forall i :: 0 <= i <= n ==> !r.states[i].simulating
  }

  /** How many of the first `n` steps thread `t` made, and how many of them counted. */
  function StepsBy(r: Run, t: nat, n: nat): nat
    requires n <= |r.who|
  {
    if n == 0 then 0 else StepsBy(r, t, n - 1) + if r.who[n - 1] == t then 1 else 0
  }

  function CountsBy(r: Run, t: nat, n: nat): nat
    requires n <= |r.who| && |r.states| == |r.who| + 1
  {
    if n == 0 then 0
    else
      var s := r.states[n - 1];
      CountsBy(r, t, n - 1) +
      if r.who[n - 1] == t && t in s.threads && s.threads[t].InStep? then 1 else 0
  }

  lemma StoppedStep(s: State, t: nat, x: Choice, u: nat)
    requires Enabled(s, t) && u in s.threads && IsSimulator(s.threads[u])
    requires !s.simulating && !Step(s, t, x).simulating
    ensures var s' := Step(s, t, x);
      && u in s'.threads && IsSimulator(s'.threads[u])
      && (if t == u
          then StepsLeft(s'.threads[u]) + 1 == StepsLeft(s.threads[u]) &&
               CountsLeft(s'.threads[u]) + (if s.threads[u].InStep? then 1 else 0) <= CountsLeft(s.threads[u])
          else s'.threads[u] == s.threads[u])
  {
  }

  /** Once the flag is cleared and stays so, whatever its number of steps to go, a live simulator
      counts at most once more and makes at most six more steps; then it has exited. */
  lemma {:induction false} StopIsBounded(r: Run, t: nat, n: nat)
    requires Stopped(r, n) && t in r.states[0].threads && IsSimulator(r.states[0].threads[t])
    ensures t in r.states[n].threads && IsSimulator(r.states[n].threads[t])
    ensures CountsBy(r, t, n) + CountsLeft(r.states[n].threads[t]) <= CountsLeft(r.states[0].threads[t]) <= 1
    ensures StepsBy(r, t, n) + StepsLeft(r.states[n].threads[t]) == StepsLeft(r.states[0].threads[t]) <= 6
    ensures StepsLeft(r.states[n].threads[t]) == 0 <==> r.states[n].threads[t].Exited?
  {
    hide Step;
    if n > 0 {
      StopIsBounded(r, t, n - 1);
      StoppedStep(r.states[n - 1], r.who[n - 1], r.how[n - 1], t);
    }
  }

  lemma OthersStay(s: State, t: nat, x: Choice, u: nat)
    requires Enabled(s, t) && u in s.threads && u != t
    ensures u in Step(s, t, x).threads && Step(s, t, x).threads[u] == s.threads[u]
  {
  }

  /** Thread `t` makes no step from `i` up to `j`. */
  ghost predicate Waits(r: Run, t: nat, i: nat, j: nat) {
    i <= j <= |r.who| && forall k :: i <= k < j ==> r.who[k] != t
  }

  lemma {:induction false} WaitingStays(r: Run, t: nat, i: nat, j: nat)
    requires IsRun(r) && Waits(r, t, i, j) && t in r.states[i].threads
    ensures t in r.states[j].threads && r.states[j].threads[t] == r.states[i].threads[t]
    decreases j
  {
    hide Step, Enabled;
    if i < j {
      WaitingStays(r, t, i, j - 1);
      OthersStay(r.states[j - 1], r.who[j - 1], r.how[j - 1], t);
    }
  }

  /** A simulator leaves its loop after a step if and only if the flag was clear when it tested it, in
      step `i`, whatever its number of steps to go and whatever others do before its next step `j`. */
  lemma LeavesIffCleared(r: Run, t: nat, i: nat, j: nat)
    requires IsRun(r) && i < j < |r.who| && r.who[i] == t == r.who[j] && Waits(r, t, i + 1, j)
    requires r.states[i].threads[t].Counted?
    ensures t in r.states[j + 1].threads
    ensures r.states[j + 1].threads[t] == Leaving <==> !r.states[i].simulating
    ensures r.states[j + 1].threads[t].LoopTop? <==> r.states[i].simulating
  {
    WaitingStays(r, t, i + 1, j);
  }

  /** So when a stopped system has come to rest, every simulator has exited and both locks are
      free. */
  lemma RestMeansExited(r: Run, i: nat, t: nat)
    requires IsRun(r) && Initial(r.states[0]) && i < |r.states|
    requires forall u :: Enabled(r.states[i], u) ==> !IsBusy(r.states[i].threads[u])
    requires t in r.states[i].threads
    ensures IsSimulator(r.states[i].threads[t]) ==> r.states[i].threads[t].Exited?
    ensures r.states[i].app == Nobody && r.states[i].sim == Nobody
  {
    RunsKeepInv(r, i);
    var s := r.states[i];
    if exists u :: u in s.threads && IsBusy(s.threads[u]) {
      BusyThreadCanGo(s);
      assert false;
    }
  }

  // ----- the whole system comes to rest -----

  /** How many steps a thread can still make, while the flag stays cleared, until it waits for the
      user or has finished. */
  function Rank(w: Where): nat {
    match w
    case AtApp(cmd) => if cmd == Get then 2 else if cmd == SetPc then 3 else 5
    case Getting => 1
    case Setting => 2
    case SetDone => 1
    case Trying => 4
    case Starting => 3
    case Started => 2
    case RunDone => 1
    case Stopping => 4
    case StopDone => 3
    case AtSimStop => 2
    case GotSimStop => 1
    case _ => StepsLeft(w)
  }

  ghost function Total(m: map<nat, Where>): nat
    decreases |m|
  {
    if m == map[] then 0
    else
      var t :| t in m;
      assert |(m - {t}).Keys| < |m.Keys|;
      Rank(m[t]) + Total(m - {t})
  }

  lemma {:induction false} TotalWithout(m: map<nat, Where>, t: nat)
    requires t in m
    ensures Total(m) == Rank(m[t]) + Total(m - {t})
    decreases |m|
  {
    var u :| u in m && Total(m) == Rank(m[u]) + Total(m - {u});
    if u != t {
      TotalWithout(m - {u}, t);
      TotalWithout(m - {t}, u);
      assert m - {u} - {t} == m - {t} - {u};
    }
  }

  lemma TotalUpdate(m: map<nat, Where>, t: nat, w: Where)
    requires t in m
    ensures Total(m[t := w]) == Total(m) - Rank(m[t]) + Rank(w)
  {
    TotalWithout(m, t);
    TotalWithout(m[t := w], t);
    assert m[t := w] - {t} == m - {t};
  }

  lemma BusyStepLowersTotal(s: State, t: nat, x: Choice)
    requires Enabled(s, t) && !s.threads[t].Idle? && !Step(s, t, x).simulating
    ensures Total(Step(s, t, x).threads) < Total(s.threads)
  {
    var s' := Step(s, t, x);
    assert t in s'.threads && s'.threads == s.threads[t := s'.threads[t]];
    assert Rank(s'.threads[t]) < Rank(s.threads[t]);
    TotalUpdate(s.threads, t, s'.threads[t]);
  }

  /** No console takes a new command. */
  ghost predicate NoCommands(r: Run, n: nat) {
    n <= |r.who| < |r.states| && forall i :: 0 <= i < n ==>
      r.who[i] in r.states[i].threads && !r.states[i].threads[r.who[i]].Idle?
  }

  /** Once the flag is cleared and stays so, and no console takes a new command, the whole system makes
      at most as many steps as its threads' ranks add up to. */
  lemma {:induction false} SystemIsBounded(r: Run, n: nat)
    requires Stopped(r, n) && NoCommands(r, n)
    ensures n + Total(r.states[n].threads) <= Total(r.states[0].threads)
  {
    hide Step, Rank, Total;
    if n > 0 {
      SystemIsBounded(r, n - 1);
      assert r.states[n] == r.states[n - 1 + 1] && !r.states[n].simulating;
      BusyStepLowersTotal(r.states[n - 1], r.who[n - 1], r.how[n - 1]);
    }
  }

  /** So it comes to a state in which no busy thread can go on, and there nobody is busy: every stop
      command has returned, every simulator has exited. */
  lemma StopReturns(r: Run, n: nat, t: nat)
    requires Stopped(r, n) && NoCommands(r, n) && Inv(r.states[0])
    requires forall u :: Enabled(r.states[n], u) ==> !IsBusy(r.states[n].threads[u])
    requires t in r.states[n].threads
    ensures n <= Total(r.states[0].threads) && !IsBusy(r.states[n].threads[t])
  {
    SystemIsBounded(r, n);
    InvLasts(r, n);
    if IsBusy(r.states[n].threads[t]) {
      BusyThreadCanGo(r.states[n]);
      assert false;
    }
  }
}
