/**
  Every interleaving of the scheduler: what the semaphore and the wait group count,
  what it means that Start has returned, and why cancelling always gets it there.
*/
module SchedulerRuns {
  import opened Common
  import opened Scheduler

  ghost function Total(checks: seq<Check>, f: CheckPc -> nat): nat {
    if checks == [] then 0 else Total(Front(checks), f) + f(Last(checks).pc)
  }

  lemma {:induction false} TotalUpdate(checks: seq<Check>, i: nat, c: Check, f: CheckPc -> nat)
    requires i < |checks|
    ensures Total(checks[i := c], f) == Total(checks, f) - f(checks[i].pc) + f(c.pc)
  {
    if i == |checks| - 1 {
      assert Front(checks[i := c]) == Front(checks);
    } else {
      assert Front(checks[i := c]) == Front(checks)[i := c];
      TotalUpdate(Front(checks), i, c, f);
    }
  }

  lemma {:induction false} TotalZero(checks: seq<Check>, f: CheckPc -> nat, i: nat)
    requires i < |checks|
    ensures f(checks[i].pc) <= Total(checks, f)
  {
    if i < |checks| - 1 {
      TotalZero(Front(checks), f, i);
    }
  }

  lemma {:induction false} TotalPositive(checks: seq<Check>, f: CheckPc -> nat) returns (i: nat)
    requires Total(checks, f) > 0
    ensures i < |checks| && f(checks[i].pc) > 0
  {
    if f(Last(checks).pc) > 0 {
      i := |checks| - 1;
    } else {
      i := TotalPositive(Front(checks), f);
    }
  }

  function Holds(pc: CheckPc): nat {
    if pc in {Holding, Running, Releasing} then 1 else 0
  }

  function Lives(pc: CheckPc): nat {
    if pc == Gone then 0 else 1
  }

  function WatcherLives(w: WatcherPc): nat {
    if w == NotStarted || w == WatcherGone then 0 else 1
  }

  /** Calls of wg.Add whose goroutine has not been started yet. */
  function Promised(s: State): nat {
    (if s.main == Spawning then 1 else 0) + (if s.watcher.Going? then 1 else 0)
  }

  function TargetsOf(checks: seq<Check>): seq<Target> {
    seq(|checks|, i requires 0 <= i < |checks| => checks[i].target)
  }

  /** The checks started since `start`, followed by `todo`, are `all`. */
  ghost predicate Covers(checks: seq<Check>, start: nat, todo: seq<Target>, all: seq<Target>) {
    start <= |checks| && TargetsOf(checks[start..]) + todo == all
  }

  /** `all` holds every target exactly once. */
  ghost predicate Enumerates(targets: map<string, Target>, all: seq<Target>) {
    exists keys :: Ordered(keys, targets) && Picks(keys, targets, all)
  }

  ghost predicate Picks(keys: seq<string>, targets: map<string, Target>, all: seq<Target>) {
    |all| == |keys| && forall i | 0 <= i < |keys| :: keys[i] in targets && all[i] == targets[keys[i]]
  }

  /** The checks started by a pass so far, and the targets it has left, are the targets it set out with. */
  ghost predicate PassOnTrack(s: State) {
    InPass(s.watcher) ==>
      var p := s.watcher.pass;
      && Covers(s.checks, p.start, p.todo, p.all) && Enumerates(s.targets, p.all)
      && (!s.watcher.Iterating? ==> p.todo != [])
  }

  ghost predicate Phases(s: State) {
    && (s.main in {Init, Spawning} <==> s.watcher == NotStarted)
    && (s.watcher == NotStarted ==> s.checks == [])
    && (s.shutdown <==> s.main in {Joining, Returned})
    && (s.main in {Closing, Joining, Returned} ==> s.cancelled)
    && (s.main == Returned ==> s.group == 0)
  }

  ghost predicate Inv(capacity: nat, s: State) {
    && s.semaphore == Total(s.checks, Holds) && s.semaphore <= capacity
    && s.group == Promised(s) + WatcherLives(s.watcher) + Total(s.checks, Lives)
    && Phases(s) && PassOnTrack(s)
  }

  /** A step of a check moves one goroutine on. */
  lemma CheckKeepsInv(capacity: nat, s: State, i: nat, pc: CheckPc)
    requires i < |s.checks|
    ensures var s' := Move(s, i, pc);
            && Total(s'.checks, Holds) == Total(s.checks, Holds) - Holds(s.checks[i].pc) + Holds(pc)
            && Total(s'.checks, Lives) == Total(s.checks, Lives) - Lives(s.checks[i].pc) + Lives(pc)
            && (forall start, todo, all :: Covers(s.checks, start, todo, all) ==> Covers(s'.checks, start, todo, all))
  {
    TotalUpdate(s.checks, i, s.checks[i].(pc := pc), Holds);
    TotalUpdate(s.checks, i, s.checks[i].(pc := pc), Lives);
    forall start: nat, todo, all | Covers(s.checks, start, todo, all)
      ensures Covers(Move(s, i, pc).checks, start, todo, all)
    {
      assert TargetsOf(Move(s, i, pc).checks[start..]) == TargetsOf(s.checks[start..]);
    }
  }

  predicate IsCheckStep(step: Step) {
    || step.Acquire? || step.GiveUp? || step.JitterOver? || step.JitterStop? || step.Finish? || step.Release?
    || step.CheckDone?
  }

  lemma CheckStepKeepsInv(capacity: nat, s: State, step: Step)
    requires Inv(capacity, s) && Enabled(capacity, s, step) && IsCheckStep(step)
    ensures Inv(capacity, Do(capacity, s, step))
  {
    var s' := Do(capacity, s, step);
    CheckKeepsInv(capacity, s, step.i, s'.checks[step.i].pc);
    TotalZero(s.checks, Lives, step.i);
  }

  lemma TickKeepsInv(capacity: nat, s: State, keys: seq<string>)
    requires Inv(capacity, s) && Enabled(capacity, s, Tick(keys))
    ensures Inv(capacity, Do(capacity, s, Tick(keys)))
  {
    KeysKnown(keys, s.targets);
    var all := Values(keys, s.targets);
    assert Picks(keys, s.targets, all);
    assert s.checks[|s.checks|..] == [] && TargetsOf([]) + all == all;
  }

  lemma CoversNext(checks: seq<Check>, start: nat, todo: seq<Target>, all: seq<Target>)
    requires Covers(checks, start, todo, all) && todo != []
    ensures Covers(checks + [Check(todo[0], Acquiring)], start, todo[1..], all)
  {
  }

  lemma TotalNext(checks: seq<Check>, c: Check, f: CheckPc -> nat)
    ensures Total(checks + [c], f) == Total(checks, f) + f(c.pc)
  {
  }

  lemma SpawnKeepsInv(capacity: nat, s: State)
    requires Inv(capacity, s) && Enabled(capacity, s, PassGo)
    ensures Inv(capacity, Do(capacity, s, PassGo))
  {
    var p := s.watcher.pass;
    CoversNext(s.checks, p.start, p.todo, p.all);
    TotalNext(s.checks, Check(p.todo[0], Acquiring), Holds);
    TotalNext(s.checks, Check(p.todo[0], Acquiring), Lives);
  }

  lemma StepKeepsInv(capacity: nat, s: State, step: Step)
    requires Inv(capacity, s) && Enabled(capacity, s, step)
    ensures Inv(capacity, Do(capacity, s, step))
  {
    if IsCheckStep(step) {
      CheckStepKeepsInv(capacity, s, step);
    } else if step.Tick? {
      TickKeepsInv(capacity, s, step.keys);
    } else if step.PassGo? {
      SpawnKeepsInv(capacity, s);
    }
  }

  /** In every interleaving, the semaphore and the wait group count exactly the goroutines they should. */
  lemma {:induction false} RunKeepsInv(capacity: nat, states: seq<State>, steps: seq<Step>, n: nat)
    requires IsRun(capacity, states, steps) && n <= |steps|
    ensures Inv(capacity, states[n])
  {
    if n > 0 {
      RunKeepsInv(capacity, states, steps, n - 1);
      assert Next(capacity, states[n - 1], steps[n - 1], states[n]);
      StepKeepsInv(capacity, states[n - 1], steps[n - 1]);
    } else {
      assert TargetsOf([]) == [];
    }
  }

  /** No more checks than the capacity are past the semaphore at any time. */
  lemma ConcurrencyBounded(capacity: nat, states: seq<State>, steps: seq<Step>, n: nat)
    requires IsRun(capacity, states, steps) && n <= |steps|
    ensures states[n].semaphore == Total(states[n].checks, Holds) <= capacity
  {
    RunKeepsInv(capacity, states, steps, n);
  }

  /** A pass that is not interrupted starts exactly one check per target, in the order of its iteration. */
  lemma PassStartsEveryTarget(capacity: nat, states: seq<State>, steps: seq<Step>, n: nat)
    requires IsRun(capacity, states, steps) && n < |steps| && steps[n] == PassDone
    ensures var s := states[n];
            && s.watcher.Iterating? && s.watcher.pass.start <= |s.checks|
            && Enumerates(s.targets, TargetsOf(s.checks[s.watcher.pass.start..]))
            && |s.checks| - s.watcher.pass.start == |s.targets|
            && forall k | k in s.targets :: s.targets[k] in TargetsOf(s.checks[s.watcher.pass.start..])
  {
    var s := states[n];
    RunKeepsInv(capacity, states, steps, n);
    assert Next(capacity, s, steps[n], states[n + 1]);
    var started := TargetsOf(s.checks[s.watcher.pass.start..]);
    assert started + [] == started;
    EachOnce(s.targets, started);
  }

  lemma EachOnce(targets: map<string, Target>, all: seq<Target>)
    requires Enumerates(targets, all)
    ensures |all| == |targets| && forall k | k in targets :: targets[k] in all
  {
    var keys :| Ordered(keys, targets) && Picks(keys, targets, all);
    assert |multiset(keys)| == |multiset(targets.Keys)|;
    forall k | k in targets
      ensures targets[k] in all
    {
      assert k in multiset(keys);
      var i :| 0 <= i < |keys| && keys[i] == k;
      assert all[i] == targets[k];
    }
  }

  /** wg.Add is never called on a group that Start may already have seen empty. */
  lemma AddNeverRacesWait(capacity: nat, states: seq<State>, steps: seq<Step>, n: nat)
    requires IsRun(capacity, states, steps) && n < |steps| && steps[n] == PassAdd
    ensures states[n].group > 0 && states[n].main != Returned
  {
    RunKeepsInv(capacity, states, steps, n);
    assert Next(capacity, states[n], steps[n], states[n + 1]);
  }

  // ----- what becomes of a check -----

  /** The steps of a run that are taken by check `i`. */
  predicate TakenBy(step: Step, i: nat) {
    step in {Acquire(i), GiveUp(i), JitterOver(i), JitterStop(i), Finish(i), Release(i), CheckDone(i)}
  }

  function Course(steps: seq<Step>, n: nat, i: nat): seq<Step>
    requires n <= |steps|
  {
    if n == 0 then [] else Course(steps, n - 1, i) + if TakenBy(steps[n - 1], i) then [steps[n - 1]] else []
  }

  /** The only ways for a check to get where it is: it executes once, or gives up and never does. */
  predicate Reaches(path: seq<Step>, i: nat, pc: CheckPc) {
    var executed, skipped := [Acquire(i), JitterOver(i), Finish(i)], [Acquire(i), JitterStop(i)];
    match pc
    case Acquiring => path == []
    case Holding => path == [Acquire(i)]
    case Running => path == [Acquire(i), JitterOver(i)]
    case Releasing => path == executed || path == skipped
    case Ending => path == executed + [Release(i)] || path == skipped + [Release(i)] || path == [GiveUp(i)]
    case Gone =>
      || path == executed + [Release(i), CheckDone(i)] || path == skipped + [Release(i), CheckDone(i)]
      || path == [GiveUp(i), CheckDone(i)]
  }

  predicate OnCourse(s: State, i: nat, path: seq<Step>) {
    if i < |s.checks| then Reaches(path, i, s.checks[i].pc) else path == []
  }

  lemma StaysOnCourse(capacity: nat, s: State, step: Step, i: nat, path: seq<Step>)
    requires Enabled(capacity, s, step) && OnCourse(s, i, path)
    ensures OnCourse(Do(capacity, s, step), i, path + if TakenBy(step, i) then [step] else [])
  {
    if !TakenBy(step, i) {
      assert path + [] == path;
    }
  }

  /** In every interleaving each check has taken exactly the steps that lead to where it is. */
  lemma {:induction false} ChecksKeepTheirCourse(capacity: nat, states: seq<State>, steps: seq<Step>, n: nat, i: nat)
    requires IsRun(capacity, states, steps) && n <= |steps|
    ensures OnCourse(states[n], i, Course(steps, n, i))
  {
    if n > 0 {
      ChecksKeepTheirCourse(capacity, states, steps, n - 1, i);
      assert Next(capacity, states[n - 1], steps[n - 1], states[n]);
      StaysOnCourse(capacity, states[n - 1], steps[n - 1], i, Course(steps, n - 1, i));
    }
  }

  predicate Over(pc: CheckPc) {
    pc in {Releasing, Ending, Gone}
  }

  /** At step `m` check `i` was executing, or a stop made it give up or skip the execution. */
  ghost predicate RanOrStopped(s: State, step: Step, i: nat) {
    At(s, i, Running) || ((step == GiveUp(i) || step == JitterStop(i)) && Stopping(s))
  }

  /** A check keeps its target, and is only over after executing or because of a stop. */
  lemma BecomesOver(capacity: nat, s: State, step: Step, i: nat)
    requires Enabled(capacity, s, step) && i < |Do(capacity, s, step).checks|
    requires Over(Do(capacity, s, step).checks[i].pc)
    ensures i < |s.checks| && s.checks[i].target == Do(capacity, s, step).checks[i].target
    ensures Over(s.checks[i].pc) || RanOrStopped(s, step, i)
  {
  }

  /** Every check that is over was executed before, for the target it was started for, unless a stop prevented it. */
  lemma {:induction false} ChecksAreExecuted(capacity: nat, states: seq<State>, steps: seq<Step>, n: nat, i: nat)
    returns (m: nat)
    requires IsRun(capacity, states, steps) && n <= |steps| && i < |states[n].checks| && Over(states[n].checks[i].pc)
    ensures m < n && i < |states[m].checks| && states[m].checks[i].target == states[n].checks[i].target
    ensures RanOrStopped(states[m], steps[m], i)
  {
    if n == 0 {
      assert false;
    } else {
      m := n - 1;
      assert Next(capacity, states[m], steps[m], states[n]);
      BecomesOver(capacity, states[m], steps[m], i);
      if Over(states[m].checks[i].pc) {
        m := ChecksAreExecuted(capacity, states, steps, m, i);
      }
    }
  }

  /** So in a run that nothing stops, every check that is over was executed. */
  lemma UnstoppedChecksRun(capacity: nat, states: seq<State>, steps: seq<Step>, n: nat, i: nat) returns (m: nat)
    requires IsRun(capacity, states, steps) && n <= |steps| && i < |states[n].checks| && Over(states[n].checks[i].pc)
    requires forall j | 0 <= j < n :: !Stopping(states[j])
    ensures m < n && At(states[m], i, Running) && states[m].checks[i].target == states[n].checks[i].target
  {
    m := ChecksAreExecuted(capacity, states, steps, n, i);
  }

  /** While nothing stops it, the watcher neither ends nor leaves a pass before every target has its check. */
  lemma UnstoppedStep(capacity: nat, s: State, step: Step)
    requires Phases(s) && Enabled(capacity, s, step) && !Stopping(s)
    ensures var s' := Do(capacity, s, step);
            && (s'.watcher in {WatcherEnding, WatcherGone} ==> s.watcher in {WatcherEnding, WatcherGone})
            && (InPass(s.watcher) && !InPass(s'.watcher) ==> step == PassDone)
  {
  }

  lemma {:induction false} UnstoppedWatcherWatches(capacity: nat, states: seq<State>, steps: seq<Step>, n: nat)
    requires IsRun(capacity, states, steps) && n <= |steps| && forall j | 0 <= j < n :: !Stopping(states[j])
    ensures states[n].watcher !in {WatcherEnding, WatcherGone}
    ensures n < |steps| && InPass(states[n].watcher) && !InPass(states[n + 1].watcher) && !Stopping(states[n]) ==>
              steps[n] == PassDone
  {
    if n > 0 {
      UnstoppedWatcherWatches(capacity, states, steps, n - 1);
      RunKeepsInv(capacity, states, steps, n - 1);
      assert Next(capacity, states[n - 1], steps[n - 1], states[n]);
      UnstoppedStep(capacity, states[n - 1], steps[n - 1]);
    }
    if n < |steps| && !Stopping(states[n]) {
      RunKeepsInv(capacity, states, steps, n);
      assert Next(capacity, states[n], steps[n], states[n + 1]);
      UnstoppedStep(capacity, states[n], steps[n]);
    }
  }

  /** The watcher only ends at the initial delay or between passes, and because of a stop. */
  lemma {:induction false} WatcherEndsWatching(capacity: nat, states: seq<State>, steps: seq<Step>, n: nat)
    returns (m: nat)
    requires IsRun(capacity, states, steps) && n <= |steps| && states[n].watcher in {WatcherEnding, WatcherGone}
    ensures m < n && states[m].watcher in {Delaying, Selecting} && Stopping(states[m])
    ensures steps[m] in {DelayCancelled, Stop}
  {
    if n == 0 {
      assert false;
    } else {
      m := n - 1;
      assert Next(capacity, states[m], steps[m], states[n]);
      if states[m].watcher in {WatcherEnding, WatcherGone} {
        m := WatcherEndsWatching(capacity, states, steps, m);
      }
    }
  }

  // ----- the targets -----

  /** The list that the last update before step `n` gave. */
  function LastList(steps: seq<Step>, n: nat): seq<Target>
    requires n <= |steps|
  {
    if n == 0 then []
    else if steps[n - 1].UpdateTargets? then steps[n - 1].list
    else LastList(steps, n - 1)
  }

  lemma {:induction false} TargetsAreLatest(capacity: nat, states: seq<State>, steps: seq<Step>, n: nat)
    requires IsRun(capacity, states, steps) && n <= |steps|
    ensures states[n].targets == TargetMap(LastList(steps, n))
  {
    if n > 0 {
      TargetsAreLatest(capacity, states, steps, n - 1);
      assert Next(capacity, states[n - 1], steps[n - 1], states[n]);
    }
  }

  /** Of the targets with one namespace and name the last is kept, and a key without any is not there. */
  lemma {:induction false} LastTargetWins(list: seq<Target>, key: string) returns (k: nat)
    ensures key in TargetMap(list) <==> k < |list|
    ensures k < |list| ==> list[k].namespace + "/" + list[k].name == key && TargetMap(list)[key] == list[k]
    ensures forall j | 0 <= j < |list| && list[j].namespace + "/" + list[j].name == key :: j <= k < |list|
  {
    if list == [] {
      k := 0;
    } else {
      var last := |list| - 1;
      k := LastTargetWins(list[..last], key);
      if list[last].namespace + "/" + list[last].name == key {
        k := last;
      } else if k == last {
        k := |list|;
      }
    }
  }

  // ----- once Start has returned -----

  ghost predicate Quiet(s: State) {
    s.watcher == WatcherGone && s.semaphore == 0 && forall i | 0 <= i < |s.checks| :: s.checks[i].pc == Gone
  }

  lemma NothingIsLeft(capacity: nat, s: State)
    requires Inv(capacity, s) && s.main == Returned
    ensures Quiet(s) && s.cancelled
  {
    forall i | 0 <= i < |s.checks|
      ensures s.checks[i].pc == Gone
    {
      TotalZero(s.checks, Lives, i);
    }
    GoneHoldNothing(s.checks);
  }

  lemma {:induction false} GoneHoldNothing(checks: seq<Check>)
    requires forall i | 0 <= i < |checks| :: checks[i].pc == Gone
    ensures Total(checks, Holds) == 0
  {
    if checks != [] {
      GoneHoldNothing(Front(checks));
    }
  }

  /** When Start has returned, no goroutine is left and the semaphore is free, and only target updates can follow. */
  lemma ReturnedIsQuiet(capacity: nat, states: seq<State>, steps: seq<Step>, n: nat)
    requires IsRun(capacity, states, steps) && n <= |steps| && states[n].main == Returned
    ensures Quiet(states[n]) && (n < |steps| ==> steps[n].UpdateTargets?)
  {
    RunKeepsInv(capacity, states, steps, n);
    NothingIsLeft(capacity, states[n]);
    if n < |steps| {
      assert Next(capacity, states[n], steps[n], states[n + 1]);
    }
  }

  /** Nothing that happens after Start has returned brings a check or the watcher back. */
  lemma {:induction false} QuietForever(capacity: nat, states: seq<State>, steps: seq<Step>, n: nat, m: nat)
    requires IsRun(capacity, states, steps) && n <= m <= |steps| && states[n].main == Returned
    ensures states[m].main == Returned && states[m].checks == states[n].checks && states[m].watcher == WatcherGone
  {
    if m == n {
      ReturnedIsQuiet(capacity, states, steps, n);
    } else {
      QuietForever(capacity, states, steps, n, m - 1);
      ReturnedIsQuiet(capacity, states, steps, m - 1);
      assert Next(capacity, states[m - 1], steps[m - 1], states[m]);
    }
  }

  // ----- shutting down -----

  function CheckRank(pc: CheckPc): nat {
    match pc case Acquiring => 5 case Holding => 4 case Running => 3 case Releasing => 2 case Ending => 1 case Gone => 0
  }

  function WatcherRank(w: WatcherPc): nat {
    match w
    case NotStarted => 3 case Delaying => 3 case Selecting => 2 case Iterating(_) => 3
    case Adding(_) => 10 case Going(_) => 9 case WatcherEnding => 1 case WatcherGone => 0
  }

  function MainRank(m: MainPc): nat {
    match m case Init => 5 case Spawning => 4 case Waiting => 3 case Closing => 2 case Joining => 1 case Returned => 0
  }

  /** How many steps the goroutines still have in them once the context is cancelled. */
  ghost function Measure(s: State): nat {
    MainRank(s.main) + WatcherRank(s.watcher) + Total(s.checks, CheckRank)
  }

  /** A step of the program itself, other than the watcher's timer firing once more. */
  predicate Winding(step: Step) {
    !step.Cancel? && !step.UpdateTargets? && !step.Tick?
  }

  lemma CheckWindsDown(capacity: nat, s: State, step: Step)
    requires Enabled(capacity, s, step) && IsCheckStep(step)
    ensures Measure(Do(capacity, s, step)) < Measure(s)
  {
    TotalUpdate(s.checks, step.i, Do(capacity, s, step).checks[step.i], CheckRank);
  }

  lemma SpawnWindsDown(capacity: nat, s: State)
    requires Enabled(capacity, s, PassGo)
    ensures Measure(Do(capacity, s, PassGo)) < Measure(s)
  {
    TotalNext(s.checks, Check(s.watcher.pass.todo[0], Acquiring), CheckRank);
  }

  /** After cancellation every step winds down, whatever the interleaving. */
  lemma StepsWindDown(capacity: nat, s: State, step: Step)
    requires Phases(s) && s.cancelled && Enabled(capacity, s, step) && Winding(step)
    ensures Measure(Do(capacity, s, step)) < Measure(s)
  {
    if IsCheckStep(step) {
      CheckWindsDown(capacity, s, step);
    } else if step.PassGo? {
      SpawnWindsDown(capacity, s);
    } else {
      assert Do(capacity, s, step).checks == s.checks;
    }
  }

  /** The next step of a check that is still alive. */
  function CheckStep(c: CheckPc, i: nat): Step
    requires c != Gone
  {
    match c
    case Acquiring => GiveUp(i) case Holding => JitterOver(i) case Running => Finish(i)
    case Releasing => Release(i) case Ending => CheckDone(i)
  }

  /** After cancellation somebody can always move until Start has returned. */
  lemma NeverStuck(capacity: nat, s: State) returns (step: Step)
    requires Inv(capacity, s) && s.cancelled && s.main != Returned
    ensures Winding(step) && Enabled(capacity, s, step)
  {
    if s.main != Joining {
      step := match s.main
        case Init => StartAdd case Spawning => StartGo case Waiting => StartWake case _ => StartClose;
    } else if s.group == 0 {
      step := StartReturn;
    } else if s.watcher != WatcherGone {
      step := match s.watcher
        case Delaying => DelayCancelled case Selecting => Stop
        case Iterating(p) => if p.todo == [] then PassDone else PassStop
        case Adding(_) => PassAdd case Going(_) => PassGo case _ => WatcherDone;
    } else {
      var i := TotalPositive(s.checks, Lives);
      step := CheckStep(s.checks[i].pc, i);
      TotalZero(s.checks, Holds, i);
    }
  }

  /** A run goes on with any step that is enabled at its end. */
  lemma Extend(capacity: nat, states: seq<State>, steps: seq<Step>, step: Step)
    requires IsRun(capacity, states, steps) && Enabled(capacity, states[|steps|], step)
    ensures IsRun(capacity, states + [Do(capacity, states[|steps|], step)], steps + [step])
  {
    var states', steps' := states + [Do(capacity, states[|steps|], step)], steps + [step];
    forall i | 0 <= i < |steps'|
      ensures Next(capacity, states'[i], steps'[i], states'[i + 1])
    {
      if i < |steps| {
        assert Next(capacity, states[i], steps[i], states[i + 1]);
      }
    }
  }

  /** Every cancelled run can be continued until Start returns, within `Measure` steps. */
  lemma {:induction false} StartReturns(capacity: nat, states: seq<State>, steps: seq<Step>)
    returns (states': seq<State>, steps': seq<Step>)
    requires IsRun(capacity, states, steps) && states[|steps|].cancelled
    ensures IsRun(capacity, states', steps') && steps <= steps' && states'[|steps'|].main == Returned
    ensures |steps'| <= |steps| + Measure(states[|steps|])
    decreases Measure(states[|steps|])
  {
    var s := states[|steps|];
    if s.main == Returned {
      states', steps' := states, steps;
    } else {
      RunKeepsInv(capacity, states, steps, |steps|);
      var step := NeverStuck(capacity, s);
      StepsWindDown(capacity, s, step);
      Extend(capacity, states, steps, step);
      states', steps' := StartReturns(capacity, states + [Do(capacity, s, step)], steps + [step]);
    }
  }

  function Weight(step: Step): nat {
    if Winding(step) then 1 else 0
  }

  function Delay(step: Step): nat {
    if step.Tick? then 1 else 0
  }

  /** How many of the steps from `n` to `m` the program itself takes. */
  function Windings(steps: seq<Step>, n: nat, m: nat): nat
    requires m <= |steps|
  {
    if m <= n then 0 else Windings(steps, n, m - 1) + Weight(steps[m - 1])
  }

  /** How often the timer fires in them. */
  function Ticks(steps: seq<Step>, n: nat, m: nat): nat
    requires m <= |steps|
  {
    if m <= n then 0 else Ticks(steps, n, m - 1) + Delay(steps[m - 1])
  }

  /** After cancellation a step of the program winds down, a tick costs the watcher one more, an update none. */
  lemma StepsAndTicks(capacity: nat, s: State, step: Step)
    requires Phases(s) && s.cancelled && Enabled(capacity, s, step)
    ensures Do(capacity, s, step).cancelled
    ensures Weight(step) + Measure(Do(capacity, s, step)) <= Measure(s) + Delay(step)
  {
    if Winding(step) {
      StepsWindDown(capacity, s, step);
    }
  }

  /**
    After cancellation any stretch of a run has at most `Measure` steps of the program, plus
    one for each tick in it.
  */
  lemma {:induction false} WindingRunsAreShort(capacity: nat, states: seq<State>, steps: seq<Step>, n: nat, m: nat)
    requires IsRun(capacity, states, steps) && n <= m <= |steps| && states[n].cancelled
    ensures states[m].cancelled
    ensures Windings(steps, n, m) + Measure(states[m]) <= Measure(states[n]) + Ticks(steps, n, m)
  {
    if n < m {
      WindingRunsAreShort(capacity, states, steps, n, m - 1);
      RunKeepsInv(capacity, states, steps, m - 1);
      assert Next(capacity, states[m - 1], steps[m - 1], states[m]);
      StepsAndTicks(capacity, states[m - 1], steps[m - 1]);
    }
  }

  /** A check the watcher has already decided to start. */
  function Committed(w: WatcherPc): nat {
    if w.Adding? || w.Going? then 1 else 0
  }

  /** After cancellation, however often the timer still fires, no check is started but one already decided on. */
  lemma {:induction false} AtMostOneMoreCheck(capacity: nat, states: seq<State>, steps: seq<Step>, n: nat, m: nat)
    requires IsRun(capacity, states, steps) && n <= m <= |steps| && states[n].cancelled
    ensures states[m].cancelled
    ensures |states[m].checks| + Committed(states[m].watcher) <= |states[n].checks| + Committed(states[n].watcher)
  {
    if n < m {
      AtMostOneMoreCheck(capacity, states, steps, n, m - 1);
      assert Next(capacity, states[m - 1], steps[m - 1], states[m]);
    }
  }
}
