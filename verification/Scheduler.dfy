/**
  The agent's scheduler (internal/agent/scheduler.go) as interleaved steps of its
  goroutines: Start, the target watcher and the checks share a semaphore, a wait
  group, a cancelled context and a shutdown channel.
*/
module Scheduler {
  import opened Common

  datatype Target = Target(namespace: string, name: string)

  /** UpdateTargets files targets under "namespace/name"; a later one replaces an earlier one. */
  function TargetMap(list: seq<Target>): map<string, Target> {
    if list == [] then map[]
    else TargetMap(Front(list))[Last(list).namespace + "/" + Last(list).name := Last(list)]
  }

  /** Where Start is: before and after wg.Add, waiting for the context, before close, waiting for the group, done. */
  datatype MainPc = Init | Spawning | Waiting | Closing | Joining | Returned

  /** One call to scheduleChecks: the targets it ranges over, those left, and how many checks there were before. */
  datatype Pass = Pass(all: seq<Target>, todo: seq<Target>, start: nat)

  /**
    Where the watcher is. During a pass it holds the read lock on the targets: it looks at
    the next target, is about to call wg.Add for it, or is about to start its goroutine.
  */
  datatype WatcherPc =
    | NotStarted | Delaying | Selecting
    | Iterating(pass: Pass) | Adding(pass: Pass) | Going(pass: Pass)
    | WatcherEnding | WatcherGone

  /** Where one check is; from Holding to Releasing it occupies the semaphore. */
  datatype CheckPc = Acquiring | Holding | Running | Releasing | Ending | Gone

  datatype Check = Check(target: Target, pc: CheckPc)

  datatype State = State(
    main: MainPc, watcher: WatcherPc, checks: seq<Check>, semaphore: nat, group: int,
    cancelled: bool, shutdown: bool, targets: map<string, Target>)

  const INITIAL: State := State(Init, NotStarted, [], 0, 0, false, false, map[])

  datatype Step =
    | Cancel | UpdateTargets(list: seq<Target>)
    | StartAdd | StartGo | StartWake | StartClose | StartReturn
    | DelayOver | DelayCancelled | Stop | Tick(keys: seq<string>)
    | PassStop | PassDone | PassNext | PassAdd | PassGo | WatcherDone
    | Acquire(i: nat) | GiveUp(i: nat) | JitterOver(i: nat) | JitterStop(i: nat)
    | Finish(i: nat) | Release(i: nat) | CheckDone(i: nat)

  function Values(keys: seq<string>, targets: map<string, Target>): seq<Target>
    requires forall k | k in keys :: k in targets
  {
    seq(|keys|, i requires 0 <= i < |keys| => targets[keys[i]])
  }

  predicate Ordered(keys: seq<string>, targets: map<string, Target>) {
    multiset(keys) == multiset(targets.Keys)
  }

  predicate At(s: State, i: nat, pc: CheckPc) {
    i < |s.checks| && s.checks[i].pc == pc
  }

  predicate Stopping(s: State) {
    s.cancelled || s.shutdown
  }

  predicate InPass(w: WatcherPc) {
    w.Iterating? || w.Adding? || w.Going?
  }

  /** `capacity` is MaxConcurrency, the capacity of the semaphore channel. */
  predicate Enabled(capacity: nat, s: State, step: Step) {
    match step
    case Cancel => !s.cancelled
    case UpdateTargets(_) => !InPass(s.watcher)
    case StartAdd => s.main == Init
    case StartGo => s.main == Spawning
    case StartWake => s.main == Waiting && s.cancelled
    case StartClose => s.main == Closing
    case StartReturn => s.main == Joining && s.group == 0
    case DelayOver => s.watcher == Delaying
    case DelayCancelled => s.watcher == Delaying && s.cancelled
    case Stop => s.watcher == Selecting && Stopping(s)
    case Tick(keys) => s.watcher == Selecting && Ordered(keys, s.targets)
    case PassStop => s.watcher.Iterating? && s.watcher.pass.todo != [] && Stopping(s)
    case PassDone => s.watcher.Iterating? && s.watcher.pass.todo == []
    case PassNext => s.watcher.Iterating? && s.watcher.pass.todo != [] && !Stopping(s)
    case PassAdd => s.watcher.Adding? && s.watcher.pass.todo != []
    case PassGo => s.watcher.Going? && s.watcher.pass.todo != []
    case WatcherDone => s.watcher == WatcherEnding
    case Acquire(i) => At(s, i, Acquiring) && s.semaphore < capacity
    case GiveUp(i) => At(s, i, Acquiring) && Stopping(s)
    case JitterOver(i) => At(s, i, Holding)
    case JitterStop(i) => At(s, i, Holding) && Stopping(s)
    case Finish(i) => At(s, i, Running)
    case Release(i) => At(s, i, Releasing) && s.semaphore > 0
    case CheckDone(i) => At(s, i, Ending)
  }

  function Move(s: State, i: nat, pc: CheckPc): State
    requires i < |s.checks|
  {
    s.(checks := s.checks[i := s.checks[i].(pc := pc)])
  }

  lemma KeysKnown(keys: seq<string>, targets: map<string, Target>)
    requires Ordered(keys, targets)
    ensures forall k | k in keys :: k in targets
  {
    assert forall k | k in keys :: k in multiset(keys);
  }

  function Do(capacity: nat, s: State, step: Step): State
    requires Enabled(capacity, s, step)
  {
    match step
    case Cancel => s.(cancelled := true)
    case UpdateTargets(list) => s.(targets := TargetMap(list))
    case StartAdd => s.(main := Spawning, group := s.group + 1)
    case StartGo => s.(main := Waiting, watcher := Delaying)
    case StartWake => s.(main := Closing)
    case StartClose => s.(main := Joining, shutdown := true)
    case StartReturn => s.(main := Returned)
    case DelayOver => s.(watcher := Selecting)
    case DelayCancelled => s.(watcher := WatcherEnding)
    case Stop => s.(watcher := WatcherEnding)
    case Tick(keys) =>
      KeysKnown(keys, s.targets);
      var all := Values(keys, s.targets);
      s.(watcher := Iterating(Pass(all, all, |s.checks|)))
    case PassStop => s.(watcher := Selecting)
    case PassDone => s.(watcher := Selecting)
    case PassNext => s.(watcher := Adding(s.watcher.pass))
    case PassAdd => s.(watcher := Going(s.watcher.pass), group := s.group + 1)
    case PassGo =>
      var pass := s.watcher.pass;
      s.(watcher := Iterating(pass.(todo := pass.todo[1..])), checks := s.checks + [Check(pass.todo[0], Acquiring)])
    case WatcherDone => s.(watcher := WatcherGone, group := s.group - 1)
    case Acquire(i) => Move(s, i, Holding).(semaphore := s.semaphore + 1)
    case GiveUp(i) => Move(s, i, Ending)
    case JitterOver(i) => Move(s, i, Running)
    case JitterStop(i) => Move(s, i, Releasing)
    case Finish(i) => Move(s, i, Releasing)
    case Release(i) => Move(s, i, Ending).(semaphore := s.semaphore - 1)
    case CheckDone(i) => Move(s, i, Gone).(group := s.group - 1)
  }

  // ----- runs -----

  ghost predicate Next(capacity: nat, s: State, step: Step, s': State) {
    Enabled(capacity, s, step) && s' == Do(capacity, s, step)
  }

  /** An interleaving: `states` leads from the initial state through one enabled step after another. */
  ghost predicate IsRun(capacity: nat, states: seq<State>, steps: seq<Step>) {
    && |states| == |steps| + 1 && states[0] == INITIAL
    && forall i | 0 <= i < |steps| :: Next(capacity, states[i], steps[i], states[i + 1])
  }
}
