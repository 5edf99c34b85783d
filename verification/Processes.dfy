/**
  The supervisor's two maps, and starts, stops and restarts of game processes interleaved with exits. Processes are
  numbered in the order they are spawned; an exit is the exit code that poll() gives from then on.
 */
module Processes {
  import opened Common

  datatype Info = Info(process: nat, stopRequestedAt: Option<int>, stopReason: Option<string>)
  datatype Terminal = Terminal(process: nat, stopRequestedAt: Option<int>, stopReason: Option<string>, exitCode: Option<int>)

  datatype Supervisor = Supervisor(running: map<string, Info>, terminated: map<string, Terminal>)

  /** The processes that have exited, with their codes. */
  type Exits = map<nat, int>

  function Registered(s: Supervisor, i: string, info: Info): Supervisor {
    Supervisor(s.running[i := info], s.terminated - {i})
  }

  /** The first request keeps its time; the reason is the last one. */
  function Asked(info: Info, reason: string, now: int): Info {
    Info(info.process, if info.stopRequestedAt.Some? then info.stopRequestedAt else Some(now), Some(reason))
  }

  function StopRequested(s: Supervisor, i: string, reason: string, now: int): Supervisor {
    if i in s.running then s.(running := s.running[i := Asked(s.running[i], reason, now)]) else s
  }

  function TerminalOf(info: Info, code: int): Terminal {
    Terminal(info.process, info.stopRequestedAt, info.stopReason, Some(code))
  }

  /** Moves the entry of a process that has exited. */
  function ExitObserved(s: Supervisor, i: string, exits: Exits): Supervisor {
    if i in s.running && s.running[i].process in exits
    then Supervisor(s.running - {i}, s.terminated[i := TerminalOf(s.running[i], exits[s.running[i].process])])
    else s
  }

  function Forgotten(s: Supervisor, i: string): Supervisor {
    if i in s.running then s else s.(terminated := s.terminated - {i})
  }

  /** However often a stop is asked for, the time is that of the first request and the reason that of the last. */
  lemma AskedAgain(info: Info, first: string, at: int, last: string, now: int)
    ensures
      var r := Asked(Asked(info, first, at), last, now);
      && r.process == info.process && r.stopReason == Some(last)
      && r.stopRequestedAt == Asked(info, first, at).stopRequestedAt
      && (info.stopRequestedAt.None? ==> r.stopRequestedAt == Some(at))
  {
  }

  /** An observed exit moves the entry of its instance with what was asked of it, and touches no other. */
  lemma ExitMoves(s: Supervisor, i: string, exits: Exits, j: string)
    requires Disjoint(s)
    ensures
      var v := ExitObserved(s, i, exits);
      && Disjoint(v)
      && (i in s.running && s.running[i].process in exits ==>
            i !in v.running && i in v.terminated
            && v.terminated[i] == Terminal(s.running[i].process, s.running[i].stopRequestedAt, s.running[i].stopReason, Some(exits[s.running[i].process])))
      && (!(i in s.running && s.running[i].process in exits) ==> v == s)
      && (j != i ==> (j in v.running <==> j in s.running) && (j in v.terminated <==> j in s.terminated)
                     && (j in s.running ==> v.running[j] == s.running[j]) && (j in s.terminated ==> v.terminated[j] == s.terminated[j]))
  {
  }

  /** Forgetting takes away what is known of an exit, never a running process. */
  lemma ForgottenOnlyExits(s: Supervisor, i: string)
    requires Disjoint(s)
    ensures Forgotten(s, i) == Supervisor(s.running, s.terminated - {i})
    ensures i in s.running ==> Forgotten(s, i) == s
  {
    if i in s.running { assert s.terminated - {i} == s.terminated; }
  }

  ghost predicate Disjoint(s: Supervisor) { s.running.Keys !! s.terminated.Keys }

  class ProcessSupervisor {
    var running: map<string, Info>
    var terminated: map<string, Terminal>

    function Now(): Supervisor reads this { Supervisor(running, terminated) }

    ghost predicate Valid() reads this { Disjoint(Now()) }

    constructor ()
      ensures Valid() && Now() == Supervisor(map[], map[])
    {
      running, terminated := map[], map[];
    }

    method Register(i: string, info: Info)
      requires Valid()
      modifies this
      ensures Valid() && Now() == Registered(old(Now()), i, info)
    {
      terminated := terminated - {i};
      running := running[i := info];
    }

    /** A restored exit never hides a running process. */
    method RestoreTerminated(i: string, t: Terminal)
      requires Valid()
      modifies this`terminated
      ensures Valid() && terminated == if i in running then old(terminated) else old(terminated)[i := t]
    {
      if i !in running { terminated := terminated[i := t]; }
    }

    method RequestStop(i: string, reason: string, now: int) returns (info: Option<Info>)
      requires Valid()
      modifies this`running
      ensures Valid() && Now() == StopRequested(old(Now()), i, reason, now)
      ensures info == if i in running then Some(running[i]) else None
    {
      if i !in running { return None; }
      var r := running[i];
      if r.stopRequestedAt.None? { r := r.(stopRequestedAt := Some(now)); }
      r := r.(stopReason := Some(reason));
      running := running[i := r];
      return Some(r);
    }

    /** Moves the entry once its process has exited; otherwise tells of the exit observed before, if any. */
    method ObserveExit(i: string, exits: Exits) returns (t: Option<Terminal>)
      requires Valid()
      modifies this
      ensures Valid() && Now() == ExitObserved(old(Now()), i, exits)
      ensures t == if i in running || i !in terminated then None else Some(terminated[i])
    {
      if i !in running {
        return if i in terminated then Some(terminated[i]) else None;
      }
      var info := running[i];
      if info.process !in exits { return None; }
      var terminal := TerminalOf(info, exits[info.process]);
      terminated := terminated[i := terminal];
      running := running - {i};
      return Some(terminal);
    }

    method Forget(i: string) returns (forgotten: bool)
      requires Valid()
      modifies this`terminated
      ensures Valid() && Now() == Forgotten(old(Now()), i)
      ensures forgotten <==> i in old(terminated)
    {
      if i in running { return false; }
      forgotten := i in terminated;
      terminated := terminated - {i};
    }
  }

  // ---------------------------------------------------------------- starts and stops

  /** What the holder of the lock of an instance is doing. */
  datatype Job =
    | Stopping(process: nat, restart: bool)
    | Starting
    | Checked
    | Spawned(process: nat)

  datatype World = World(owner: seq<string>, exits: Exits, sup: Supervisor, jobs: map<string, Job>)

  datatype Step =
    | Exit(process: nat, code: int)
    | ObserveExit(i: string)
    | Forget(i: string)
    | Stop(i: string, restart: bool)
    | RequestStop(i: string, reason: string, now: int)
    | Stopped(i: string)
    | Start(i: string)
    | Check(i: string)
    | Spawn(i: string)
    | Register(i: string)
    | Raise(i: string)

  predicate Live(w: World, p: nat) { p < |w.owner| && p !in w.exits }

  predicate Doing(w: World, i: string, job: Job) { i in w.jobs && w.jobs[i] == job }

  predicate Enabled(w: World, s: Step) {
    match s
    case Exit(p, code) => Live(w, p)
    case ObserveExit(i) => true
    case Forget(i) => true
    case Stop(i, restart) => i !in w.jobs
    case RequestStop(i, reason, now) => i in w.jobs && w.jobs[i].Stopping?
    case Stopped(i) => i in w.jobs && w.jobs[i].Stopping? && w.jobs[i].process in w.exits
    case Start(i) => i !in w.jobs
    case Check(i) => Doing(w, i, Starting)
    case Spawn(i) => Doing(w, i, Checked)
    case Register(i) => i in w.jobs && w.jobs[i].Spawned?
    // A stop that times out, a port in use, a hook that raises: not between spawning and registering.
    case Raise(i) => i in w.jobs && !w.jobs[i].Spawned?
  }

  function Released(w: World, i: string): World { w.(jobs := w.jobs - {i}) }

  function Then(w: World, i: string, job: Job): World { w.(jobs := w.jobs[i := job]) }

  function Apply(w: World, s: Step): World
    requires Enabled(w, s)
  {
    match s
    case Exit(p, code) => w.(exits := w.exits[p := code])
    case ObserveExit(i) => w.(sup := ExitObserved(w.sup, i, w.exits))
    case Forget(i) => w.(sup := Forgotten(w.sup, i))
    case Stop(i, restart) =>
      if i in w.sup.running then Then(w, i, Stopping(w.sup.running[i].process, restart))
      else if restart then Then(w, i, Starting) else w
    case RequestStop(i, reason, now) => w.(sup := StopRequested(w.sup, i, reason, now))
    case Stopped(i) =>
      var v := w.(sup := ExitObserved(w.sup, i, w.exits));
      if w.jobs[i].restart then Then(v, i, Starting) else Released(v, i)
    case Start(i) => Then(w, i, Starting)
    case Check(i) =>
      if i in w.sup.running && w.sup.running[i].process !in w.exits then Released(w, i) else Then(w, i, Checked)
    case Spawn(i) => Then(w.(owner := w.owner + [i]), i, Spawned(|w.owner|))
    case Register(i) => Released(w.(sup := Registered(w.sup, i, Info(w.jobs[i].process, None, None))), i)
    case Raise(i) => Released(w, i)
  }

  // ---------------------------------------------------------------- the invariant

  /** The entries belong to processes spawned for their instance, and an exit that is told of happened so. */
  ghost predicate EntriesInv(w: World) {
    && Disjoint(w.sup)
    && (forall i | i in w.sup.running :: w.sup.running[i].process < |w.owner| && w.owner[w.sup.running[i].process] == i)
    && forall i | i in w.sup.terminated ::
         var t := w.sup.terminated[i];
         t.process < |w.owner| && w.owner[t.process] == i && t.process in w.exits && t.exitCode == Some(w.exits[t.process])
  }

  /** The process is the running entry of its instance, or about to be registered. */
  predicate Tracked(w: World, p: nat)
    requires p < |w.owner|
  {
    var i := w.owner[p];
    (i in w.sup.running && w.sup.running[i].process == p) || Doing(w, i, Spawned(p))
  }

  ghost predicate LiveInv(w: World) {
    forall p | 0 <= p < |w.owner| && Live(w, p) :: Tracked(w, p)
  }

  predicate NothingRuns(w: World, i: string) {
    i in w.sup.running ==> w.sup.running[i].process in w.exits
  }

  predicate JobInv(w: World, i: string)
    requires i in w.jobs
  {
    match w.jobs[i]
    case Stopping(p, restart) => i in w.sup.running ==> w.sup.running[i].process == p
    case Starting => true
    case Checked => NothingRuns(w, i)
    case Spawned(p) => NothingRuns(w, i) && p < |w.owner| && w.owner[p] == i && (i in w.sup.running ==> w.sup.running[i].process != p)
  }

  ghost predicate JobsInv(w: World) {
    forall i | i in w.jobs :: JobInv(w, i)
  }

  ghost predicate Inv(w: World) { EntriesInv(w) && LiveInv(w) && JobsInv(w) }

  lemma SupervisorKeeps(w: World, s: Step)
    requires Inv(w) && Enabled(w, s) && (s.ObserveExit? || s.Forget? || s.RequestStop? || s.Exit?)
    ensures Inv(Apply(w, s))
  {
    var v := Apply(w, s);
    assert v.jobs == w.jobs && v.owner == w.owner;
    forall i | i in v.jobs ensures JobInv(v, i) { assert JobInv(w, i); }
    forall p | 0 <= p < |v.owner| && Live(v, p) ensures Tracked(v, p) { assert Live(w, p) && Tracked(w, p); }
  }

  /** A step that only changes what the holder of one lock is doing. */
  lemma JobKeeps(w: World, s: Step)
    requires Inv(w) && Enabled(w, s) && (s.Stop? || s.Raise? || s.Start? || s.Check?)
    ensures Inv(Apply(w, s))
  {
    var v := Apply(w, s);
    assert v.sup == w.sup && v.owner == w.owner && v.exits == w.exits;
    assert forall j | j != s.i :: (j in v.jobs <==> j in w.jobs) && (j in w.jobs ==> v.jobs[j] == w.jobs[j]);
    assert s.i in v.jobs ==> JobInv(v, s.i) && !v.jobs[s.i].Spawned?;
    assert s.i in w.jobs ==> !w.jobs[s.i].Spawned?;
    hide Apply, Enabled;
    forall j | j in v.jobs ensures JobInv(v, j) { if j != s.i { assert JobInv(w, j); } }
    forall p | 0 <= p < |v.owner| && Live(v, p) ensures Tracked(v, p) { assert Live(w, p) && Tracked(w, p); }
  }

  lemma StoppedKeeps(w: World, i: string)
    requires Inv(w) && Enabled(w, Stopped(i))
    ensures Inv(Apply(w, Stopped(i)))
  {
    var v := Apply(w, Stopped(i));
    assert v.sup == ExitObserved(w.sup, i, w.exits);
    assert forall j | j != i :: (j in v.jobs <==> j in w.jobs) && (j in w.jobs ==> v.jobs[j] == w.jobs[j]);
    forall j | j in v.jobs ensures JobInv(v, j) { if j != i { assert JobInv(w, j); } }
    forall p | 0 <= p < |v.owner| && Live(v, p) ensures Tracked(v, p) { assert Live(w, p) && Tracked(w, p); }
  }

  lemma SpawnKeeps(w: World, i: string)
    requires Inv(w) && Enabled(w, Spawn(i))
    ensures Inv(Apply(w, Spawn(i)))
  {
    var v := Apply(w, Spawn(i));
    assert JobInv(w, i);
    forall j | j in v.jobs ensures JobInv(v, j) { if j != i { assert JobInv(w, j); } }
    forall p | 0 <= p < |v.owner| && Live(v, p) ensures Tracked(v, p) {
      if p < |w.owner| { assert Live(w, p) && Tracked(w, p); }
    }
  }

  lemma RegisterKeeps(w: World, i: string)
    requires Inv(w) && Enabled(w, Register(i))
    ensures Inv(Apply(w, Register(i)))
  {
    var v := Apply(w, Register(i));
    assert JobInv(w, i);
    forall j | j in v.jobs ensures JobInv(v, j) { assert JobInv(w, j); }
    forall p | 0 <= p < |v.owner| && Live(v, p) ensures Tracked(v, p) { assert Live(w, p) && Tracked(w, p); }
  }

  lemma StepKeeps(w: World, s: Step)
    requires Inv(w) && Enabled(w, s)
    ensures Inv(Apply(w, s))
  {
    hide Inv, Apply;
    if s.Spawn? {
      SpawnKeeps(w, s.i);
    } else if s.Register? {
      RegisterKeeps(w, s.i);
    } else if s.ObserveExit? || s.Forget? || s.RequestStop? || s.Exit? {
      SupervisorKeeps(w, s);
    } else if s.Stopped? {
      StoppedKeeps(w, s.i);
    } else {
      JobKeeps(w, s);
    }
  }

  predicate Legal(w: World, run: seq<Step>)
    decreases |run|
  {
    run == [] || (Enabled(w, run[0]) && Legal(Apply(w, run[0]), run[1..]))
  }

  function After(w: World, run: seq<Step>): World
    requires Legal(w, run)
    decreases |run|
  {
    if run == [] then w else After(Apply(w, run[0]), run[1..])
  }

  /** An agent that has just started. */
  const Boot := World([], map[], Supervisor(map[], map[]), map[])

  lemma {:induction false} RunKeeps(w: World, run: seq<Step>)
    requires Inv(w) && Legal(w, run)
    ensures Inv(After(w, run))
    decreases |run|
  {
    hide Inv, Enabled, Apply;
    if run != [] {
      StepKeeps(w, run[0]);
      RunKeeps(Apply(w, run[0]), run[1..]);
    }
  }

  /**
    In every run every live process is the running entry of its instance, from its registration on, and until then
    its instance is locked and has no other live process.
   */
  lemma NoLiveProcessIsLost(run: seq<Step>, p: nat)
    requires Legal(Boot, run) && Live(After(Boot, run), p)
    ensures
      var w := After(Boot, run);
      var i := w.owner[p];
      || (i in w.sup.running && w.sup.running[i].process == p && i !in w.sup.terminated)
      || (Doing(w, i, Spawned(p)) && NothingRuns(w, i))
  {
    hide Legal, After;
    RunKeeps(Boot, run);
    var w := After(Boot, run);
    assert Tracked(w, p);
    if Doing(w, w.owner[p], Spawned(p)) { assert JobInv(w, w.owner[p]); }
  }

  /** No instance ever has two live processes, not even for a moment. */
  lemma AtMostOneLive(run: seq<Step>, p: nat, q: nat)
    requires Legal(Boot, run) && Live(After(Boot, run), p) && Live(After(Boot, run), q)
    ensures After(Boot, run).owner[p] == After(Boot, run).owner[q] ==> p == q
  {
    hide Legal, After;
    NoLiveProcessIsLost(run, p);
    NoLiveProcessIsLost(run, q);
  }

  /** Running and terminated entries are never of the same instance, and a terminated entry tells the true exit. */
  lemma EntriesAreTrue(run: seq<Step>, i: string)
    requires Legal(Boot, run)
    ensures
      var w := After(Boot, run);
      && !(i in w.sup.running && i in w.sup.terminated)
      && (i in w.sup.terminated ==>
            var t := w.sup.terminated[i];
            && t.process < |w.owner| && w.owner[t.process] == i && !Live(w, t.process)
            && t.process in w.exits && t.exitCode == Some(w.exits[t.process]))
  {
    hide Legal, After;
    RunKeeps(Boot, run);
  }

  /** A stop that returns leaves no live process of the instance, whatever else was going on. */
  lemma StopStops(run: seq<Step>, i: string, p: nat)
    requires Legal(Boot, run) && Enabled(After(Boot, run), Stopped(i))
    requires Live(Apply(After(Boot, run), Stopped(i)), p)
    ensures After(Boot, run).owner[p] != i
  {
    hide Legal, After;
    RunKeeps(Boot, run);
    var w := After(Boot, run);
    assert Live(w, p) && Tracked(w, p) && JobInv(w, i);
  }

  /** A restart keeps the lock from the stop to the start; a stop alone frees it. A restart of nothing only starts. */
  lemma RestartGoesOn(w: World, i: string, restart: bool)
    ensures Enabled(w, Stopped(i)) ==>
              var v := Apply(w, Stopped(i));
              if w.jobs[i].restart then Enabled(v, Check(i)) else i !in v.jobs && Enabled(v, Start(i))
    ensures Enabled(w, Stop(i, restart)) && i !in w.sup.running ==>
              var v := Apply(w, Stop(i, restart));
              if restart then Enabled(v, Check(i)) else v == w
    ensures Enabled(w, Stop(i, restart)) && i in w.sup.running ==>
              Doing(Apply(w, Stop(i, restart)), i, Stopping(w.sup.running[i].process, restart))
  {
  }

  /** Each call of the supervisor is a step, and exits are observed and forgotten at any time. */
  lemma CallsAreSteps(w: World, i: string, reason: string, now: int)
    ensures Enabled(w, ObserveExit(i)) && Apply(w, ObserveExit(i)) == w.(sup := ExitObserved(w.sup, i, w.exits))
    ensures Enabled(w, Forget(i)) && Apply(w, Forget(i)) == w.(sup := Forgotten(w.sup, i))
    ensures i in w.jobs && w.jobs[i].Stopping? ==>
              Enabled(w, RequestStop(i, reason, now)) && Apply(w, RequestStop(i, reason, now)).sup == StopRequested(w.sup, i, reason, now)
  {
  }

  lemma LegalFirst(w: World, s: Step, rest: seq<Step>)
    requires Enabled(w, s) && Legal(Apply(w, s), rest)
    ensures Legal(w, [s] + rest) && After(w, [s] + rest) == After(Apply(w, s), rest)
  {
    hide Enabled, Apply;
    assert ([s] + rest)[1..] == rest;
  }

  /** Where nothing runs and nobody holds the lock, a start goes through to its end and leaves the lock free. */
  lemma StartRuns(w: World, i: string)
    requires i !in w.jobs && NothingRuns(w, i)
    ensures
      var run := [Start(i)] + ([Check(i)] + ([Spawn(i)] + ([Register(i)] + [])));
      && Legal(w, run)
      && After(w, run) == w.(owner := w.owner + [i], sup := Registered(w.sup, i, Info(|w.owner|, None, None)))
  {
    var a := Apply(w, Start(i));
    var b := Apply(a, Check(i));
    var c := Apply(b, Spawn(i));
    var d := Apply(c, Register(i));
    assert d.jobs == w.jobs;
    assert d == w.(owner := w.owner + [i], sup := Registered(w.sup, i, Info(|w.owner|, None, None)));
    assert Enabled(a, Check(i)) && Enabled(b, Spawn(i)) && Enabled(c, Register(i));
    hide Enabled, Apply;
    LegalFirst(c, Register(i), []);
    LegalFirst(b, Spawn(i), [Register(i)] + []);
    LegalFirst(a, Check(i), [Spawn(i)] + ([Register(i)] + []));
    LegalFirst(w, Start(i), [Check(i)] + ([Spawn(i)] + ([Register(i)] + [])));
  }

  /** A stop when nothing runs has nothing to stop: no live process of the instance was missed. */
  lemma NothingToStop(run: seq<Step>, i: string, p: nat)
    requires Legal(Boot, run) && Enabled(After(Boot, run), Stop(i, false))
    requires i !in After(Boot, run).sup.running && Live(After(Boot, run), p)
    ensures After(Boot, run).owner[p] != i
  {
    hide Legal, After;
    NoLiveProcessIsLost(run, p);
  }
}
