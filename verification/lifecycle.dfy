/** Runs of commands and process events, with the server processes they
    create told apart. Every spawn gets a fresh id; `held` is the process
    `deckerProcess` refers to, and `unstopped` the server processes that were
    spawned and have neither been killed nor exited. The `exit` handler is
    registered on each process, so its event names that process; the handler
    as written clears whatever handle is current, and `OwnExitOnly` is the
    handler that clears the handle only when it is the exiting process. */
module Lifecycle {
  import opened Optional
  import opened Host
  import Config
  import Supervisor

  datatype World = World(server: Supervisor.Server, held: Option<nat>, unstopped: set<nat>, next: nat)

  /** No server process at all: the state at activation. */
  const Initial := World(Supervisor.Idle, None, {}, 0)

  /** The inputs that move the state: the start, stop and toggle commands,
      and the exit and error events of the server process `pid`. */
  datatype Event =
    | StartCmd
    | StopCmd
    | ToggleCmd
    | Exited(pid: nat, code: Option<int>)
    | Failed(pid: nat, message: string)

  datatype ExitHandler = AsWritten | OwnExitOnly

  datatype Outcome = Outcome(world: World, effects: seq<Effect>)

  function HeldSet(w: World): set<nat> {
    if w.held.Some? then {w.held.value} else {}
  }

  /** The handle is set exactly when the server state is Running. */
  predicate Consistent(w: World) {
    w.server.Running? <==> w.held.Some?
  }

  /** Every server process nobody has stopped is the held one, so at most
      one such process exists. */
  predicate OneServer(w: World) {
    Consistent(w) && w.unstopped <= HeldSet(w)
  }

  function Live(s: Supervisor.Server): nat {
    if s.Running? then 1 else 0
  }

  function Exits(events: seq<Event>): (n: nat)
    ensures n <= |events|
  {
    if |events| == 0 then 0
    else (if events[0].Exited? then 1 else 0) + Exits(events[1..])
  }

  /** The step does not enter the port loop, or the loop ends. */
  ghost predicate StepEnds(w: World, ev: Event, settings: Config.Settings, env: Env) {
    (ev.StartCmd? || ev.ToggleCmd?) && Supervisor.StartSpawns(w.server, env) ==>
      Supervisor.PortAvailable(settings, env)
  }

  /** Every id in use is below `next`, so `next` names no process yet. */
  predicate IdsBelowNext(w: World) {
    (forall p :: p in w.unstopped ==> p < w.next) && (w.held.Some? ==> w.held.value < w.next)
  }

  /** Start: a spawn creates the process `next` and makes it the held one. */
  function Begin(w: World, settings: Config.Settings, env: Env): (r: Outcome)
    requires Supervisor.StartSpawns(w.server, env) ==> Supervisor.PortAvailable(settings, env)
    ensures r.effects == Supervisor.Start(w.server, settings, env).effects
    ensures r.world.server == Supervisor.Start(w.server, settings, env).state
    ensures Spawns(r.effects) == 1 ==>
      r.world.server.Running? && r.world.held == Some(w.next) && r.world.unstopped == w.unstopped + {w.next}
      && r.world.next == w.next + 1
    ensures Spawns(r.effects) == 0 ==> r.world == w
  {
    var t := Supervisor.Start(w.server, settings, env);
    if Supervisor.StartSpawns(w.server, env) then
      Outcome(World(t.state, Some(w.next), w.unstopped + {w.next}, w.next + 1), t.effects)
    else Outcome(w.(server := t.state), t.effects)
  }

  /** A start keeps the handle in step with the state, keeps every unstopped
      server the held one, and gives a spawned process an id no existing
      process has. */
  lemma BeginKeepsWorld(w: World, settings: Config.Settings, env: Env)
    requires Supervisor.StartSpawns(w.server, env) ==> Supervisor.PortAvailable(settings, env)
    ensures var r := Begin(w, settings, env);
      && (Consistent(w) ==> Consistent(r.world))
      && (OneServer(w) ==> OneServer(r.world))
      && (IdsBelowNext(w) ==> IdsBelowNext(r.world))
      && (Spawns(r.effects) == 1 && IdsBelowNext(w) ==> w.next !in w.unstopped + HeldSet(w))
  {
    var r := Begin(w, settings, env);
    if Spawns(r.effects) == 1 {
      assert Supervisor.StartSpawns(w.server, env);
      SpawnKeepsWorld(w, r.world);
    }
  }

  /** The world after spawning process `next` from Idle. */
  lemma SpawnKeepsWorld(w: World, n: World)
    requires w.server.Idle? && n.server.Running?
    requires n.held == Some(w.next) && n.unstopped == w.unstopped + {w.next} && n.next == w.next + 1
    ensures Consistent(n)
    ensures OneServer(w) ==> OneServer(n)
    ensures IdsBelowNext(w) ==> IdsBelowNext(n) && w.next !in w.unstopped + HeldSet(w)
  {
  }

  /** Stop: the held process is killed and forgotten. */
  function End(w: World): (r: Outcome)
    ensures r.effects == Supervisor.Stop(w.server).effects
    ensures r.world.server == Supervisor.Idle && r.world.next == w.next
    ensures r.world.held == None && r.world.unstopped == w.unstopped - HeldSet(w)
    ensures OneServer(r.world) <==> w.unstopped <= HeldSet(w)
    ensures IdsBelowNext(w) ==> IdsBelowNext(r.world)
  {
    var t := Supervisor.Stop(w.server);
    Outcome(World(t.state, None, w.unstopped - HeldSet(w), w.next), t.effects)
  }

  /** The exit event of process `pid`: it is no longer running; the handle is
      cleared always (as written) or only when it is `pid` (own exit only). */
  function Exit(w: World, pid: nat, code: Option<int>, handler: ExitHandler): (r: Outcome)
    ensures r.effects == Supervisor.OnExit(w.server, code).effects
    ensures r.world.unstopped == w.unstopped - {pid} && r.world.next == w.next
    ensures handler == AsWritten ==> r.world.held == None && r.world.server == Supervisor.Idle
    ensures handler == OwnExitOnly && w.held == Some(pid) ==> r.world.held == None && r.world.server == Supervisor.Idle
    ensures handler == OwnExitOnly && w.held != Some(pid) ==> r.world.held == w.held && r.world.server == w.server
    ensures IdsBelowNext(w) ==> IdsBelowNext(r.world)
  {
    var t := Supervisor.OnExit(w.server, code);
    if handler == AsWritten || w.held == Some(pid) then
      Outcome(World(t.state, None, w.unstopped - {pid}, w.next), t.effects)
    else Outcome(w.(unstopped := w.unstopped - {pid}), t.effects)
  }

  /** One input applied to the state. */
  function Step(w: World, ev: Event, handler: ExitHandler, settings: Config.Settings, env: Env): (r: Outcome)
    requires StepEnds(w, ev, settings, env)
    ensures Spawns(r.effects) + Live(w.server) <= Kills(r.effects) + (if ev.Exited? then 1 else 0) + Live(r.world.server)
    ensures Spawns(r.effects) > 0 ==> w.server.Idle? && r.world.server.Running? && Spawns(r.effects) == 1
    ensures !ev.StopCmd? && !ev.ToggleCmd? ==> Kills(r.effects) == 0
    ensures Consistent(w) ==> Consistent(r.world)
    ensures handler == OwnExitOnly && OneServer(w) ==> OneServer(r.world)
    ensures IdsBelowNext(w) ==> IdsBelowNext(r.world)
  {
    match ev
    case StartCmd => BeginKeepsWorld(w, settings, env); Begin(w, settings, env)
    case StopCmd => End(w)
    case ToggleCmd => if w.server.Running? then End(w) else BeginKeepsWorld(w, settings, env); Begin(w, settings, env)
    case Exited(pid, code) => Exit(w, pid, code, handler)
    case Failed(pid, message) =>
      var t := Supervisor.OnError(w.server, message);
      Outcome(w.(server := t.state), t.effects)
  }

  /** Every start in the run that enters the port loop finds a free port. */
  ghost predicate PortLoopsEnd(w: World, events: seq<Event>, handler: ExitHandler, settings: Config.Settings, env: Env)
    decreases |events|
  {
    |events| == 0
    || (StepEnds(w, events[0], settings, env)
        && PortLoopsEnd(Step(w, events[0], handler, settings, env).world, events[1..], handler, settings, env))
  }

  /** The inputs applied one after another from `w`: the final state and all
      effects in order. */
  function Replay(w: World, events: seq<Event>, handler: ExitHandler, settings: Config.Settings, env: Env): Outcome
    requires PortLoopsEnd(w, events, handler, settings, env)
    decreases |events|
  {
    if |events| == 0 then Outcome(w, [])
    else
      var first := Step(w, events[0], handler, settings, env);
      var rest := Replay(first.world, events[1..], handler, settings, env);
      Outcome(rest.world, first.effects + rest.effects)
  }

  /** The run holds no start or toggle command. */
  predicate NeverStarts(events: seq<Event>) {
    forall i :: 0 <= i < |events| ==> !events[i].StartCmd? && !events[i].ToggleCmd?
  }

  /** Runs that never reach the port loop need no free port: stops, exits
      and errors in any environment, and every run when decker is not
      installed. */
  lemma {:induction false} PortLoopsEndWithoutSpawn(w: World, events: seq<Event>, handler: ExitHandler, settings: Config.Settings, env: Env)
    requires !env.installed || NeverStarts(events)
    ensures PortLoopsEnd(w, events, handler, settings, env)
    decreases |events|
  {
    if |events| > 0 {
      var first := Step(w, events[0], handler, settings, env);
      PortLoopsEndWithoutSpawn(first.world, events[1..], handler, settings, env);
    }
  }

  /** Spawn accounting over any run: spawns plus the server held at the start
      never exceed kills plus exit events plus the server held at the end. */
  lemma {:induction false} ReplayBalance(w: World, events: seq<Event>, handler: ExitHandler, settings: Config.Settings, env: Env)
    requires PortLoopsEnd(w, events, handler, settings, env)
    ensures var r := Replay(w, events, handler, settings, env);
      Spawns(r.effects) + Live(w.server) <= Kills(r.effects) + Exits(events) + Live(r.world.server)
    decreases |events|
  {
    if |events| > 0 {
      var first := Step(w, events[0], handler, settings, env);
      var rest := Replay(first.world, events[1..], handler, settings, env);
      ReplayBalance(first.world, events[1..], handler, settings, env);
      CountAppend(first.effects, rest.effects, IsSpawn);
      CountAppend(first.effects, rest.effects, IsKill);
    }
  }

  /** From activation, spawns never exceed kills plus exit events by more
      than one. This counts events, not processes: an exit event may come
      from a server that was already killed. */
  lemma SpawnsBoundedByStops(events: seq<Event>, handler: ExitHandler, settings: Config.Settings, env: Env)
    requires PortLoopsEnd(Initial, events, handler, settings, env)
    ensures var r := Replay(Initial, events, handler, settings, env);
      Spawns(r.effects) <= Kills(r.effects) + Exits(events) + 1
  {
    ReplayBalance(Initial, events, handler, settings, env);
  }

  /** The run never asks to stop the server. */
  predicate NeverStops(events: seq<Event>) {
    forall i :: 0 <= i < |events| ==> !events[i].StopCmd? && !events[i].ToggleCmd?
  }

  lemma {:induction false} NeverStopsNeverKills(w: World, events: seq<Event>, handler: ExitHandler, settings: Config.Settings, env: Env)
    requires PortLoopsEnd(w, events, handler, settings, env)
    requires NeverStops(events)
    ensures Kills(Replay(w, events, handler, settings, env).effects) == 0
    decreases |events|
  {
    if |events| > 0 {
      var first := Step(w, events[0], handler, settings, env);
      NeverStopsNeverKills(first.world, events[1..], handler, settings, env);
      CountAppend(first.effects, Replay(first.world, events[1..], handler, settings, env).effects, IsKill);
    }
  }

  /** Repeated starts, with any error events in between, spawn at most one
      server as long as it never exits and is never stopped. */
  lemma RepeatedStartsSpawnOnce(events: seq<Event>, handler: ExitHandler, settings: Config.Settings, env: Env)
    requires PortLoopsEnd(Initial, events, handler, settings, env)
    requires NeverStops(events) && Exits(events) == 0
    ensures Spawns(Replay(Initial, events, handler, settings, env).effects) <= 1
  {
    ReplayBalance(Initial, events, handler, settings, env);
    NeverStopsNeverKills(Initial, events, handler, settings, env);
  }

  /** With a handler that clears only its own process's handle, every server
      process nobody has stopped is the held one, over any run: at most one
      server runs, and it is the one stop would kill. */
  lemma {:induction false} OwnExitKeepsOneServer(w: World, events: seq<Event>, settings: Config.Settings, env: Env)
    requires OneServer(w)
    requires PortLoopsEnd(w, events, OwnExitOnly, settings, env)
    ensures OneServer(Replay(w, events, OwnExitOnly, settings, env).world)
    ensures |Replay(w, events, OwnExitOnly, settings, env).world.unstopped| <= 1
    decreases |events|
  {
    var r := Replay(w, events, OwnExitOnly, settings, env).world;
    if |events| > 0 {
      var first := Step(w, events[0], OwnExitOnly, settings, env);
      OwnExitKeepsOneServer(first.world, events[1..], settings, env);
    }
    assert |HeldSet(r)| <= 1;
    SubsetSize(r.unstopped, HeldSet(r));
  }

  /** Ids stay fresh over any run: each spawn's id names no process that
      exists already. */
  lemma {:induction false} ReplayKeepsIdsFresh(w: World, events: seq<Event>, handler: ExitHandler, settings: Config.Settings, env: Env)
    requires IdsBelowNext(w)
    requires PortLoopsEnd(w, events, handler, settings, env)
    ensures IdsBelowNext(Replay(w, events, handler, settings, env).world)
    decreases |events|
  {
    if |events| > 0 {
      var first := Step(w, events[0], handler, settings, env);
      ReplayKeepsIdsFresh(first.world, events[1..], handler, settings, env);
    }
  }

  /** With the own-exit-only handler the held server's own exit still clears
      the handle, so the next start spawns a new server. */
  lemma OwnExitAllowsRestart(w: World, code: Option<int>, settings: Config.Settings, env: Env)
    requires w.held.Some?
    requires env.installed && HasFolder(env) && Supervisor.PortAvailable(settings, env)
    ensures var after := Step(w, Exited(w.held.value, code), OwnExitOnly, settings, env).world;
      after.held == None && Spawns(Step(after, StartCmd, OwnExitOnly, settings, env).effects) == 1
  {
  }

  lemma SubsetSize(a: set<nat>, b: set<nat>)
    requires a <= b
    ensures |a| <= |b|
  {
    assert b == a + (b - a);
  }

  /** A run ends where its first step leads and the rest of the run ends. */
  lemma ReplayTail(w: World, ev: Event, rest: seq<Event>, handler: ExitHandler, settings: Config.Settings, env: Env, final: World)
    requires StepEnds(w, ev, settings, env)
    requires var next := Step(w, ev, handler, settings, env).world;
      PortLoopsEnd(next, rest, handler, settings, env)
      && Replay(next, rest, handler, settings, env).world == final
    ensures PortLoopsEnd(w, [ev] + rest, handler, settings, env)
    ensures Replay(w, [ev] + rest, handler, settings, env).world == final
  {
    assert ([ev] + rest)[0] == ev && ([ev] + rest)[1..] == rest;
  }

  /** The run of the stale-exit scenario: start server 0, stop it, start
      server 1, the late exit event of server 0, start again. */
  const StaleExitRun := [StartCmd, StopCmd, StartCmd, Exited(0, None), StartCmd]

  lemma StaleExitRunShape()
    ensures StaleExitRun == [StartCmd] + ([StopCmd] + ([StartCmd] + ([Exited(0, None)] + ([StartCmd] + []))))
  {
  }

  /** A start from Idle, installed and with a folder open, spawns the
      process `next` and holds it. */
  lemma SpawningStart(w: World, handler: ExitHandler, settings: Config.Settings, env: Env)
    requires env.installed && HasFolder(env) && Supervisor.PortAvailable(settings, env) && w.server.Idle?
    ensures StepEnds(w, StartCmd, settings, env)
    ensures var n := Step(w, StartCmd, handler, settings, env).world;
      n.server.Running? && n.held == Some(w.next) && n.unstopped == w.unstopped + {w.next} && n.next == w.next + 1
  {
  }

  /** A start while a server is held changes nothing. */
  lemma HeldStart(w: World, handler: ExitHandler, settings: Config.Settings, env: Env)
    requires w.server.Running?
    ensures StepEnds(w, StartCmd, settings, env)
    ensures Step(w, StartCmd, handler, settings, env).world == w
  {
  }

  lemma StopStep(w: World, handler: ExitHandler, settings: Config.Settings, env: Env)
    ensures StepEnds(w, StopCmd, settings, env)
    ensures Step(w, StopCmd, handler, settings, env).world == World(Supervisor.Idle, None, w.unstopped - HeldSet(w), w.next)
  {
  }

  lemma ExitStep(w: World, pid: nat, code: Option<int>, handler: ExitHandler, settings: Config.Settings, env: Env)
    ensures StepEnds(w, Exited(pid, code), settings, env)
    ensures handler == AsWritten ==>
      Step(w, Exited(pid, code), handler, settings, env).world == World(Supervisor.Idle, None, w.unstopped - {pid}, w.next)
    ensures handler == OwnExitOnly && w.held != Some(pid) ==>
      Step(w, Exited(pid, code), handler, settings, env).world == w.(unstopped := w.unstopped - {pid})
  {
  }

  /** The end of the stale-exit run, from server 1 held: the late exit of
      server 0, then a start. */
  const StaleExitTailRun: seq<Event> := [Exited(0, None)] + ([StartCmd] + [])

  /** The world after start, stop, start: server 1 held and alone. */
  predicate SecondServerHeld(w: World) {
    w.server.Running? && w.held == Some(1) && w.unstopped == {1} && w.next == 2
  }

  /** Start, stop, start from activation lead to server 1 held and alone. */
  lemma StartStopStart(handler: ExitHandler, settings: Config.Settings, env: Env)
    requires env.installed && HasFolder(env) && Supervisor.PortAvailable(settings, env)
    ensures SecondServerHeld(Step(Step(Step(Initial, StartCmd, handler, settings, env).world, StopCmd, handler, settings, env).world,
                                  StartCmd, handler, settings, env).world)
  {
    var a1 := Step(Initial, StartCmd, handler, settings, env).world;
    SpawningStart(Initial, handler, settings, env);
    var a2 := Step(a1, StopCmd, handler, settings, env).world;
    StopStep(a1, handler, settings, env);
    SpawningStart(a2, handler, settings, env);
  }

  /** The stale-exit run from activation ends where its tail from the
      third step ends. */
  lemma StaleExitPrefix(handler: ExitHandler, settings: Config.Settings, env: Env, w3: World, final: World)
    requires env.installed && HasFolder(env) && Supervisor.PortAvailable(settings, env)
    requires w3 == Step(Step(Step(Initial, StartCmd, handler, settings, env).world, StopCmd, handler, settings, env).world,
                        StartCmd, handler, settings, env).world
    requires PortLoopsEnd(w3, StaleExitTailRun, handler, settings, env)
    requires Replay(w3, StaleExitTailRun, handler, settings, env).world == final
    ensures PortLoopsEnd(Initial, StaleExitRun, handler, settings, env)
    ensures Replay(Initial, StaleExitRun, handler, settings, env).world == final
  {
    var a1 := Step(Initial, StartCmd, handler, settings, env).world;
    SpawningStart(Initial, handler, settings, env);
    var a2 := Step(a1, StopCmd, handler, settings, env).world;
    StopStep(a1, handler, settings, env);
    SpawningStart(a2, handler, settings, env);
    var r2 := [StartCmd] + StaleExitTailRun;
    var r1 := [StopCmd] + r2;
    ReplayTail(a2, StartCmd, StaleExitTailRun, handler, settings, env, final);
    ReplayTail(a1, StopCmd, r2, handler, settings, env, final);
    ReplayTail(Initial, StartCmd, r1, handler, settings, env, final);
    StaleExitRunShape();
  }

  /** As written, from server 1 held: server 0's late exit clears the
      handle and the start spawns server 2. */
  lemma StaleExitTailAsWritten(w3: World, settings: Config.Settings, env: Env)
    requires env.installed && HasFolder(env) && Supervisor.PortAvailable(settings, env)
    requires SecondServerHeld(w3)
    ensures PortLoopsEnd(w3, StaleExitTailRun, AsWritten, settings, env)
    ensures Replay(w3, StaleExitTailRun, AsWritten, settings, env).world.unstopped == {1, 2}
    ensures Replay(w3, StaleExitTailRun, AsWritten, settings, env).world.held == Some(2)
  {
    var a4 := Step(w3, Exited(0, None), AsWritten, settings, env).world;
    ExitStep(w3, 0, None, AsWritten, settings, env);
    var a5 := Step(a4, StartCmd, AsWritten, settings, env).world;
    SpawningStart(a4, AsWritten, settings, env);
    ReplayTail(a4, StartCmd, [], AsWritten, settings, env, a5);
    ReplayTail(w3, Exited(0, None), [StartCmd] + [], AsWritten, settings, env, a5);
    assert a4.unstopped == {1};
  }

  /** Own exit only, from server 1 held: server 0's late exit and the start
      change nothing. */
  lemma StaleExitTailOwnExitOnly(w3: World, settings: Config.Settings, env: Env)
    requires SecondServerHeld(w3)
    ensures PortLoopsEnd(w3, StaleExitTailRun, OwnExitOnly, settings, env)
    ensures Replay(w3, StaleExitTailRun, OwnExitOnly, settings, env).world == w3
  {
    ExitStep(w3, 0, None, OwnExitOnly, settings, env);
    HeldStart(w3, OwnExitOnly, settings, env);
    ReplayTail(w3, StartCmd, [], OwnExitOnly, settings, env, w3);
    ReplayTail(w3, Exited(0, None), [StartCmd] + [], OwnExitOnly, settings, env, w3);
  }

  /** The handler as written: the late exit of the killed server 0 clears the
      handle of server 1, and the next start spawns server 2 while 1 still
      runs, out of the extension's reach. */
  lemma StaleExitOrphansServer(settings: Config.Settings, env: Env)
    requires env.installed && HasFolder(env) && Supervisor.PortAvailable(settings, env)
    ensures PortLoopsEnd(Initial, StaleExitRun, AsWritten, settings, env)
    ensures Replay(Initial, StaleExitRun, AsWritten, settings, env).world.unstopped == {1, 2}
    ensures Replay(Initial, StaleExitRun, AsWritten, settings, env).world.held == Some(2)
  {
    var a3 := Step(Step(Step(Initial, StartCmd, AsWritten, settings, env).world, StopCmd, AsWritten, settings, env).world,
                   StartCmd, AsWritten, settings, env).world;
    StartStopStart(AsWritten, settings, env);
    StaleExitTailAsWritten(a3, settings, env);
    StaleExitPrefix(AsWritten, settings, env, a3, Replay(a3, StaleExitTailRun, AsWritten, settings, env).world);
  }

  /** A handler that clears only its own process's handle keeps server 1
      through the same run, and spawns no other. */
  lemma StaleExitIgnoredByOwnExitOnly(settings: Config.Settings, env: Env)
    requires env.installed && HasFolder(env) && Supervisor.PortAvailable(settings, env)
    ensures PortLoopsEnd(Initial, StaleExitRun, OwnExitOnly, settings, env)
    ensures Replay(Initial, StaleExitRun, OwnExitOnly, settings, env).world.unstopped == {1}
    ensures Replay(Initial, StaleExitRun, OwnExitOnly, settings, env).world.held == Some(1)
  {
    var o3 := Step(Step(Step(Initial, StartCmd, OwnExitOnly, settings, env).world, StopCmd, OwnExitOnly, settings, env).world,
                   StartCmd, OwnExitOnly, settings, env).world;
    StartStopStart(OwnExitOnly, settings, env);
    StaleExitTailOwnExitOnly(o3, settings, env);
    StaleExitPrefix(OwnExitOnly, settings, env, o3, o3);
  }
}
