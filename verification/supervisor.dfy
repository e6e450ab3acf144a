/** The long-lived decker server: the module-level process handle and port
    (`deckerProcess`, `deckerPort`) as a two-state machine, and the commands
    and process events that move it. Each transition is a pure function from
    the current state to the next state and the effects, in order. */
module Supervisor {
  import opened Optional
  import opened Host
  import Config
  import Decimal
  import PortNegotiation
  import PortProbe

  /** Idle: no server process is held. Running: one is held, started on `port`. */
  datatype Server = Idle | Running(port: int)

  datatype Transition = Transition(state: Server, effects: seq<Effect>)

  const AlreadyRunningMessage := "Decker is already running in this session."
  const NoWorkspaceMessage := "No workspace is open to start a decker server in."
  const TerminatedMessage := "Decker Server terminated."
  const ProcessErrorMessage := "An error just happend to the decker server process."

  /** The command line of the server: `--server -p <port> -e`. */
  function ServerArgs(port: int): (args: seq<string>)
    ensures ServerPortOf(args) == Some(port)
  {
    Decimal.ParseIntToString(port);
    ["--server", "-p", Decimal.IntToString(port), "-e"]
  }

  /** The port a server command line asks decker to listen on. */
  function ServerPortOf(args: seq<string>): Option<int> {
    if |args| == 4 && args[0] == "--server" && args[1] == "-p" && args[3] == "-e"
    then Decimal.ParseInt(args[2])
    else None
  }

  /** A server command line asks for `port` exactly when it is the one
      `ServerArgs` builds for `port`. */
  lemma ServerPortOfExact(args: seq<string>, port: int)
    ensures ServerPortOf(args) == Some(port) <==> args == ServerArgs(port)
  {
    if ServerPortOf(args) == Some(port) {
      Decimal.ParseIntOnlyRendered(args[2], port);
      assert args == [args[0], args[1], args[2], args[3]];
    }
  }

  /** One probe run per port, in the order probed, with the platform's
      probe command line. */
  function ProbeEffects(platform: string, ports: seq<int>): (effects: seq<Effect>)
    ensures |effects| == |ports|
    ensures forall i :: 0 <= i < |ports| ==> effects[i] == Probe(PortProbe.ProbeInvocation(platform, ports[i]))
    ensures Spawns(effects) == 0 && Kills(effects) == 0
  {
    seq(|ports|, i requires 0 <= i < |ports| => Probe(PortProbe.ProbeInvocation(platform, ports[i])))
  }

  /** Start reaches the port loop: installed, idle, a workspace folder is open. */
  predicate StartSpawns(s: Server, env: Env) {
    env.installed && s.Idle? && HasFolder(env)
  }

  /** The port loop terminates: some port at or above the configured one is free. */
  ghost predicate PortAvailable(settings: Config.Settings, env: Env) {
    PortNegotiation.HasFreePortFrom(Occupancy(env), Config.Port(settings))
  }

  /** What a successful start did: probed the configured port and each one
      above it up to the first whose probe did not exit with 0, one probe
      per port in increasing order, and then spawned the server there with
      the first workspace folder as working directory. */
  predicate StartedOn(settings: Config.Settings, env: Env, port: int, effects: seq<Effect>)
    requires HasFolder(env)
  {
    var start := Config.Port(settings);
    && port >= start
    && env.probeExit(port) != Some(0)
    && (forall q :: start <= q < port ==> env.probeExit(q) == Some(0))
    && |effects| == port - start + 2
    && (forall i :: 0 <= i < |effects| - 1 ==>
          effects[i] == Probe(PortProbe.ProbeInvocation(env.platform, start + i)))
    && effects[|effects| - 1] == Spawn(Config.Command(settings), ServerArgs(port), FirstFolder(env))
  }

  /** The effects of a launch after negotiation `n`: one probe per port
      probed, then the spawn on the chosen port. */
  function LaunchEffects(settings: Config.Settings, env: Env, n: PortNegotiation.Outcome): seq<Effect>
    requires HasFolder(env)
  {
    ProbeEffects(env.platform, n.probes) + [Spawn(Config.Command(settings), ServerArgs(n.port), FirstFolder(env))]
  }

  /** The negotiated port is the least one whose probe did not exit with 0. */
  lemma NegotiatedPort(settings: Config.Settings, env: Env)
    requires PortAvailable(settings, env)
    ensures var start := Config.Port(settings);
      var port := PortNegotiation.Negotiate(Occupancy(env), start).port;
      port >= start && env.probeExit(port) != Some(0)
      && forall q :: start <= q < port ==> env.probeExit(q) == Some(0)
  {
    var start := Config.Port(settings);
    var port := PortNegotiation.Negotiate(Occupancy(env), start).port;
    forall q | start <= q < port
      ensures env.probeExit(q) == Some(0)
    {
      assert Occupancy(env)(q);
    }
    assert !Occupancy(env)(port);
  }

  /** Probing the ports counted up from `start` runs the platform's probe
      for start, start + 1, ... in that order. */
  lemma ProbesCountUp(platform: string, probes: seq<int>, start: int, last: int)
    requires PortNegotiation.CountsUp(probes, start, last)
    ensures forall i :: 0 <= i < |probes| ==>
      ProbeEffects(platform, probes)[i] == Probe(PortProbe.ProbeInvocation(platform, start + i))
  {
    forall i | 0 <= i < |probes|
      ensures ProbeEffects(platform, probes)[i] == Probe(PortProbe.ProbeInvocation(platform, start + i))
    {
      assert probes[i] == start + i;
    }
  }

  /** A launch probes the ports in order, with the platform's probe command,
      and ends with the spawn. */
  lemma LaunchOrder(settings: Config.Settings, env: Env, n: PortNegotiation.Outcome)
    requires HasFolder(env)
    requires PortNegotiation.CountsUp(n.probes, Config.Port(settings), n.port)
    ensures var effects := LaunchEffects(settings, env, n);
      && |effects| == n.port - Config.Port(settings) + 2
      && (forall i :: 0 <= i < |effects| - 1 ==>
            effects[i] == Probe(PortProbe.ProbeInvocation(env.platform, Config.Port(settings) + i)))
      && effects[|effects| - 1] == Spawn(Config.Command(settings), ServerArgs(n.port), FirstFolder(env))
  {
    var probes := ProbeEffects(env.platform, n.probes);
    var effects := LaunchEffects(settings, env, n);
    ProbesCountUp(env.platform, n.probes, Config.Port(settings), n.port);
    forall i | 0 <= i < |effects| - 1
      ensures effects[i] == Probe(PortProbe.ProbeInvocation(env.platform, Config.Port(settings) + i))
    {
      assert effects[i] == probes[i];
    }
  }

  /** A launch spawns once and kills nothing. */
  lemma LaunchCounts(settings: Config.Settings, env: Env, n: PortNegotiation.Outcome)
    requires HasFolder(env)
    ensures Spawns(LaunchEffects(settings, env, n)) == 1 && Kills(LaunchEffects(settings, env, n)) == 0
  {
    var probes := ProbeEffects(env.platform, n.probes);
    var spawn := Spawn(Config.Command(settings), ServerArgs(n.port), FirstFolder(env));
    CountAppend(probes, [spawn], IsSpawn);
    CountAppend(probes, [spawn], IsKill);
  }

  /** The part of `startDeckerServer` past its checks: negotiate the port,
      record it, and spawn the server on it. */
  function Launch(settings: Config.Settings, env: Env): (r: Transition)
    requires HasFolder(env) && PortAvailable(settings, env)
    ensures r.state.Running? && StartedOn(settings, env, r.state.port, r.effects)
    ensures Spawns(r.effects) == 1 && Kills(r.effects) == 0
  {
    var n := PortNegotiation.Negotiate(Occupancy(env), Config.Port(settings));
    NegotiatedPort(settings, env);
    LaunchOrder(settings, env, n);
    LaunchCounts(settings, env, n);
    Transition(Running(n.port), LaunchEffects(settings, env, n))
  }

  /** `startDeckerServer`. */
  function Start(s: Server, settings: Config.Settings, env: Env): (r: Transition)
    requires StartSpawns(s, env) ==> PortAvailable(settings, env)
    ensures Spawns(r.effects) == (if StartSpawns(s, env) then 1 else 0)
    ensures Kills(r.effects) == 0
    ensures !env.installed ==> r.state == s && r.effects == [ShowInstall, RefreshStatus]
    ensures env.installed && s.Running? ==> r.state == s && r.effects == [Info(AlreadyRunningMessage), RefreshStatus]
    ensures env.installed && s.Idle? && env.folders.None? ==> r.state == Idle && r.effects == [ShowError(NoWorkspaceMessage)]
    ensures env.installed && s.Idle? && FoldersEmpty(env) ==> r == Transition(s, [])
    ensures StartSpawns(s, env) ==> r.state.Running? && StartedOn(settings, env, r.state.port, r.effects)
  {
    if !env.installed then Transition(s, [ShowInstall, RefreshStatus])
    else if s.Running? then Transition(s, [Info(AlreadyRunningMessage), RefreshStatus])
    else if env.folders.None? then Transition(s, [ShowError(NoWorkspaceMessage)])
    else if !HasFolder(env) then Transition(s, [])
    else Launch(settings, env)
  }

  /** `stopDeckerServer`: kill the held process, if any, and forget it. */
  function Stop(s: Server): (r: Transition)
    ensures r.state == Idle
    ensures Kills(r.effects) == (if s.Running? then 1 else 0)
    ensures Spawns(r.effects) == 0
    ensures RefreshStatus in r.effects
  {
    if s.Running? then Transition(Idle, [Kill, RefreshStatus]) else Transition(Idle, [RefreshStatus])
  }

  /** The toggle command: stop a held server, start otherwise. */
  function Toggle(s: Server, settings: Config.Settings, env: Env): (r: Transition)
    requires StartSpawns(s, env) ==> PortAvailable(settings, env)
    ensures s.Running? ==> r == Stop(s)
    ensures s.Idle? ==> r == Start(s, settings, env)
    ensures s.Running? ==> r.state == Idle && Kills(r.effects) == 1 && Spawns(r.effects) == 0
    ensures s.Idle? ==> Kills(r.effects) == 0 && (r.state.Running? <==> StartSpawns(s, env))
    ensures env.installed && HasFolder(env) ==> r.state.Running? != s.Running?
  {
    if s.Running? then Stop(s) else Start(s, settings, env)
  }

  /** The log line for the server's exit: the code is shown only when truthy. */
  function ExitLine(code: Option<int>): string {
    if code.Some? && code.value != 0
    then "[DECKER EXIT] Server closed with exitcode: " + Decimal.IntToString(code.value)
    else "[DECKER EXIT] Server Closed"
  }

  /** The server process's `exit` event: whatever the code, the handle is gone. */
  function OnExit(s: Server, code: Option<int>): (r: Transition)
    ensures r.state == Idle
    ensures Spawns(r.effects) == 0 && Kills(r.effects) == 0
    ensures Info(TerminatedMessage) in r.effects
  {
    Transition(Idle, [Info(TerminatedMessage), Log(ExitLine(code)), RefreshStatus])
  }

  /** The server process's `error` event: logged and reported, the handle kept. */
  function OnError(s: Server, message: string): (r: Transition)
    ensures r.state == s
    ensures Spawns(r.effects) == 0 && Kills(r.effects) == 0
    ensures Log("[DECKER ERROR] " + message) in r.effects
  {
    Transition(s, [Log("[DECKER ERROR] " + message), Info(ProcessErrorMessage), RefreshStatus])
  }

  /** `activate`: the status bar is drawn, then the server is started when
      the autostart setting is on. */
  function Activate(settings: Config.Settings, autostart: bool, env: Env): (r: Transition)
    requires autostart && StartSpawns(Idle, env) ==> PortAvailable(settings, env)
    ensures !autostart ==> r.state == Idle && r.effects == [RefreshStatus]
    ensures Spawns(r.effects) == (if autostart && StartSpawns(Idle, env) then 1 else 0)
    ensures r.state.Running? <==> autostart && StartSpawns(Idle, env)
    ensures autostart ==> r.state == Start(Idle, settings, env).state
    ensures autostart ==> r.effects == [RefreshStatus] + Start(Idle, settings, env).effects
  {
    if autostart then
      var t := Start(Idle, settings, env);
      CountAppend([RefreshStatus], t.effects, IsSpawn);
      Transition(t.state, [RefreshStatus] + t.effects)
    else Transition(Idle, [RefreshStatus])
  }

  /** Only a probe exit code of 0 makes start move past a port: a port whose
      probe exited otherwise, or without a code, is the one started on. */
  lemma ProbeVerdict(settings: Config.Settings, env: Env)
    requires StartSpawns(Idle, env) && PortAvailable(settings, env)
    ensures env.probeExit(Config.Port(settings)) != Some(0) ==>
      Start(Idle, settings, env).state == Running(Config.Port(settings))
    ensures env.probeExit(Config.Port(settings)) == Some(0) ==>
      Start(Idle, settings, env).state.port > Config.Port(settings)
  {
  }

  /** Stopping twice kills at most once and leaves the server idle both times. */
  lemma StopIdempotent(s: Server)
    ensures Stop(Stop(s).state) == Transition(Idle, [RefreshStatus])
    ensures Kills(Stop(s).effects) + Kills(Stop(Stop(s).state).effects) <= 1
  {
  }

  /** A second start while the first one's server is held spawns nothing and
      keeps the port. */
  lemma StartTwiceSpawnsOnce(settings: Config.Settings, env: Env)
    requires env.installed && HasFolder(env) && PortAvailable(settings, env)
    ensures Start(Start(Idle, settings, env).state, settings, env).state == Start(Idle, settings, env).state
    ensures Spawns(Start(Start(Idle, settings, env).state, settings, env).effects) == 0
  {
  }

  /** After the server exits, with any code, a start spawns a new one. */
  lemma ExitAllowsRestart(s: Server, code: Option<int>, settings: Config.Settings, env: Env)
    requires env.installed && HasFolder(env) && PortAvailable(settings, env)
    ensures Spawns(Start(OnExit(s, code).state, settings, env).effects) == 1
  {
  }

  /** After an error event the handle is still held, so a start only reports
      that the server is already running. */
  lemma ErrorBlocksRestart(port: int, message: string, settings: Config.Settings, env: Env)
    requires env.installed
    ensures Start(OnError(Running(port), message).state, settings, env)
         == Transition(Running(port), [Info(AlreadyRunningMessage), RefreshStatus])
  {
  }
}
