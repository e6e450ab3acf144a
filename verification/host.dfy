/** What the extension sees of its host and what it asks the host to do.
    The editor and the operating system are reduced to oracles (`Env`) and
    to effect tokens (`Effect`) that the transitions return in order. */
module Host {
  import opened Optional
  import PortProbe

  /** `installed`: whether `command-exists` resolves the command;
      `folders`: the paths of `workspace.workspaceFolders`, None when it is
      undefined; `platform`: `process.platform`; `probeExit`: the exit code
      the port probe reports for a port. */
  datatype Env = Env(
    installed: bool,
    folders: Option<seq<string>>,
    platform: string,
    probeExit: int -> Option<int>)

  /** A folder is open, so `workspaceFolders[0]` can be read. */
  predicate HasFolder(env: Env) {
    env.folders.Some? && |env.folders.value| > 0
  }

  /** The working directory every spawn uses: the first workspace folder. */
  function FirstFolder(env: Env): string
    requires HasFolder(env)
  {
    env.folders.value[0]
  }

  /** `workspaceFolders` is an empty array: it is truthy, so the "no
      workspace" check passes, and reading its first element throws, which
      abandons the command without any further effect. */
  predicate FoldersEmpty(env: Env) {
    env.folders == Some([])
  }

  datatype Effect =
    | Probe(probe: PortProbe.Invocation)                 // run the port probe once
    | Spawn(cmd: string, args: seq<string>, cwd: string) // start the decker tool
    | Kill                                               // kill the server process
    | ShowInstall                                        // installation help panel
    | ShowError(message: string)                         // error notification
    | Info(message: string)                              // information notification
    | Log(line: string)                                  // line in the log channel
    | RefreshStatus                                      // redraw the status bar item

  /** Port occupancy as the probe's exit codes report it. */
  function Occupancy(env: Env): int -> bool {
    p => PortProbe.Occupied(env.probeExit(p))
  }

  predicate IsSpawn(e: Effect) {
    e.Spawn?
  }

  predicate IsKill(e: Effect) {
    e.Kill?
  }

  /** How many of `effects` satisfy `kind`. */
  function Count(effects: seq<Effect>, kind: Effect -> bool): (n: nat)
    ensures n <= |effects|
    ensures n == 0 <==> forall i :: 0 <= i < |effects| ==> !kind(effects[i])
  {
    if |effects| == 0 then 0
    else (if kind(effects[0]) then 1 else 0) + Count(effects[1..], kind)
  }

  function Spawns(effects: seq<Effect>): nat {
    Count(effects, IsSpawn)
  }

  function Kills(effects: seq<Effect>): nat {
    Count(effects, IsKill)
  }

  lemma {:induction false} CountAppend(a: seq<Effect>, b: seq<Effect>, kind: Effect -> bool)
    ensures Count(a + b, kind) == Count(a, kind) + Count(b, kind)
  {
    if |a| > 0 {
      assert (a + b)[1..] == a[1..] + b;
      CountAppend(a[1..], b, kind);
    } else {
      assert a + b == b;
    }
  }
}
