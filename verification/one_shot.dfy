/** The one-shot commands (clean, build, publish, crunch): run decker once in
    the workspace and report when it exits. They hold no process handle and
    never touch the server's state, which is why they take none. */
module OneShot {
  import opened Optional
  import opened Host
  import Config
  import Decimal

  datatype Task = Clean | Build | Publish | Crunch

  /** The arguments decker is run with for each task. */
  function TaskArgs(t: Task): seq<string> {
    match t
    case Clean => ["clean"]
    case Build => []
    case Publish => ["publish"]
    case Crunch => ["crunch"]
  }

  /** The task a one-shot command line performs; None for anything else. */
  function TaskOf(args: seq<string>): Option<Task> {
    if args == [] then Some(Build)
    else if args == ["clean"] then Some(Clean)
    else if args == ["publish"] then Some(Publish)
    else if args == ["crunch"] then Some(Crunch)
    else None
  }

  /** The word used for the task in its exit log line. */
  function Label(t: Task): string {
    match t
    case Clean => "clean"
    case Build => "build"
    case Publish => "publish"
    case Crunch => "crunch"
  }

  function NoWorkspaceMessage(t: Task): string {
    if t == Clean then "No workspace is open to clean a project in."
    else "No workspace is open to run a decker command in."
  }

  function FinishedMessage(t: Task): string {
    match t
    case Clean => "Finished cleaning project."
    case Build => "Finished building project."
    case Publish => "Finished publishing project."
    case Crunch => "Finished reformatting video files."
  }

  /** `cleanProject`, `buildProject`, `publishProject`, `crunchVideos`:
      installation is checked first, then the workspace; only then is decker
      spawned, once, with the task's arguments in the first workspace folder. */
  function Run(t: Task, settings: Config.Settings, env: Env): (effects: seq<Effect>)
    ensures Spawns(effects) == (if env.installed && HasFolder(env) then 1 else 0)
    ensures Kills(effects) == 0
    ensures !env.installed ==> effects == [ShowInstall]
    ensures env.installed && env.folders.None? ==> effects == [ShowError(NoWorkspaceMessage(t))]
    ensures env.installed && FoldersEmpty(env) ==> effects == []
    ensures env.installed && HasFolder(env) ==>
      |effects| == 1 && effects[0].Spawn? && TaskOf(effects[0].args) == Some(t)
      && effects[0].cmd == Config.Command(settings) && effects[0].cwd == FirstFolder(env)
  {
    if !env.installed then [ShowInstall]
    else if env.folders.None? then [ShowError(NoWorkspaceMessage(t))]
    else if !HasFolder(env) then []
    else
      TaskArgsIdentifyTask(t);
      [Spawn(Config.Command(settings), TaskArgs(t), FirstFolder(env))]
  }

  /** The exit log line: the exit code is shown only when truthy. */
  function ExitLine(t: Task, code: Option<int>): string {
    var head := "[DECKER EXIT] decker " + Label(t);
    if code.Some? && code.value != 0 then head + " exitcode: " + Decimal.IntToString(code.value) else head
  }

  /** The one-shot process's `exit` event: a completion notice whatever the code. */
  function OnExit(t: Task, code: Option<int>): (effects: seq<Effect>)
    ensures |effects| == 2 && effects[0] == Info(FinishedMessage(t))
    ensures Spawns(effects) == 0
  {
    [Info(FinishedMessage(t)), Log(ExitLine(t, code))]
  }

  /** The one-shot process's `error` event: logged only. */
  function OnError(message: string): (effects: seq<Effect>)
    ensures forall i :: 0 <= i < |effects| ==> effects[i].Log?
    ensures Log("[DECKER ERROR] " + message) in effects
  {
    [Log("[DECKER ERROR] " + message)]
  }

  /** Each task's command line names the task, so decker can tell them apart,
      and none of them starts a server. */
  lemma TaskArgsIdentifyTask(t: Task)
    ensures TaskOf(TaskArgs(t)) == Some(t)
    ensures "--server" !in TaskArgs(t)
  {
  }

  /** A success and a failure are announced alike; only the log differs. */
  lemma ExitNoticeIgnoresCode(t: Task, c: int)
    requires c != 0
    ensures OnExit(t, Some(c))[0] == OnExit(t, Some(0))[0]
    ensures OnExit(t, Some(c)) != OnExit(t, Some(0))
  {
    var tail := " exitcode: " + Decimal.IntToString(c);
    var head := "[DECKER EXIT] decker " + Label(t);
    assert |ExitLine(t, Some(c))| == |head| + |tail| > |head|;
  }
}
