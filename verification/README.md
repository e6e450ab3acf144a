# decker server extension: process supervision core

A Dafny model of the core of the VS Code extension that runs the `decker`
document tool (`src/extension.ts`). The extension keeps one module-level
handle on a long-lived `decker --server` process and the port it listens on,
moves it with the start, stop and toggle commands and with the process's
`exit` and `error` events, finds the port by probing upward from the
configured one, resolves its settings with JavaScript truthiness, runs
one-shot `decker` commands, and maps an open markdown document to the HTML
page the server publishes for it.

The editor and the operating system are replaced by oracles and effects.
`Host.Env` holds four inputs:

- whether `command-exists` finds the command;
- the workspace folder paths, None when `workspaceFolders` is undefined;
- `process.platform`;
- the exit code the port probe reports for each port.

Every transition is a pure function. It returns the next state and the
ordered list of effects it asks the host for: run the port probe (with the
platform's probe command line), spawn decker, kill the server, show the
install panel, show an error, show an information message, log a line,
redraw the status bar.

An empty `workspaceFolders` array passes the extension's "no workspace"
check, because an empty array is truthy. Reading its first element then
throws, and the command is abandoned without a message. The model gives
that case no effects and no state change.

Modules:

- `Optional`: the Option type for `undefined`/`null`.
- `Decimal`: the decimal text of an integer, as `${n}` renders it. `ParseInt` reads it back.
- `Strings`: `endsWith`, `indexOf`, and `replace` with a string pattern.
- `Config`: the `executable.command` and `server.port` settings and their fallbacks.
- `DocumentPath`: `getDocumentHTMLPath`, plus the corrected suffix mapping (see Findings).
- `PortProbe`: the probe command line per platform and the exit-code verdict.
- `PortNegotiation`: the upward probe loop, as a recursive function and as a while loop.
- `Host`: oracles, effects, effect counting.
- `Supervisor`: the `Idle | Running(port)` state machine.
- `OneShot`: clean, build, publish and crunch.
- `Lifecycle`: runs of commands and events with the server processes told apart by id, the exit handler as written and one that clears only its own process's handle.

Some behaviours of the code worth stating plainly:

- An `error` event from the server process does not clear the handle. Only an `exit` event and stop clear it.
- Stop does not check whether decker is installed. Only start and the one-shot commands do.
- The one-shot commands pass no `-e` flag.
- Document paths are mapped as they are; no sub-folder is stripped.

## Model

| member | source | states |
|---|---|---|
| Decimal.ParseIntToString | src/extension.ts:411 | the port text handed to decker reads back as exactly the negotiated port, negative ports included |
| Decimal.IntToStringInjective | src/extension.ts:411 | distinct ports give distinct `-p` arguments |
| Decimal.NatToStringValueOf | src/extension.ts:411 | digits without a leading zero are exactly the text `${n}` writes for their value |
| Decimal.ParseIntOnlyRendered | src/extension.ts:411 | the only text that reads back as a port is that port's `${port}` text: no leading zeros, no "-0" |
| Strings.IndexOf | src/extension.ts:159 | the leftmost occurrence of the pattern, or None exactly when the pattern occurs nowhere |
| Strings.ReplaceFirst | src/extension.ts:159 | `replace` with a string pattern rewrites only the leftmost occurrence and leaves the rest of the text as it was; with no occurrence the text is unchanged |
| DocumentPath.HtmlPath | src/extension.ts:152-165 | no path exactly when the file name is empty or the relative path does not end in ".md"; otherwise the relative path with its first ".md" rewritten to ".html" |
| DocumentPath.HtmlPathAgreesIffFirstIsSuffix | src/extension.ts:158-159 | the mapping swaps the file extension exactly when the first ".md" in the path is its suffix |
| DocumentPath.HtmlPathRewritesDirectory | src/extension.ts:158-159 | "notes.md/intro.md" maps to "notes.html/intro.md", which is not an HTML page path |
| DocumentPath.SuffixHtmlPath | src/extension.ts:158-159 | corrected mapping: same cases without a path, and every path it gives ends in ".html" |
| DocumentPath.SuffixHtmlPathRoundTrip | src/extension.ts:158-159 | the corrected mapping is undone by swapping ".html" back to ".md", giving the original relative path |
| Config.CommandOr | src/extension.ts:216-221 | the configured command is used exactly when truthy, otherwise the fallback |
| Config.PortOr | src/extension.ts:223-228 | the configured port is used exactly when truthy (non-zero), otherwise the fallback |
| Config.Command | src/extension.ts:383 | the command every operation runs is never empty |
| Config.Port | src/extension.ts:384 | the port negotiation starts from is never 0 |
| Config.CommandFallback | src/extension.ts:216-221 | unset and empty commands both give "decker"; resolving the result again changes nothing; the default is used exactly when the setting is falsy or is "decker" |
| Config.PortFallback | src/extension.ts:223-228 | unset and 0 both give 8888; a negative port is used as configured; resolving again changes nothing |
| PortProbe.ProbeInvocation | src/extension.ts:462-477 | powershell on "win32" and lsof on every other platform; the probed port reads back from the command line; start's probe effects carry these command lines |
| PortProbe.ProbedPortExact | src/extension.ts:468-477 | a command line of the platform's probe asks about a port exactly when it is, character for character, the probe built for that port with `${port}` |
| PortProbe.ProbeInvocationInjective | src/extension.ts:468-477 | distinct ports are probed with distinct command lines |
| PortNegotiation.NegotiateUpTo | src/extension.ts:405-409 | given a free port at or above the start, the result is the least free port at or above the start, found by probing start, start+1, ... once each in order |
| PortNegotiation.Negotiate | src/extension.ts:405-409 | the least free port at or above the start; probes are start, start+1, ... up to it, one per port |
| PortNegotiation.NegotiateLoop | src/extension.ts:405-409 | the probe-then-increment while loop finds the least free port, probes each port once in increasing order, and agrees with the recursive search |
| PortNegotiation.NegotiateFromSkippedPort | src/extension.ts:405-409 | restarting the search from any port between the start and the result yields the same port |
| Supervisor.ServerArgs | src/extension.ts:411 | the server command line is `--server -p <port> -e` and names the port it was built for |
| Supervisor.ServerPortOfExact | src/extension.ts:411 | a server command line names a port exactly when it is, argument for argument, `--server -p ${port} -e` |
| Supervisor.Launch | src/extension.ts:404-414 | the server is spawned once, on the least port whose probe did not exit 0, after one probe per port from the configured one with the platform's probe command, in the first workspace folder |
| Supervisor.Start | src/extension.ts:382-414 | not installed: install panel, nothing spawned, state kept, checked before the running check; running: info only, state and port kept; no workspace: error, stays Idle; empty folder list: nothing happens; otherwise exactly one spawn, on the least port whose probe did not exit 0, after one probe per port from the configured one, in the first workspace folder |
| Supervisor.ProbeVerdict | src/extension.ts:486-491 | only a probe exit code of 0 moves start past a port; any other code, or none, makes it the server's port |
| Supervisor.Stop | src/extension.ts:454-460 | always ends Idle; one kill when a server is held, none otherwise; never spawns |
| Supervisor.StopIdempotent | src/extension.ts:454-460 | a second stop kills nothing and changes nothing |
| Supervisor.Toggle | src/extension.ts:34-40 | with a server held it is exactly stop (one kill, ends Idle); without one it is exactly start; installed and with a workspace folder it always flips the state |
| Supervisor.OnExit | src/extension.ts:426-437 | an exit event, whatever its code, clears the handle and announces termination |
| Supervisor.OnError | src/extension.ts:438-444 | an error event is logged but keeps the handle |
| Supervisor.Activate | src/extension.ts:73-78 | the status bar is drawn; with autostart on, activation is then exactly `startDeckerServer` from Idle (install panel, workspace errors, probes and spawn included), and it spawns exactly when a start can; with autostart off nothing else happens |
| Supervisor.StartTwiceSpawnsOnce | src/extension.ts:391-395 | a start while the first start's server is held spawns nothing and keeps the port |
| Supervisor.ExitAllowsRestart | src/extension.ts:435 | after an exit event with any code, a start spawns a new server |
| Supervisor.ErrorBlocksRestart | src/extension.ts:438-444 | after an error event a start only reports that the server is already running |
| OneShot.Run | src/extension.ts:230-380 | install check first, then the workspace check (clean has its own message), an empty folder list abandons the command, then exactly one spawn whose arguments name the task, in the first workspace folder |
| OneShot.OnExit | src/extension.ts:255-262 | a one-shot exit always ends in the task's completion notice, whatever the code |
| OneShot.OnError | src/extension.ts:263-265 | a one-shot error is only logged |
| OneShot.TaskArgsIdentifyTask | src/extension.ts:245-359 | the arguments `clean`, (none), `publish`, `crunch` identify their task, and none starts a server |
| OneShot.ExitNoticeIgnoresCode | src/extension.ts:255-262 | success and failure get the same notice; only the log line differs |
| Lifecycle.Begin | src/extension.ts:391-414 | a start has exactly Start's effects and records Start's state, so a spawning start records the negotiated port; one that spawns holds the process `next`, records it as unstopped and moves `next` on; any other start changes nothing |
| Lifecycle.BeginKeepsWorld | src/extension.ts:391-414 | a start keeps the handle in step with the state and every unstopped server the held one; when ids are below `next`, the spawned process's id is fresh and ids stay below `next` |
| Lifecycle.End | src/extension.ts:454-460 | stop has exactly Stop's effects, ends Idle, forgets the handle, counts the held process as stopped and allocates no id |
| Lifecycle.Exit | src/extension.ts:426-437 | the exiting process is no longer running and no id is allocated; the handler as written always clears the handle and goes Idle; the own-exit-only handler clears the handle and goes Idle exactly when the held process exits, and leaves another process's handle alone |
| Lifecycle.Step | src/extension.ts:28-40 | a step spawns at most once, only from Idle, and ends Running; only stop and toggle kill; the handle stays in step with the state; ids stay below `next`; with the own-exit-only handler every unstopped server is the held one |
| Lifecycle.ReplayKeepsIdsFresh | src/extension.ts:391-414 | over any run, every process id in use stays below `next`, so every spawn gets an id no existing process has |
| Lifecycle.PortLoopsEndWithoutSpawn | src/extension.ts:382-460 | runs without start or toggle commands, and every run when decker is not installed, are defined in any environment, even when every probe exits 0 |
| Lifecycle.ReplayBalance | src/extension.ts:391-460 | over any run, spawns plus the initial handle never exceed kills plus exit events plus the final handle |
| Lifecycle.SpawnsBoundedByStops | src/extension.ts:391-460 | from activation, spawns never exceed kills plus exit events by more than one; this counts events, not live processes |
| Lifecycle.NeverStopsNeverKills | src/extension.ts:454-460 | a run without stop or toggle commands kills nothing |
| Lifecycle.RepeatedStartsSpawnOnce | src/extension.ts:391-395 | repeated starts, with error events between them, spawn at most one server while it neither exits nor is stopped |
| Lifecycle.StaleExitOrphansServer | src/extension.ts:426-437 | as written: stop server 0, start server 1, then server 0's late exit clears server 1's handle, and the next start spawns server 2 while server 1 still runs |
| Lifecycle.StaleExitIgnoredByOwnExitOnly | src/extension.ts:426-437 | with the own-exit-only handler the same run keeps server 1 held, and it is the only unstopped server |
| Lifecycle.OwnExitKeepsOneServer | src/extension.ts:426-437 | with the own-exit-only handler, over any run, every server nobody stopped is the held one, so at most one exists |
| Lifecycle.OwnExitAllowsRestart | src/extension.ts:435 | with the own-exit-only handler the held server's own exit still clears the handle, and the next start spawns a new server |

## Left out

- Webview panels, the status bar, the output channels and message boxes are reduced to effect tokens. The HTML templates (`makePreviewHTML`, `makeErrorHTML`, the install page) are static markup and are not modelled.
- Spawning, killing, stream relaying and the probe processes are reduced to effects and to the exit-code oracle. `command-exists` is reduced to the `installed` oracle.
- Promise sequencing is not modelled. Each command is one sequential step, and the oracles are fixed for the whole step.
- A port probe that never emits `exit` is not modelled: `probeExit` always answers. When the probe command cannot be spawned (no `lsof`, say), Node emits only `error`, and `portOccupied` listens for `exit` alone, so its promise never settles. Start then stops before spawning, with no message and no status redraw.
- A killed server is counted as stopped when the kill is issued. A server that ignores the kill signal is not modelled.
- The server's `spawn` event only shows a message and redraws the status bar, so it is not modelled. The stdout and stderr `data` events only relay text and show an error notice, so they are not modelled either.
- `openPreview` and `openBrowser` are not modelled. They start the server and open `getDocumentHTMLPath`'s result in a panel or browser, which is UI work.
- `getStorageDirectory` is never called. It also discards the results of its `replace` calls, so it returns the configured path unchanged.
- `getCurrentDeckerVersion` returns a constant and is never called.
- `deactivate` is `Supervisor.Stop`.
- PortNegotiation.Negotiate: requires a free port at or above the start. When every probe exits 0, the loop in `startDeckerServer` runs forever, and that behaviour is not modelled.
- Ports and exit codes are mathematical integers. A fractional or NaN `server.port`, and ports past 2^53, are not modelled. No range check on ports is made, as in `startDeckerServer`.
- Strings.ReplaceFirst: the `$` substitution patterns of `replace` are not modelled, because the replacement text ".html" contains none.
- Settings and oracles do not change during a run in `Lifecycle`.

## Findings

| source | as written | input that shows it | evidently intended | confidence | as-written member | corrected member |
|---|---|---|---|---|---|---|
| src/extension.ts:158-159 | after checking the path ends in ".md", the code rewrites the first ".md" anywhere in the path | relative path "notes.md/intro.md" gives "notes.html/intro.md" | rewrite the trailing ".md" extension, giving "notes.md/intro.html" | medium; not executed | DocumentPath.HtmlPathRewritesDirectory | DocumentPath.SuffixHtmlPathRoundTrip |
| src/extension.ts:426-437 | the `exit` handler registered on each server process clears whatever handle is current | start server 0, stop it, start server 1, server 0's exit event arrives late, start again: server 2 is spawned while server 1 keeps running, no longer reachable by stop | clear the handle when, and only when, the held process is the one exiting | low (depends on the killed server exiting after the new spawn); not executed | Lifecycle.StaleExitOrphansServer | Lifecycle.OwnExitKeepsOneServer |
