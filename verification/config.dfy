/** The extension's settings and their JavaScript truthiness fallbacks
    (`getDeckerCommand`, `getDeckerPort`): a setting is used only when it is
    truthy, so an unset or empty command and an unset or zero port fall back. */
module Config {
  import opened Optional

  const DefaultCommand := "decker"
  const DefaultPort := 8888

  /** The settings read under "decker": `executable.command`, `server.port`. */
  datatype Settings = Settings(command: Option<string>, port: Option<int>)

  predicate TruthyString(v: Option<string>) {
    v.Some? && v.value != ""
  }

  predicate TruthyNumber(v: Option<int>) {
    v.Some? && v.value != 0
  }

  function CommandOr(configured: Option<string>, fallback: string): (r: string)
    ensures r == fallback || (TruthyString(configured) && r == configured.value)
    ensures TruthyString(configured) ==> r == configured.value
  {
    if TruthyString(configured) then configured.value else fallback
  }

  function PortOr(configured: Option<int>, fallback: int): (r: int)
    ensures r == fallback || (TruthyNumber(configured) && r == configured.value)
    ensures TruthyNumber(configured) ==> r == configured.value
  {
    if TruthyNumber(configured) then configured.value else fallback
  }

  /** The command every operation runs: `getDeckerCommand("decker")`. */
  function Command(s: Settings): (r: string)
    ensures r != ""
  {
    CommandOr(s.command, DefaultCommand)
  }

  /** The port server negotiation starts from: `getDeckerPort(8888)`. */
  function Port(s: Settings): (r: int)
    ensures r != 0
  {
    PortOr(s.port, DefaultPort)
  }

  /** Unset and empty commands are indistinguishable; the resolved command is
      itself truthy, so resolving it again changes nothing. */
  lemma CommandFallback(s: Settings)
    ensures Command(Settings(None, s.port)) == Command(Settings(Some(""), s.port)) == DefaultCommand
    ensures Command(Settings(Some(Command(s)), s.port)) == Command(s)
    ensures Command(s) == DefaultCommand <==> !TruthyString(s.command) || s.command.value == DefaultCommand
  {
  }

  /** Unset and zero ports are indistinguishable; a negative port is truthy
      and used as configured; resolving again changes nothing. */
  lemma PortFallback(s: Settings)
    ensures Port(Settings(s.command, None)) == Port(Settings(s.command, Some(0))) == DefaultPort
    ensures Port(Settings(s.command, Some(-1))) == -1
    ensures Port(Settings(s.command, Some(Port(s)))) == Port(s)
    ensures Port(s) == DefaultPort <==> !TruthyNumber(s.port) || s.port.value == DefaultPort
  {
  }
}
