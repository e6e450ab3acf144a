/** Asking the operating system whether a TCP port is in use (`portOccupied`):
    the command line of the diagnostic probe per platform, and the verdict
    drawn from its exit code. The probe process itself is an oracle that
    yields the exit code, None when the process ended without one. */
module PortProbe {
  import opened Optional
  import Decimal

  const Windows := "win32"
  const PowerShell := "powershell.exe"
  const PowerShellQuery := "Get-NetTCPConnection -LocalPort "
  const Lsof := "lsof"
  const LsofSelector := "-i:"

  datatype Invocation = Invocation(cmd: string, args: seq<string>)

  /** The probe for `port` on the platform named `platform`
      (`process.platform`); every platform other than "win32" uses lsof. */
  function ProbeInvocation(platform: string, port: int): (inv: Invocation)
    ensures inv.cmd == (if platform == Windows then PowerShell else Lsof)
    ensures ProbedPort(inv) == Some(port)
  {
    Decimal.ParseIntToString(port);
    var p := Decimal.IntToString(port);
    if platform == Windows then
      assert (PowerShellQuery + p)[|PowerShellQuery|..] == p;
      Invocation(PowerShell, [PowerShellQuery + p])
    else
      assert (LsofSelector + p)[|LsofSelector|..] == p;
      Invocation(Lsof, [LsofSelector + p, "-P", "-n"])
  }

  /** The port a probe command line asks about, read back from its text. */
  function ProbedPort(inv: Invocation): Option<int> {
    if inv.cmd == PowerShell && |inv.args| == 1
       && |PowerShellQuery| <= |inv.args[0]| && inv.args[0][..|PowerShellQuery|] == PowerShellQuery
    then Decimal.ParseInt(inv.args[0][|PowerShellQuery|..])
    else if inv.cmd == Lsof && |inv.args| == 3 && inv.args[1..] == ["-P", "-n"]
       && |LsofSelector| <= |inv.args[0]| && inv.args[0][..|LsofSelector|] == LsofSelector
    then Decimal.ParseInt(inv.args[0][|LsofSelector|..])
    else None
  }

  /** Both probes exit with 0 when they list a connection on the port and
      with 1 otherwise: only exit code 0 means occupied. */
  predicate Occupied(exitCode: Option<int>) {
    exitCode == Some(0)
  }

  /** A command line of the platform's probe asks about `port` exactly when
      it is the probe `ProbeInvocation` builds for `port`, character for
      character. */
  lemma ProbedPortExact(platform: string, inv: Invocation, port: int)
    ensures inv.cmd == (if platform == Windows then PowerShell else Lsof) && ProbedPort(inv) == Some(port)
        <==> inv == ProbeInvocation(platform, port)
  {
    if inv.cmd == (if platform == Windows then PowerShell else Lsof) && ProbedPort(inv) == Some(port) {
      var prefix := if platform == Windows then PowerShellQuery else LsofSelector;
      var arg := inv.args[0];
      Decimal.ParseIntOnlyRendered(arg[|prefix|..], port);
      assert arg == prefix + arg[|prefix|..];
      if platform == Windows {
        assert inv.args == [arg];
      } else {
        assert inv.args == [arg] + inv.args[1..];
      }
    }
  }

  /** Distinct ports are probed with distinct command lines. */
  lemma ProbeInvocationInjective(platform: string, p: int, q: int)
    ensures ProbeInvocation(platform, p) == ProbeInvocation(platform, q) <==> p == q
  {
  }
}
