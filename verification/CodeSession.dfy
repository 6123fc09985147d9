// Opening a code session: clone, install, or tear the sandbox down again.
module CodeSession {
  import opened Wrappers
  import opened Text
  import opened Redaction
  import opened Sandbox

  datatype CommandResult = CommandResult(exitCode: int, stdout: string, stderr: string)

  class SandboxHandle {
    var alive: bool

    constructor ()
      ensures alive
    {
      alive := true;
    }

    // Killing may fail; nobody looks.
    method Kill()
      modifies this
      ensures !alive
    {
      alive := false;
    }
  }

  // A command may throw instead of ending.
  datatype OpenResult = Opened | CloneFailed(output: string) | InstallFailed(output: string) | OpenThrew

  // The caller holds an open session or none at all; and a failed clone does not give the token away.
  method OpenCodeSandbox(handle: SandboxHandle, token: string, clone: Option<CommandResult>, install: Option<CommandResult>)
    returns (r: OpenResult)
    requires handle.alive
    modifies handle
    ensures handle.alive <==> r.Opened?
    ensures r.Opened? <==> clone.Some? && clone.value.exitCode == 0 && install.Some? && install.value.exitCode == 0
    ensures r.OpenThrew? <==> clone.None? || (clone.value.exitCode == 0 && install.None?)
    ensures r.CloneFailed? <==> clone.Some? && clone.value.exitCode != 0
    ensures r.CloneFailed? && SafeToken(token) ==> !Contains(r.output, token)
  {
    hide RedactToken, Contains, SafeToken;
    if clone.None? {
      handle.Kill();
      return OpenThrew;
    }
    if clone.value.exitCode != 0 {
      var output := if clone.value.stderr != "" then clone.value.stderr else clone.value.stdout;
      if SafeToken(token) { NoTokenLeft(output, token); }
      handle.Kill();
      return CloneFailed(RedactToken(output, token));
    }
    if install.None? {
      handle.Kill();
      return OpenThrew;
    }
    if install.value.exitCode != 0 {
      handle.Kill();
      return InstallFailed(install.value.stdout + install.value.stderr);
    }
    return Opened;
  }
}
