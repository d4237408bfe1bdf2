/** Running a configured command: the shell-command and script paths, with
    the operating system behind the oracle fields of `Host`. */
module Executor {
  import opened Wrappers

  /** What running a child process yields: its combined standard output and
      standard error, and the error's text when the run failed. */
  datatype Outcome = Outcome(text: string, err: Option<string>)

  /** The operating system as the program sees it. */
  datatype Host = Host(
    // bash -c <command>, with combined output
    runShell: string -> Outcome,
    // bash <path>, with combined output
    runScript: string -> Outcome,
    // os.Stat(path) failed with an error for which os.IsNotExist holds
    notExist: string -> bool,
    // os.Getwd: the working directory, or None when it fails
    workDir: Option<string>)

  /** getCurrentDir: the working directory, or "" when it cannot be found. */
  function CurrentDir(host: Host): string {
    match host.workDir
    case Some(dir) => dir
    case None => ""
  }

  /** The path a script is run from: the given path unless it is reported
      missing, else the path under the working directory unless that is
      reported missing too, else an error naming the prefixed path. */
  function ResolveScript(path: string, cwd: string, notExist: string -> bool): (r: Result<string, string>)
    ensures r.Ok? ==> !notExist(r.value) && (r.value == path || r.value == cwd + "/" + path)
    ensures r == Ok(path) <==> !notExist(path)
    ensures r == Ok(cwd + "/" + path) <==> notExist(path) && !notExist(cwd + "/" + path)
    ensures r.Err? <==> notExist(path) && notExist(cwd + "/" + path)
    ensures r.Err? ==> r.error == "script not found: " + cwd + "/" + path
  {
    var full := cwd + "/" + path;
    assert |full| > |path|;
    if !notExist(path) then Ok(path)
    else if !notExist(full) then Ok(full)
    else Err("script not found: " + full)
  }

  /** executeScript: resolve the path, then run it, or fail with empty text
      and the not-found error. */
  function ExecuteScript(path: string, host: Host): (o: Outcome)
    ensures !host.notExist(path) ==> o == host.runScript(path)
    ensures host.notExist(path) && !host.notExist(CurrentDir(host) + "/" + path)
            ==> o == host.runScript(CurrentDir(host) + "/" + path)
    ensures host.notExist(path) && host.notExist(CurrentDir(host) + "/" + path)
            ==> o == Outcome("", Some("script not found: " + CurrentDir(host) + "/" + path))
  {
    match ResolveScript(path, CurrentDir(host), host.notExist)
    case Ok(resolved) => host.runScript(resolved)
    case Err(e) => Outcome("", Some(e))
  }
}
