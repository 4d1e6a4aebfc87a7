/** start_windowbot: where the configuration file is looked up and the
    command line the test program is launched with. */
module Windowbot {
  import opened Wrappers
  import opened Text

  const WindowbotPath := "/srv/window-control/windowbot.py"
  const WindowbotTestdata := "/srv/window-control/testdata"

  /** The configuration path: the testdata directory's single.conf when none
      is given, a name without a leading `/` looked up in the testdata
      directory, an absolute path as it is. */
  function ResolveConfigPath(configPath: Option<string>): (path: string)
    ensures StartsWith(path, "/")
    ensures configPath.None? ==> path == WindowbotTestdata + "/single.conf"
    ensures configPath.Some? ==> |path| >= |configPath.value| && path[|path| - |configPath.value|..] == configPath.value
    ensures configPath.Some? && StartsWith(configPath.value, "/") ==> path == configPath.value
    ensures configPath.Some? && !StartsWith(configPath.value, "/") ==>
      path == WindowbotTestdata + "/" + configPath.value
  {
    match configPath
    case None => WindowbotTestdata + "/single.conf"
    case Some(p) =>
      if StartsWith(p, "/") then p
      else
        var r := WindowbotTestdata + "/" + p;
        assert r[..1] == "/" && r[|r| - |p|..] == p;
        r
  }

  /** Resolving a path that was already resolved returns it unchanged. */
  lemma ResolveIdempotent(configPath: Option<string>)
    ensures ResolveConfigPath(Some(ResolveConfigPath(configPath))) == ResolveConfigPath(configPath)
  {
  }

  /** Two names resolve to the same path only if they are the same name, as
      long as neither is absolute. */
  lemma ResolveRelativeInjective(a: string, b: string)
    requires !StartsWith(a, "/") && !StartsWith(b, "/")
    requires ResolveConfigPath(Some(a)) == ResolveConfigPath(Some(b))
    ensures a == b
  {
    var prefix := WindowbotTestdata + "/";
    assert ResolveConfigPath(Some(a)) == prefix + a;
    assert (prefix + a)[|prefix|..] == a;
    assert (prefix + b)[|prefix|..] == b;
  }

  /** The command start_windowbot runs: the interpreter, the program, `-v`
      when verbose, then the resolved configuration path. */
  function WindowbotCommand(configPath: Option<string> := None, verbose: bool := true): (argv: seq<string>)
    ensures |argv| == if verbose then 4 else 3
    ensures argv[0] == "python3" && argv[1] == WindowbotPath
    ensures argv[|argv| - 1] == ResolveConfigPath(configPath)
    ensures verbose <==> argv[2] == "-v"
  {
    var path := ResolveConfigPath(configPath);
    assert path[0] == '/';
    ["python3", WindowbotPath] + (if verbose then ["-v"] else []) + [path]
  }
}
