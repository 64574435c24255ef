/** Start-up (main.py): check the bot token, try to load every ".py" file of the extensions
    directory, then connect. The loader is a parameter that maps a module id to its answer. */
module Bootstrap {
  import opened Errors
  import opened Platform
  import opened ExtensionNames
  import opened Outcomes
  import opened ClassInit

  const TokenKey: string := "DISCORD_BOT_TOKEN"

  /** What one `try_to_load_extension` call does: the loader request it makes, if any, and
      the line it prints, if any. No exception leaves it. */
  datatype LoadAttempt = LoadAttempt(request: Option<HostCall>, printed: Option<string>)

  function NotPyMessage(extension: string): string {
    "輸入值" + extension + "並沒有以'.py'結尾"
  }

  /** The warning names the entry it rejects: different entries give different warnings. */
  lemma NotPyMessageNamesEntry(a: string, b: string)
    requires NotPyMessage(a) == NotPyMessage(b)
    ensures a == b
  {
    var m, p := NotPyMessage(a), "輸入值";
    assert |a| == |b|;
    assert a == m[|p|..|p| + |a|] == b;
  }

  /** `try_to_load_extension(bot, extension)`: a file name not ending in ".py" is reported and
      the loader is not called; otherwise the loader is asked for "extensions." followed by the
      name without ".py", every answer is caught, and only a normal return prints nothing. */
  function TryToLoadExtension(extension: string, loader: string -> HostOutcome): (a: LoadAttempt)
    ensures a.request.Some? <==> EndsWithPy(extension)
    ensures a.request.Some? ==> a.request.value.op == Load && HasModulePrefix(a.request.value.moduleId)
    ensures a.request.Some? ==> StripModulePrefix(a.request.value.moduleId) + PySuffix == extension
    ensures a.request.None? ==> a.printed == Some(NotPyMessage(extension))
    ensures a.request.Some? ==> (a.printed.None? <==> loader(a.request.value.moduleId).Returned?)
    ensures a.request.Some? && a.printed.Some? ==>
      a.printed.value == ReportMessage(Load, StripPy(extension), StartupReport(loader(a.request.value.moduleId)))
    ensures a.request.Some? && loader(a.request.value.moduleId).Raised? && loader(a.request.value.moduleId).error.ExtensionAlreadyLoaded? ==>
      a.printed == Some(UnexpectedPrefix + loader(a.request.value.moduleId).error.text)
  {
    if !EndsWithPy(extension) then
      LoadAttempt(None, Some(NotPyMessage(extension)))
    else
      var name := StripPy(extension);
      var id := ModuleId(name);
      var report := StartupReport(loader(id));
      LoadAttempt(Some(HostCall(Load, id)),
                  if report.Succeeded? then None else Some(ReportMessage(Load, name, report)))
  }

  /** The lines `try_to_load_extension` prints for the failures it names are the load
      command's messages for the same clause, and they are all different. */
  lemma StartupMessagesDistinct(extension: string, loader1: string -> HostOutcome, loader2: string -> HostOutcome)
    requires EndsWithPy(extension)
    requires var id := ModuleId(StripPy(extension));
      StartupReport(loader1(id)) != StartupReport(loader2(id))
    ensures TryToLoadExtension(extension, loader1).printed != TryToLoadExtension(extension, loader2).printed
  {
    var name := StripPy(extension);
    var r1, r2 := StartupReport(loader1(ModuleId(name))), StartupReport(loader2(ModuleId(name)));
    if !r1.Succeeded? && !r2.Succeeded? && ReportMessage(Load, name, r1) == ReportMessage(Load, name, r2) {
      ReportMessageInjective(Load, name, r1, r2);
    }
  }

  /** The load attempts of the start-up comprehension, one per kept entry, in listing order. */
  function Attempts(files: seq<string>, loader: string -> HostOutcome): (attempts: seq<LoadAttempt>)
    ensures |attempts| == |files|
    ensures forall i :: 0 <= i < |files| ==> attempts[i] == TryToLoadExtension(files[i], loader)
  {
    if files == [] then [] else [TryToLoadExtension(files[0], loader)] + Attempts(files[1..], loader)
  }

  /** What start-up does before `bot.start(token)`. */
  datatype Startup = Startup(token: string, attempts: seq<LoadAttempt>)

  /** `main()`: the token is checked before any bot is created or any extension loaded; an
      absent token raises KeyNotFoundError and an empty one reaches the failing assertion.
      With a token, exactly the ".py" entries of the directory are tried, in listing order,
      and each one asks the loader for "extensions.<name>". */
  function Main(env: Env, directory: seq<string>, loader: string -> HostOutcome): (r: Result<Startup>)
    ensures r.Ok? <==> TokenKey in env && env[TokenKey] != ""
    ensures TokenKey !in env ==> r == Err(KeyNotFoundError("DISCORD_BOT_TOKEN不在.env內"))
    ensures TokenKey in env && env[TokenKey] == "" ==> r.Err? && r.error.AssertionError?
    ensures r.Ok? ==> r.value.token == env[TokenKey]
    ensures r.Ok? ==> r.value.attempts == Attempts(PyFiles(directory), loader)
    ensures r.Ok? ==> |r.value.attempts| == |Discoverable(directory)|
    ensures r.Ok? ==> forall i :: 0 <= i < |r.value.attempts| ==>
      r.value.attempts[i].request == Some(HostCall(Load, ModuleId(Discoverable(directory)[i])))
  {
    var token := RequiredSetting(env, TokenKey, "DISCORD_BOT_TOKEN不在.env內");
    if token.Err? then Err(token.error)
    else
      var files := PyFiles(directory);
      var attempts := Attempts(files, loader);
      assert forall i :: 0 <= i < |attempts| ==>
        attempts[i].request == Some(HostCall(Load, ModuleId(Discoverable(directory)[i]))) by {
        forall i | 0 <= i < |attempts|
          ensures attempts[i].request == Some(HostCall(Load, ModuleId(Discoverable(directory)[i])))
        {
          var n := Discoverable(directory)[i];
          assert files[i] in files;
          assert n + PySuffix == files[i];
          assert StripPy(files[i]) == n;
        }
      }
      Ok(Startup(token.value, attempts))
  }
}
