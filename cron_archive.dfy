/** The archiving entry script run by cron or a browser. It prints a deprecation banner
    when invoked under its legacy name, then either hands the command line to the console
    rewritten as the `core:archive` command, or runs the archiver directly: on the command
    line through php-cgi without further checks, over HTTP only for a super-user token.
    Everything the script asks of its collaborators is an input (`Host`); everything it does
    to them is an `Effect`, recorded in order. */
module CronArchive {
  import opened Wrappers
  import opened PhpStrings
  import MonologConfig

  /** What the script learns from its collaborators, apart from `$_SERVER['argv']`:
      Piwik\Console::isSupported(), Piwik\Common::isPhpCliMode(), the `token_auth` request
      parameter when one was sent, and CronArchive::isTokenAuthSuperUserToken(). */
  datatype Host = Host(
    consoleSupported: bool,
    cliMode: bool,
    tokenAuth: Option<string>,
    isSuperUserToken: string -> bool)

  /** A log handler the script creates: a Monolog stream handler on `stream` at `level`. */
  datatype LogHandler = StreamHandler(stream: string, level: int)

  /** What the script does that others can observe. */
  datatype Effect =
    | DeprecationNotice(arguments: seq<string>)  // the banner, suggesting `core:archive` with these arguments
    | RunConsole(argv: seq<Option<string>>)      // Piwik\Console::run() over the rewritten argv
    | SetContainerEnvironment(name: string)      // StaticContainer::setEnvironment()
    | SetConsoleOutputVerbose                    // the console log handler writes to a verbose console output
    | PushLogHandler(handler: LogHandler)        // pushHandler() on the shared logger
    | CreateArchiver                             // new Piwik\CronArchive()
    | CheckToken(token: string)                  // isTokenAuthSuperUserToken($token_auth)
    | HaltWithAuthError                          // die() with the "Super User token_auth" message
    | RunArchiver                                // $archiver->main()

  const ArchiveCommand := "core:archive"
  const LegacyScriptName := "archive.php"

  /** The handler that copies the log into the HTTP response. */
  const ResponseHandler := StreamHandler("php://output", MonologConfig.INFO)

  /** `$callee`: the script name `argv[0]` when argv is set and that entry is not
      empty(), otherwise the empty string. */
  function Callee(argvSet: bool, argv: seq<Option<string>>): (callee: string)
    ensures callee == "" || !IsFalsy(callee)
    ensures callee != "" ==> argvSet && |argv| > 0 && argv[0] == Some(callee)
    ensures argvSet && |argv| > 0 && argv[0].Some? && !IsFalsy(argv[0].value) ==> callee == argv[0].value
  {
    if argvSet && |argv| > 0 && argv[0].Some? && !IsFalsy(argv[0].value) then argv[0].value else ""
  }

  /** A PHP value converted to a string: null becomes "". */
  function ArgText(a: Option<string>): string
  {
    a.GetOr("")
  }

  /** `array_slice($_SERVER['argv'], 1)`, as strings: the arguments after the script name. */
  function ArgumentsAfterScript(argv: seq<Option<string>>): (args: seq<string>)
    ensures |args| == if |argv| == 0 then 0 else |argv| - 1
    ensures forall i | 0 <= i < |args| :: args[i] == ArgText(argv[i + 1])
  {
    if |argv| == 0 then [] else seq(|argv| - 1, i requires 0 <= i < |argv| - 1 => ArgText(argv[i + 1]))
  }

  /** The text the banner suggests after `console core:archive`, as written:
      `implode('', ...)` glues the arguments together without a separator. */
  function SuggestedArgumentsAsWritten(args: seq<string>): (r: string)
    ensures |args| == 2 ==> r == args[0] + args[1]
  {
    Implode("", args)
  }

  /** As written, each further argument is appended with nothing in between, for any
      number of arguments. */
  lemma AsWrittenAppends(args: seq<string>, a: string)
    ensures SuggestedArgumentsAsWritten(args + [a]) == SuggestedArgumentsAsWritten(args) + a
  {
    ImplodeAppend("", args, a);
    assert SuggestedArgumentsAsWritten(args) + "" == SuggestedArgumentsAsWritten(args);
  }

  /** Two different command lines give the same suggestion as written: the banner cannot
      be copied back into a working command once more than one argument was given. */
  lemma SuggestionAsWrittenMergesArguments()
    ensures SuggestedArgumentsAsWritten(["--url=http://x/", "--force-all-websites"])
         == SuggestedArgumentsAsWritten(["--url=http://x/--force-all-websites"])
  {
    assert ["--url=http://x/", "--force-all-websites"][1..] == ["--force-all-websites"];
  }

  /** The suggestion as evidently intended: the arguments separated by spaces. */
  function SuggestedArguments(args: seq<string>): (r: string)
    ensures |args| == 2 ==> r == args[0] + " " + args[1]
  {
    Implode(" ", args)
  }

  /** The intended suggestion gives the arguments back: splitting it at spaces yields the
      original arguments, whenever there is at least one and none contains a space. */
  lemma SuggestedArgumentsRecoverable(args: seq<string>)
    requires |args| >= 1
    requires forall i | 0 <= i < |args| :: ' ' !in args[i]
    ensures Split(SuggestedArguments(args), ' ') == args
  {
    assert " " == [' '];
    SplitImplode(args, ' ');
  }

  /** The first entry of an array, or null when it is empty (what array_shift() returns). */
  function FirstOrNull(argv: seq<Option<string>>): (first: Option<string>)
    ensures argv == [] ==> first == None
    ensures argv != [] ==> first == argv[0]
  {
    if |argv| > 0 then argv[0] else None
  }

  /** The array array_shift() leaves behind. */
  function DropFirst(argv: seq<Option<string>>): (rest: seq<Option<string>>)
    ensures argv == [] ==> rest == []
    ensures argv != [] ==> [FirstOrNull(argv)] + rest == argv
  {
    if |argv| > 0 then argv[1..] else []
  }

  /** `$_SERVER['argv']` after the console rewrite: the script name, then `core:archive`,
      then the original arguments. */
  function Rewritten(argv: seq<Option<string>>): (r: seq<Option<string>>)
    ensures |r| == if argv == [] then 2 else |argv| + 1
    ensures r[1] == Some(ArchiveCommand)
  {
    [FirstOrNull(argv), Some(ArchiveCommand)] + DropFirst(argv)
  }

  /** On an empty argv array_shift() yields null, so the rewrite gives null followed by
      `core:archive`: two entries where there were none. */
  lemma RewrittenEmpty()
    ensures Rewritten([]) == [None, Some(ArchiveCommand)]
  {
  }

  /** The rewrite injects `core:archive` after the script name: the argument vector grows
      by exactly one, the script name stays first, and every later argument keeps its order,
      one place further on. */
  lemma RewrittenInjectsCommand(argv: seq<Option<string>>)
    requires |argv| > 0
    ensures |Rewritten(argv)| == |argv| + 1
    ensures Rewritten(argv)[0] == argv[0] && Rewritten(argv)[1] == Some(ArchiveCommand)
    ensures forall i | 1 <= i < |argv| :: Rewritten(argv)[i + 1] == argv[i]
    ensures Rewritten(argv)[2..] == argv[1..]
  {
  }

  /** The banner, when the callee contains the legacy script name. */
  function Banner(argvSet: bool, argv: seq<Option<string>>): (r: seq<Effect>)
    ensures |r| <= 1
    ensures forall i | 0 <= i < |r| :: r[i] == DeprecationNotice(ArgumentsAfterScript(argv))
  {
    if Contains(Callee(argvSet, argv), LegacyScriptName)
    then [DeprecationNotice(ArgumentsAfterScript(argv))]
    else []
  }

  /** The direct path: the log handler set-up for the mode, the archiver, the token gate
      over HTTP, and the archiver's run. */
  function DirectRun(host: Host): (r: seq<Effect>)
    ensures |r| == 4 && CreateArchiver in r && r[|r| - 1] in {RunArchiver, HaltWithAuthError}
    ensures !host.cliMode ==> r[|r| - 3] == CreateArchiver && r[|r| - 2] == CheckToken(host.tokenAuth.GetOr(""))
    ensures host.cliMode ==> r[|r| - 1] == RunArchiver
  {
    (if host.cliMode then [SetContainerEnvironment("cli"), SetConsoleOutputVerbose]
     else [PushLogHandler(ResponseHandler)])
    + [CreateArchiver]
    + (if host.cliMode then [RunArchiver]
       else
         var token := host.tokenAuth.GetOr("");
         [CheckToken(token)] + (if host.isSuperUserToken(token) then [RunArchiver] else [HaltWithAuthError]))
  }

  /** Whether the script hands over to the console. */
  predicate ConsolePath(argvSet: bool, host: Host): (b: bool)
    ensures b ==> argvSet
    ensures !host.consoleSupported ==> !b
  {
    argvSet && host.consoleSupported
  }

  /** Everything the script does, in order, given `$_SERVER['argv']` as it finds it. */
  function ScriptTrace(argvSet: bool, argv: seq<Option<string>>, host: Host): (r: seq<Effect>)
    ensures 1 <= |r| <= 5
  {
    Banner(argvSet, argv) + Outcome(argvSet, argv, host)
  }

  /** What follows the banner: the console run, or the direct path. */
  function Outcome(argvSet: bool, argv: seq<Option<string>>, host: Host): (r: seq<Effect>)
    ensures |r| >= 1 && forall i | 0 <= i < |r| :: !r[i].DeprecationNotice?
  {
    if ConsolePath(argvSet, host) then [RunConsole(Rewritten(argv))] else DirectRun(host)
  }

  /** The banner is the first effect when the callee contains `archive.php`, is absent
      otherwise, and never appears later in the run. */
  lemma BannerIffLegacyCallee(argvSet: bool, argv: seq<Option<string>>, host: Host)
    ensures var t := ScriptTrace(argvSet, argv, host);
      && (t[0].DeprecationNotice? <==> Contains(Callee(argvSet, argv), LegacyScriptName))
      && (forall i | 1 <= i < |t| :: !t[i].DeprecationNotice?)
  {
  }

  /** On the console path the rewritten argv is handed to the console, which is the last
      thing the script does, and the archiver is neither created nor run. */
  lemma ConsolePathNeverArchives(argvSet: bool, argv: seq<Option<string>>, host: Host)
    requires ConsolePath(argvSet, host)
    ensures var t := ScriptTrace(argvSet, argv, host);
      && t[|t| - 1] == RunConsole(Rewritten(argv))
      && CreateArchiver !in t && RunArchiver !in t
  {
  }

  /** Over HTTP a token that is not a super user's halts the script after the check and
      before the archiver runs: `main()` is called zero times. */
  lemma HttpBadTokenHalts(argvSet: bool, argv: seq<Option<string>>, host: Host)
    requires !ConsolePath(argvSet, host) && !host.cliMode
    requires !host.isSuperUserToken(host.tokenAuth.GetOr(""))
    ensures var t := ScriptTrace(argvSet, argv, host);
      && RunArchiver !in t
      && t[|t| - 1] == HaltWithAuthError
      && t[|t| - 2] == CheckToken(host.tokenAuth.GetOr(""))
  {
  }

  /** Over HTTP with a super user's token the archiver runs exactly once, last. */
  lemma HttpGoodTokenRunsOnce(argvSet: bool, argv: seq<Option<string>>, host: Host)
    requires !ConsolePath(argvSet, host) && !host.cliMode
    requires host.isSuperUserToken(host.tokenAuth.GetOr(""))
    ensures var t := ScriptTrace(argvSet, argv, host);
      && t[|t| - 1] == RunArchiver
      && (forall i | 0 <= i < |t| - 1 :: t[i] != RunArchiver)
      && HaltWithAuthError !in t
  {
  }

  /** On the command line without the console no token is checked, and the
      archiver runs exactly once, last. */
  lemma CliRunsWithoutToken(argvSet: bool, argv: seq<Option<string>>, host: Host)
    requires !ConsolePath(argvSet, host) && host.cliMode
    ensures var t := ScriptTrace(argvSet, argv, host);
      && (forall i | 0 <= i < |t| :: !t[i].CheckToken? && !t[i].PushLogHandler?)
      && t[|t| - 1] == RunArchiver
      && (forall i | 0 <= i < |t| - 1 :: t[i] != RunArchiver)
      && SetConsoleOutputVerbose in t
  {
    var t := ScriptTrace(argvSet, argv, host);
    var b := Banner(argvSet, argv);
    assert t[|b| + 1] == SetConsoleOutputVerbose;
  }

  /** Over HTTP exactly one handler is pushed onto the logger, the response stream handler
      at INFO level, and that happens before the token check and before the archiver runs. */
  lemma HttpLogsToResponseFirst(argvSet: bool, argv: seq<Option<string>>, host: Host)
    requires !ConsolePath(argvSet, host) && !host.cliMode
    ensures var t := ScriptTrace(argvSet, argv, host);
      exists p | 0 <= p < |t| ::
        && t[p] == PushLogHandler(ResponseHandler)
        && (forall q | 0 <= q < |t| && q != p :: !t[q].PushLogHandler?)
        && (forall q | 0 <= q <= p :: !t[q].CheckToken? && t[q] != RunArchiver)
  {
    var t := ScriptTrace(argvSet, argv, host);
    var b, o := Banner(argvSet, argv), Outcome(argvSet, argv, host);
    var p := |b|;
    assert t[p] == PushLogHandler(ResponseHandler);
    forall q | 0 <= q < |t| && q != p
      ensures !t[q].PushLogHandler?
    {
      if q > p {
        assert t[q] == o[q - p];
      }
    }
  }

  /** The gate is a hard boundary: whenever the archiver runs without the command line,
      a super user's token was checked before. */
  lemma ArchiverRunsOnlyBehindGate(argvSet: bool, argv: seq<Option<string>>, host: Host, i: nat)
    requires !host.cliMode
    requires i < |ScriptTrace(argvSet, argv, host)| && ScriptTrace(argvSet, argv, host)[i] == RunArchiver
    ensures exists j | 0 <= j < i ::
      ScriptTrace(argvSet, argv, host)[j] == CheckToken(host.tokenAuth.GetOr(""))
    ensures host.isSuperUserToken(host.tokenAuth.GetOr(""))
  {
    var t := ScriptTrace(argvSet, argv, host);
    var b := |Banner(argvSet, argv)|;
    assert t[b + 2] == CheckToken(host.tokenAuth.GetOr(""));
  }

  /** Every run ends in exactly one of three ways: the console ran, the archiver ran, or
      the script halted on the token. */
  lemma OneOutcome(argvSet: bool, argv: seq<Option<string>>, host: Host)
    ensures var t := ScriptTrace(argvSet, argv, host);
      && (t[|t| - 1].RunConsole? || t[|t| - 1] == RunArchiver || t[|t| - 1] == HaltWithAuthError)
      && (forall i | 0 <= i < |t| - 1 :: !t[i].RunConsole? && t[i] != RunArchiver && t[i] != HaltWithAuthError)
  {
    var t := ScriptTrace(argvSet, argv, host);
    var b, o := Banner(argvSet, argv), Outcome(argvSet, argv, host);
    forall i | 0 <= i < |t| - 1
      ensures !t[i].RunConsole? && t[i] != RunArchiver && t[i] != HaltWithAuthError
    {
      if i >= |b| {
        assert t[i] == o[i - |b|];
      }
    }
  }

  /** Regrouping a concatenation; a proof step of `Run`, standing for nothing in the script. */
  lemma AppendAssociative(a: seq<Effect>, b: seq<Effect>, c: seq<Effect>)
    ensures (a + b) + c == a + (b + c)
  {
  }

  /** The script, run once in a process whose `$_SERVER['argv']` it reads and rewrites. */
  class ArchiveScript {
    /** isset($_SERVER['argv']) */
    var argvSet: bool
    /** $_SERVER['argv']; an entry is null where array_shift() on an empty array put one */
    var argv: seq<Option<string>>
    /** what the script has done so far */
    var trace: seq<Effect>

    /** A process whose `$_SERVER['argv']` is `processArgv`, None when it is not set. */
    constructor (processArgv: Option<seq<string>>)
      ensures argvSet == processArgv.Some?
      ensures processArgv.Some? ==>
        |argv| == |processArgv.value| && forall i | 0 <= i < |argv| :: argv[i] == Some(processArgv.value[i])
      ensures processArgv.None? ==> argv == []
      ensures trace == []
    {
      argvSet := processArgv.Some?;
      argv := if processArgv.Some?
        then seq(|processArgv.value|, i requires 0 <= i < |processArgv.value| => Some(processArgv.value[i]))
        else [];
      trace := [];
    }

    /** array_shift($_SERVER['argv']) */
    method ArrayShift() returns (first: Option<string>)
      modifies this`argv
      ensures first == FirstOrNull(old(argv)) && argv == DropFirst(old(argv))
    {
      first := FirstOrNull(argv);
      argv := DropFirst(argv);
    }

    /** array_unshift($_SERVER['argv'], $x) */
    method ArrayUnshift(x: Option<string>)
      modifies this`argv
      ensures argv == [x] + old(argv)
    {
      argv := [x] + argv;
    }

    /** Makes the console run the archive command: `core:archive` goes in after the script name. */
    method RewriteArguments()
      modifies this`argv
      ensures argv == Rewritten(old(argv))
    {
      var script := ArrayShift();
      ArrayUnshift(Some(ArchiveCommand));
      ArrayUnshift(script);
    }

    /** Records that the script did `e`. */
    method Emit(e: Effect)
      modifies this`trace
      ensures trace == old(trace) + [e]
    {
      trace := trace + [e];
    }

    /** The banner, printed when the callee contains the legacy script name. */
    method Announce()
      modifies this`trace
      ensures trace == old(trace) + Banner(argvSet, argv)
    {
      var callee := Callee(argvSet, argv);
      if Contains(callee, LegacyScriptName) {
        Emit(DeprecationNotice(ArgumentsAfterScript(argv)));
      }
    }

    /** The direct path: log set-up for the mode, the archiver, the token gate over HTTP. */
    method RunDirectly(host: Host)
      modifies this`trace
      ensures trace == old(trace) + DirectRun(host)
    {
      if host.cliMode {
        Emit(SetContainerEnvironment("cli"));
        Emit(SetConsoleOutputVerbose);
      } else {
        Emit(PushLogHandler(ResponseHandler));
      }
      Emit(CreateArchiver);
      if !host.cliMode {
        var token := host.tokenAuth.GetOr("");
        Emit(CheckToken(token));
        if !host.isSuperUserToken(token) {
          Emit(HaltWithAuthError);
          return;
        }
      }
      Emit(RunArchiver);
    }

    /** The script's top level. */
    method Run(host: Host)
      modifies this`argv, this`trace
      ensures trace == old(trace) + ScriptTrace(old(argvSet), old(argv), host)
      ensures argv == if ConsolePath(old(argvSet), host) then Rewritten(old(argv)) else old(argv)
    {
      ghost var start, banner := trace, Banner(argvSet, argv);
      Announce();
      if argvSet && host.consoleSupported {
        RewriteArguments();
        Emit(RunConsole(argv));
        AppendAssociative(start, banner, [RunConsole(argv)]);
        return;
      }
      RunDirectly(host);
      AppendAssociative(start, banner, DirectRun(host));
    }
  }
}
