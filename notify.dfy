/** The notifier script: it reads an optional hook-input object from standard
    input, resolves one desktop notification request from the hook type, the
    command-line overrides and a fixed table of defaults, hands the request to
    the notification backend and returns the process exit code.

    Standard input, JSON decoding, the filesystem and the notification backend
    are parameters: `Stdin` says what the readiness check and the read saw,
    `decode` stands for `json.loads`, `FileSystem` for `Path.exists` and
    `Path.resolve`, and `display` for the backend call, whose outcome may
    depend on the keyword arguments it is given. */
module Notify {

  import opened Wrappers
  import opened PyValues
  import PyStrings

  /** The application name every notification carries. */
  const AppName: string := "Claude Code"

  /** The `--timeout` value when the option is not given. */
  const DefaultTimeout: int := 10

  const ExitSuccess: int := 0
  const ExitFailure: int := 1

  // ---------------------------------------------------------------------
  // Command line
  // ---------------------------------------------------------------------

  /** The hook types the command line accepts for `hook_type`. */
  datatype HookType = PermissionPrompt | IdlePrompt | Stop {
    /** The spelling of the hook type on the command line; every accepted
        choice has an entry in the table of defaults. */
    function Name(): (s: string)
      ensures s in NotificationDefaults
    {
      match this
      case PermissionPrompt => "permission_prompt"
      case IdlePrompt => "idle_prompt"
      case Stop => "stop"
    }
  }

  /** The parsed command line: `hook_type` as a string and the two options as
      given (`None` when absent). */
  datatype Args = Args(hookType: string, timeout: Option<int>, message: Option<string>)

  /** The timeout the script uses: the `--timeout` value, or 10 without it. */
  function Timeout(args: Args): (t: int)
    ensures args.timeout.Some? ==> t == args.timeout.value
    ensures args.timeout.None? ==> t == DefaultTimeout
  {
    match args.timeout
    case Some(n) => n
    case None => DefaultTimeout
  }

  // ---------------------------------------------------------------------
  // Reading the hook input
  // ---------------------------------------------------------------------

  /** What the script finds on standard input: no data ready (or, on Windows,
      a terminal), a readiness check or read that raised, or the text read. */
  datatype Stdin = NotReady | ReadFailed | Ready(data: string)

  /** The outcome of decoding the text as JSON. A document whose top level is
      not an object is outside the model. */
  datatype Decoded = Malformed | Object(fields: map<string, Value>)

  /** The hook input the script goes on with, and whether it printed the
      "could not parse stdin JSON" warning. */
  datatype HookInput = HookInput(fields: map<string, Value>, warned: bool)

  /** Reads the hook input. Every case except a decoded object yields the
      empty dict; a failure is only a warning, never an abort. */
  function ReadHookInput(stdin: Stdin, decode: string -> Decoded): (r: HookInput)
    ensures stdin.NotReady? ==> r == HookInput(map[], false)
    ensures stdin.ReadFailed? ==> r == HookInput(map[], true)
    ensures stdin.Ready? && PyStrings.AllSpace(stdin.data) ==> r == HookInput(map[], false)
    ensures stdin.Ready? && !PyStrings.AllSpace(stdin.data) ==>
      match decode(stdin.data)
      case Malformed => r == HookInput(map[], true)
      case Object(fields) => r == HookInput(fields, false)
    ensures r.fields != map[] ==> stdin.Ready? && decode(stdin.data) == Object(r.fields)
    ensures r.warned ==> r.fields == map[]
  {
    match stdin
    case NotReady => HookInput(map[], false)
    case ReadFailed => HookInput(map[], true)
    case Ready(data) =>
      if PyStrings.Strip(data) == "" then HookInput(map[], false)
      else
        match decode(data)
        case Malformed => HookInput(map[], true)
        case Object(fields) => HookInput(fields, false)
  }

  /** `hook_input.get('message', '')`. */
  function StdinMessage(hookInput: map<string, Value>): (v: Value)
    ensures "message" in hookInput ==> v == hookInput["message"]
    ensures "message" !in hookInput ==> !Truthy(v)
  {
    Get(hookInput, "message", Str(""))
  }

  // ---------------------------------------------------------------------
  // The table of defaults and request resolution
  // ---------------------------------------------------------------------

  /** The fixed part of one table entry. */
  datatype Defaults = Defaults(title: string, message: string, icon: string)

  /** The per-hook-type title, default message and icon file name. */
  const NotificationDefaults: map<string, Defaults> := map[
    "permission_prompt" := Defaults(
      "Claude Code: Permission Required",
      "Claude is requesting permission to perform an action.",
      "zunmon_3015.ico"),
    "idle_prompt" := Defaults(
      "Claude Code: Waiting for Input",
      "Claude is idle and waiting for your response.",
      "zunmon_3016.ico"),
    "stop" := Defaults(
      "Claude Code: Stopped",
      "Claude has stopped execution.",
      "zunmon_3001.ico")
  ]

  /** One entry of the configuration the script builds at run time. */
  datatype ConfigEntry = ConfigEntry(title: string, message: Value, icon: string)

  /** `icon_dir / name`, where `iconDir` stands for the script's `images`
      directory (the join that builds that directory is not modelled). */
  function IconPath(iconDir: string, name: string): (p: string)
    ensures p != ""
  {
    iconDir + "/" + name
  }

  /** The message of one entry: `args.message or stdin_message or default`. */
  function EntryMessage(cliMessage: Option<string>, stdinMessage: Value, default: string): (m: Value)
    ensures default != "" ==> Truthy(m)
  {
    Or(Or(OptionalStr(cliMessage), stdinMessage), Str(default))
  }

  /** The configuration table: one entry per hook type in the defaults, each
      with its message already resolved; no entry has a false message. */
  function NotificationsConfig(cliMessage: Option<string>, stdinMessage: Value, iconDir: string)
    : (config: map<string, ConfigEntry>)
    ensures config.Keys == NotificationDefaults.Keys
    ensures forall k | k in config :: Truthy(config[k].message)
  {
    map k | k in NotificationDefaults ::
      ConfigEntry(
        NotificationDefaults[k].title,
        EntryMessage(cliMessage, stdinMessage, NotificationDefaults[k].message),
        IconPath(iconDir, NotificationDefaults[k].icon))
  }

  /** A fully resolved notification request. */
  datatype Request = Request(title: string, message: Value, timeout: int, icon: string)

  datatype Error = UnknownHookType(name: string)

  /** Request resolution in `main`: the hook type selects a table entry; a
      hook type without one is an error. The title and icon come from the
      table, the timeout from the command line, and the message is never
      false. */
  function Resolve(args: Args, hookInput: map<string, Value>, iconDir: string)
    : (r: Result<Request, Error>)
    ensures r.Success? <==> args.hookType in NotificationDefaults
    ensures r.Failure? ==> r.error == UnknownHookType(args.hookType)
    ensures r.Success? ==>
      && r.value.title == NotificationDefaults[args.hookType].title
      && r.value.icon == IconPath(iconDir, NotificationDefaults[args.hookType].icon)
      && r.value.timeout == Timeout(args)
      && Truthy(r.value.message)
  {
    var config := NotificationsConfig(args.message, StdinMessage(hookInput), iconDir);
    // The script tests `not config`; every entry is a non-empty dict, so
    // only a missing entry is false.
    if args.hookType in config then
      var entry := config[args.hookType];
      Success(Request(entry.title, entry.message, Timeout(args), entry.icon))
    else
      Failure(UnknownHookType(args.hookType))
  }

  /** A non-empty `--message` wins over whatever standard input held. */
  lemma CliMessageWins(args: Args, hookInput: map<string, Value>, iconDir: string)
    requires args.hookType in NotificationDefaults
    requires args.message.Some? && args.message.value != ""
    ensures Resolve(args, hookInput, iconDir).Success?
    ensures Resolve(args, hookInput, iconDir).value.message == Str(args.message.value)
  {
  }

  /** Without a non-empty `--message`, a true `message` field of the hook
      input is used as it is. */
  lemma HookMessageNext(args: Args, hookInput: map<string, Value>, iconDir: string)
    requires args.hookType in NotificationDefaults
    requires args.message.None? || args.message.value == ""
    requires "message" in hookInput && Truthy(hookInput["message"])
    ensures Resolve(args, hookInput, iconDir).Success?
    ensures Resolve(args, hookInput, iconDir).value.message == hookInput["message"]
  {
  }

  /** With neither source, or only false or missing ones, the hook type's
      default message is used. */
  lemma DefaultMessageLast(args: Args, hookInput: map<string, Value>, iconDir: string)
    requires args.hookType in NotificationDefaults
    requires args.message.None? || args.message.value == ""
    requires "message" !in hookInput || !Truthy(hookInput["message"])
    ensures Resolve(args, hookInput, iconDir).Success?
    ensures Resolve(args, hookInput, iconDir).value.message
         == Str(NotificationDefaults[args.hookType].message)
  {
  }

  /** Every hook type the command line accepts resolves, to the title and
      icon file listed for it. */
  lemma ChoicesResolve(h: HookType, args: Args, hookInput: map<string, Value>, iconDir: string)
    requires args.hookType == h.Name()
    ensures Resolve(args, hookInput, iconDir).Success?
    ensures var req := Resolve(args, hookInput, iconDir).value;
      match h
      case PermissionPrompt =>
        req.title == "Claude Code: Permission Required"
        && req.icon == IconPath(iconDir, "zunmon_3015.ico")
      case IdlePrompt =>
        req.title == "Claude Code: Waiting for Input"
        && req.icon == IconPath(iconDir, "zunmon_3016.ico")
      case Stop =>
        req.title == "Claude Code: Stopped"
        && req.icon == IconPath(iconDir, "zunmon_3001.ico")
  {
  }

  /** The title and icon depend on the hook type alone: two runs with the
      same hook type agree on them whatever their other options and inputs. */
  lemma TitleAndIconIndependent(a1: Args, h1: map<string, Value>, a2: Args, h2: map<string, Value>, iconDir: string)
    requires a1.hookType == a2.hookType
    requires Resolve(a1, h1, iconDir).Success?
    ensures Resolve(a2, h2, iconDir).Success?
    ensures Resolve(a1, h1, iconDir).value.title == Resolve(a2, h2, iconDir).value.title
    ensures Resolve(a1, h1, iconDir).value.icon == Resolve(a2, h2, iconDir).value.icon
  {
  }

  /** A resolved message that is a string is never empty. */
  lemma MessageNeverEmpty(args: Args, hookInput: map<string, Value>, iconDir: string)
    requires Resolve(args, hookInput, iconDir).Success?
    requires Resolve(args, hookInput, iconDir).value.message.Str?
    ensures Resolve(args, hookInput, iconDir).value.message.s != ""
  {
  }

  /** Malformed JSON on standard input only costs a warning: without
      `--message` the run goes on with the hook type's default message. */
  lemma MalformedInputUsesDefault(args: Args, data: string, decode: string -> Decoded, iconDir: string)
    requires args.hookType in NotificationDefaults
    requires args.message.None?
    requires decode(data).Malformed?
    requires !PyStrings.AllSpace(data)
    ensures ReadHookInput(Ready(data), decode).warned
    ensures Resolve(args, ReadHookInput(Ready(data), decode).fields, iconDir).Success?
    ensures Resolve(args, ReadHookInput(Ready(data), decode).fields, iconDir).value.message
         == Str(NotificationDefaults[args.hookType].message)
  {
  }

  // ---------------------------------------------------------------------
  // Sending the notification
  // ---------------------------------------------------------------------

  /** What the notification backend call did: it returned or it raised. */
  datatype DisplayOutcome = Shown | Raised

  /** `Path.exists` and `str(Path.resolve())` on the paths the script uses. */
  datatype FileSystem = FileSystem(pathExists: string -> bool, resolve: string -> string)

  /** `icon_path and Path(icon_path).exists()`. */
  predicate IconUsable(iconPath: Option<string>, fs: FileSystem) {
    iconPath.Some? && iconPath.value != "" && fs.pathExists(iconPath.value)
  }

  /** `send_notification`: builds the keyword arguments, adds `app_icon` only
      for an icon path that is given and exists, calls the backend with them
      and maps its outcome to the exit code. */
  method SendNotification(
    title: string, message: Value, timeout: int, iconPath: Option<string>,
    fs: FileSystem, display: map<string, Value> -> DisplayOutcome)
    returns (code: int, kwargs: map<string, Value>)
    ensures kwargs.Keys == {"title", "message", "app_name", "timeout"}
                         + (if IconUsable(iconPath, fs) then {"app_icon"} else {})
    ensures kwargs["title"] == Str(title) && kwargs["message"] == message
    ensures kwargs["app_name"] == Str(AppName) && kwargs["timeout"] == Int(timeout)
    ensures IconUsable(iconPath, fs) ==> kwargs["app_icon"] == Str(fs.resolve(iconPath.value))
    ensures code == ExitSuccess <==> display(kwargs) == Shown
    ensures code == ExitSuccess || code == ExitFailure
  {
    kwargs := map[
      "title" := Str(title),
      "message" := message,
      "app_name" := Str(AppName),
      "timeout" := Int(timeout)
    ];
    if iconPath.Some? && iconPath.value != "" && fs.pathExists(iconPath.value) {
      kwargs := kwargs["app_icon" := Str(fs.resolve(iconPath.value))];
    }
    var outcome := display(kwargs);
    if outcome == Shown {
      code := ExitSuccess;
    } else {
      code := ExitFailure;
    }
  }

  // ---------------------------------------------------------------------
  // The entry point
  // ---------------------------------------------------------------------

  /** `main` after argument parsing: reads the hook input, resolves the
      request and, when the hook type has an entry, sends it. `call` is the
      keyword arguments handed to the backend, `None` when it is not called;
      `warned` says whether the stdin warning was printed. */
  method Run(
    args: Args, stdin: Stdin, decode: string -> Decoded, iconDir: string,
    fs: FileSystem, display: map<string, Value> -> DisplayOutcome)
    returns (code: int, call: Option<map<string, Value>>, warned: bool)
    ensures warned == ReadHookInput(stdin, decode).warned
    ensures code == ExitSuccess || code == ExitFailure
    ensures args.hookType !in NotificationDefaults ==> code == ExitFailure && call.None?
    ensures args.hookType in NotificationDefaults ==>
      var req := Resolve(args, ReadHookInput(stdin, decode).fields, iconDir).value;
      && call.Some?
      && call.value.Keys == {"title", "message", "app_name", "timeout"}
                          + (if IconUsable(Some(req.icon), fs) then {"app_icon"} else {})
      && call.value["title"] == Str(req.title)
      && call.value["message"] == req.message
      && call.value["app_name"] == Str(AppName)
      && call.value["timeout"] == Int(Timeout(args))
      && (IconUsable(Some(req.icon), fs) ==> call.value["app_icon"] == Str(fs.resolve(req.icon)))
      && (code == ExitSuccess <==> display(call.value) == Shown)
  {
    var hookInput := ReadHookInput(stdin, decode);
    warned := hookInput.warned;
    var resolved := Resolve(args, hookInput.fields, iconDir);
    match resolved
    case Failure(_) =>
      code, call := ExitFailure, None;
    case Success(req) =>
      var kwargs;
      code, kwargs := SendNotification(req.title, req.message, req.timeout, Some(req.icon), fs, display);
      call := Some(kwargs);
  }
}
