# Desktop notifier for coding-assistant hooks: a Dafny model

`notify.py` is a hook script. It runs when the assistant needs permission, sits idle, or stops.
It does four things:
- reads an optional JSON object from standard input (the "hook input");
- picks a title, a message and an icon for the hook type;
- calls the desktop notification backend;
- returns exit code 0 or 1.

This project models that logic and proves its properties in Dafny:

- `wrappers.dfy`: `Option` and `Result`.
- `py_values.dfy` (module `PyValues`): the Python values a JSON object field can hold. It also
  defines Python truthiness, `x or y` and `dict.get`. The message chain
  `args.message or stdin_message or default` is modelled with exactly these operations.
- `py_strings.dfy` (module `PyStrings`): `str.isspace` and `str.strip()`. The script uses them
  to decide whether the text read from standard input is worth parsing. This module proves
  that `strip()` is empty exactly when the text is all whitespace.
- `notify.dfy` (module `Notify`): the script itself. It contains:
  - `ReadHookInput` (`read_hook_input`);
  - the table of defaults and `Resolve`, the resolution part of `main`;
  - `SendNotification` (`send_notification`), a method that builds the keyword-argument map
    and then adds `app_icon` to it when the icon can be used;
  - `Run`, which is `main` after argument parsing.

Some things are parameters of the model rather than modelled code:
- what standard input held (`Stdin`);
- the JSON decoder (`decode`);
- the filesystem (`FileSystem.pathExists`, `FileSystem.resolve`);
- the notification backend (`display`, which maps the keyword arguments to `Shown` or `Raised`).

Where the code and its documentation disagree, the model follows the code:
- A `message` field of the hook input may be any JSON value, not only a string. It is used
  whenever it is truthy, so the resolved message is a `Value`. The model proves it is truthy.
  A string message is therefore never empty.
- `--timeout` is any integer. Nothing requires it to be positive.
- A failure of the readiness check or of the read gets the same warning and the same empty
  hook input as malformed JSON. The same `except` clause catches all three.

## Model

| member | source | states |
|---|---|---|
| PyValues.Or | notify.py:109 | Python `x or y` gives the first operand when it is truthy and the second otherwise. The result is truthy iff either operand is truthy. |
| PyValues.OptionalStr | notify.py:87-91 | An absent `--message` becomes `None`. The value is truthy iff the option was given and is non-empty, and then it is that string. |
| PyValues.Get | notify.py:99 | `dict.get(key, default)` returns the stored value when the key is present and the default otherwise. |
| PyStrings.TrimStart | notify.py:58 | The leading-whitespace strip returns a suffix of the input. Everything dropped is whitespace. The result is empty or starts with a non-whitespace character. |
| PyStrings.TrimEnd | notify.py:58-64 | The trailing-whitespace strip returns a prefix of the input. Everything dropped is whitespace. The result is empty or ends with a non-whitespace character. |
| PyStrings.Strip | notify.py:58 | `str.strip()` returns a slice of its input. The slice is empty exactly when every character is whitespace. Otherwise it starts and ends with a non-whitespace character. |
| Notify.HookType.Name | notify.py:78-122 | The command-line spelling of each accepted hook choice (line 78) is a key of the table of defaults (lines 106-122). |
| Notify.Timeout | notify.py:81-86 | The timeout is the `--timeout` value when given and 10 otherwise. |
| Notify.ReadHookInput | notify.py:45-69 | The result is `{}` with no warning when no data is ready. It is also `{}` with no warning when the data is whitespace-only. It is `{}` with a warning when the check, the read or the parse fails. A decoded object is returned unchanged. A non-empty result always comes from a decoded object, and a warning always comes with `{}`. |
| Notify.StdinMessage | notify.py:98-99 | The hook input's `message` field is taken when present. A missing key gives a false value, which falls through. |
| Notify.IconPath | notify.py:110-120 | The path `icon_dir / '<file>.ico'` of each entry is never empty, so it always passes the truthiness test of `send_notification`. |
| Notify.EntryMessage | notify.py:109 | The three-level fallback of one entry is truthy whenever the default is non-empty. |
| Notify.NotificationsConfig | notify.py:105-122 | The configuration has exactly the keys of the defaults table. Every entry's message is truthy. |
| Notify.Resolve | notify.py:96-127 | Resolution succeeds iff the hook type has a table entry. Otherwise it is an unknown-hook-type error naming that type. On success the title and icon come from the entry and the timeout from the command line, and the message is truthy. |
| Notify.CliMessageWins | notify.py:109-119 | A non-empty `--message` becomes the message, whatever the hook input holds. |
| Notify.HookMessageNext | notify.py:99-119 | Without a non-empty `--message`, the message is the hook input's truthy `message` field, unchanged. |
| Notify.DefaultMessageLast | notify.py:109-119 | Without either source, or when both are false, the message is the hook type's default text. |
| Notify.ChoicesResolve | notify.py:106-122 | Every accepted hook type resolves, to its listed title and icon file: permission (`zunmon_3015.ico`), idle (`zunmon_3016.ico`), stopped (`zunmon_3001.ico`). |
| Notify.TitleAndIconIndependent | notify.py:106-124 | Two runs with the same hook type get the same title and icon, whatever their options and hook input. |
| Notify.MessageNeverEmpty | notify.py:109-119 | A resolved message that is a string is never empty. |
| Notify.MalformedInputUsesDefault | notify.py:66-69 | Malformed JSON without `--message` produces a warning. Resolution still succeeds, with the default message. |
| Notify.SendNotification | notify.py:25-42 | The keyword arguments are exactly `title`, `message`, `app_name = 'Claude Code'` and `timeout`, with the values given. `app_icon` is added, set to the resolved path, only when the icon path is given and exists. The exit code is 0 iff the backend call returns, and 1 otherwise. |
| Notify.Run | notify.py:95-134 | The warning comes from the hook-input read. An unknown hook type gives exit code 1 and no backend call. Otherwise the backend gets the resolved title, message, `app_name` and the command-line timeout. `app_icon` is present only when the icon file exists. The exit code is 0 iff the call returns. Either way it is 0 or 1. |

## Left out

- Reading standard input: `select.select` on Unix, `isatty` on Windows, and `sys.stdin.read()`. These are platform I/O. Their combined outcome is the abstract `Stdin` value.
- `json.loads`: a library call, modelled as the parameter `decode`. A JSON document whose top level is not an object is not modelled. Calling `.get` on it would raise outside any handler.
- JSON numbers with a fraction or an exponent are exact `real`s. Floating-point rounding is not modelled, and neither is any effect it has on truthiness.
- The non-finite constants `NaN`, `Infinity` and `-Infinity` that `json.loads` accepts have no `Value`. They would be truthy floats.
- `plyer.notification.notify`: a foreign call. It is the parameter `display`, whose outcome is `Shown` (returned) or `Raised`.
- `Path.exists` and `Path.resolve`: filesystem access, modelled by the `FileSystem` parameter. Exceptions they raise are not modelled. The icon directory `icon_dir` (the script's directory joined with `images`) is the opaque parameter `iconDir`. That `/ 'images'` join is not modelled. Path normalisation by `/` is not modelled either: the join with an icon file name is plain concatenation with `/`.
- argparse: parsing, usage errors and the `choices` check. The parsed arguments are the `Args` value, and `HookType` lists the accepted choices.
- `send_notification`'s own default timeout of 5. Its docstring says 10. `main` always passes the timeout, so this default is never used.
- The text written to standard error. Only whether the stdin warning is printed is modelled.
- `test_notify.py`: a harness that runs the script and prints its output. It has no logic of its own.
