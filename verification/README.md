# Extension manager of a Discord bot, in Dafny

This project models the decision logic of a Discord bot that loads, unloads and reloads its
own extension modules at runtime:

- how extension names are derived: from the `.py` files of the `extensions` directory, from the
  keys of the bot's extension registry, and back to the module id `extensions.<name>` handed to
  the loader;
- the one-choice selection prompt (`BasicView` and `ExtensionSelectView`): its fields, what
  `on_select_used` does to them, and the guard that makes `on_timeout` a no-op once the prompt
  has been used;
- the three prompt callbacks: which `except` clause handles each answer of the loader, the
  message each clause produces, and the order of the messages. The origin message is edited to
  "…處理中" before the loader is called and to "…處理完畢" at the end of every run;
- the configuration guards (`TEST_GUILD_ID`, `BOT_ICON_URL`, `DISCORD_BOT_TOKEN`), which tell an
  absent value from an empty one;
- the class rules of `ExtensionCog`: the class itself cannot be instantiated, and every subclass
  has its two configuration helpers replaced by functions that raise;
- start-up: the token check, the `.py` filter and `try_to_load_extension`.

The loader's answer is an input (`Outcomes.HostOutcome`). When discord.py raises
`ExtensionAlreadyLoaded` or `ExtensionNotLoaded` depends on its registry, which is not
modelled. Everything the commands and their prompts send to the platform, and every request
the prompt callbacks make to the loader, is appended to one trace on the `Platform.Bot`
object. The order of those messages is therefore a property of that trace. Start-up does not
use the trace: each `try_to_load_extension` call is a `Bootstrap.LoadAttempt` value holding
the request it makes and the line it prints. The process environment is a map
(`ClassInit.Env`), the directory listing is a sequence of names, and the loader at start-up
is a function from module id to answer.

Files and modules:

- `errors.dfy` (`Errors`): `Option`, `Result`, and the errors the code raises.
- `platform.dfy` (`Platform`): stand-ins for the discord.py objects the core touches.
  These are interactions, responses, loader requests, the `Bot` with its registry keys and
  trace, and the `Select` widget.
- `names.dfy` (`ExtensionNames`): the name derivations, `str.join` and the line split.
- `outcomes.dfy` (`Outcomes`): the loader's answers, the clause that catches each one in each
  caller, and the messages.
- `class_init.dfy` (`ClassInit`): `ExtensionCog`, its helpers, and `BasicView`.
- `extension_manage.dfy` (`ExtensionManage`): the prompt view, the callbacks and the list
  embed.
- `main.dfy` (`Bootstrap`): start-up.

Python inheritance becomes composition, because the model uses no traits.
`ExtensionSelectView.base` is the `BasicView` part that holds `ctx` and
`disable_on_timeout`. The `select_callback` closure a command installs on its selector is
recorded as the selector's `callback` field, known by the operation of that command. The
selector's placeholder is joined with the two characters `"/n"`, exactly as the code writes
it. Because the selector allows exactly one value, the join always yields that value.

The model follows the code in two places a reader might not expect:

- An empty `TEST_GUILD_ID` or `DISCORD_BOT_TOKEN` reaches `assert False` (an `AssertionError`).
  It is not reported as missing configuration.
- At start-up, `ExtensionAlreadyLoaded` has no clause of its own. It falls into the generic
  "unexpected error" branch.

## Model

| member | source | states |
|---|---|---|
| `ExtensionNames.StripPy` | extensions/extension_manage.py:178 | dropping the last three characters of a ".py" name leaves a name that gives the entry back when ".py" is appended |
| `ExtensionNames.StripModulePrefix` | extensions/extension_manage.py:167 | `key[11:]` drops exactly the first eleven characters (nothing is left of a shorter key); on a key starting with "extensions." the prefix and the result rebuild the key |
| `ExtensionNames.ModuleId` | extensions/extension_manage.py:29 | the module id handed to the loader starts with "extensions." and stripping that prefix gives the chosen name back |
| `ExtensionNames.PyFiles` | main.py:19-23 | exactly the directory entries ending in ".py" are kept |
| `ExtensionNames.PyFilesAppend` | main.py:19-23 | the filter keeps listing order: the kept files of two listings in a row are those of the first followed by those of the second |
| `ExtensionNames.Discoverable` | extensions/extension_manage.py:174-184 | the load candidates are the ".py" entries with the suffix removed, one per entry, in listing order (appending ".py" to the i-th candidate gives the i-th kept entry) |
| `ExtensionNames.DiscoverableMembership` | extensions/extension_manage.py:177-181 | a name is offered for loading if and only if the directory holds that name followed by ".py" |
| `ExtensionNames.LoadedNames` | extensions/extension_manage.py:163-173 | one unload/reload candidate per registry key, in registry order; for a key that starts with "extensions.", re-prefixing its candidate gives back the key |
| `ExtensionNames.LoadedMembership` | extensions/extension_manage.py:166-170 | when every key carries the prefix, a name is offered if and only if its module id is a registry key |
| `ExtensionNames.Join` | extensions/extension_manage.py:194 | `str.join`: nothing joined is empty, and a single value comes back unchanged whatever the separator, so the one chosen value becomes the placeholder; `LinesOfJoin` gives the inverse for newline joins |
| `ExtensionNames.LinesOfJoin` | extensions/extension_manage.py:132 | a newline-joined list of newline-free names splits back into exactly those names, in order |
| `Outcomes.LoadReport` | extensions/extension_manage.py:28-41 | a normal return is success; ExtensionAlreadyLoaded, ExtensionNotFound, NoEntryPointError and ExtensionFailed each reach exactly their own clause, the last keeping the original error; ExtensionNotLoaded and every other exception reach the generic clause with their own text |
| `Outcomes.UnloadReport` | extensions/extension_manage.py:61-68 | the unload callback tells apart only not-loaded, any other exception (with its text) and success |
| `Outcomes.ReloadReport` | extensions/extension_manage.py:88-99 | a normal return is success; ExtensionNotLoaded, NoEntryPointError and ExtensionFailed each reach exactly their own clause, the last keeping the original error; already-loaded, not-found and every other exception reach the generic clause with their own text |
| `Outcomes.StartupReport` | main.py:35-44 | a normal return prints nothing; ExtensionNotFound, NoEntryPointError and ExtensionFailed each reach exactly their own clause, the last keeping the original error; already-loaded, not-loaded and anything else fall into the generic clause with their text |
| `Outcomes.ReportMessage` | extensions/extension_manage.py:31-41 | every message but the generic one starts with "模組" and the extension's name; the generic one ends with the exception's own text; the extension-failed one ends with the original error (the same f-strings at lines 64-68 and 91-99, and main.py:38-44) |
| `Outcomes.OutcomeMessageText` | extensions/extension_manage.py:39-41 | whatever the command, a normal return reads "模組<name><verb>成功" and an exception no clause names reads "發生無法預期的錯誤\n錯誤：" with its text; load and reload show a failing extension's original error (also lines 66-68 and 94-99) |
| `Outcomes.ReportMessageInjective` | extensions/extension_manage.py:30-41 | for one operation and one extension, equal messages come from the same clause with the same detail: every clause has its own message |
| `Outcomes.DistinctMessages` | extensions/extension_manage.py:90-99 | loader answers that reach different clauses of a callback give different messages to the operator |
| `ClassInit.GetEnv` | extensions/core/class_init.py:37 | `os.getenv` gives a value exactly when the key is present, and then the stored value, empty or not |
| `ClassInit.RequiredSetting` | extensions/core/class_init.py:28-33 | a present non-empty value is returned; an absent one raises KeyNotFoundError; a present empty one reaches the failing assertion |
| `ClassInit.GetTestGuild` | extensions/core/class_init.py:26-33 | a non-empty TEST_GUILD_ID yields an object with that id; an absent one raises KeyNotFoundError("TEST_GUILD_ID不在.env內"); an empty one raises an AssertionError |
| `ClassInit.GetBotIcon` | extensions/core/class_init.py:35-37 | the configured BOT_ICON_URL, or nothing exactly when it is absent |
| `ClassInit.Invoke` | extensions/core/class_init.py:39-44 | a replaced helper raises NotAllowedError naming the helper, whatever the environment; `get_test_guild` returns the guild or raises exactly the error of the TEST_GUILD_ID guard, and `get_bot_icon` returns the configured icon or none |
| `ClassInit.IllegalCallNamesFunction` | extensions/core/class_init.py:43 | the NotAllowedError message determines which helper was called |
| `ClassInit.CogClass.Base` | extensions/core/class_init.py:26-37 | ExtensionCog itself holds the two real helpers |
| `ClassInit.CogClass.Subclass` | extensions/core/class_init.py:18-24 | after a subclass is defined, both helpers are replaced by illegal calls, the rest of its body is kept, and nothing else is added |
| `ClassInit.CogClass.InitSubclass` | extensions/core/class_init.py:18-24 | the loop sets each forbidden helper to an illegal call naming it and leaves the other attributes as they were |
| `ClassInit.CogClass.Lookup` | extensions/core/class_init.py:18-37 | the class's own attribute shadows ExtensionCog's; on ExtensionCog a helper name resolves to the real helper and on every subclass to the illegal call naming it; a name neither class defines is not found |
| `ClassInit.SubclassHelpersRaise` | extensions/core/class_init.py:18-44 | through a subclass, each helper raises NotAllowedError naming it; only ExtensionCog's own static helpers read the configuration |
| `ClassInit.NewExtensionCog` | extensions/core/class_init.py:12-16 | constructing ExtensionCog itself raises NotAllowedError; constructing a subclass stores the bot and raises nothing |
| `ClassInit.BasicView.constructor` | extensions/core/class_init.py:51-54 | a fresh view has no interaction and its timeout guard down |
| `ClassInit.BasicView.OnTimeout` | extensions/core/class_init.py:56-58 | the message is edited to "已超時" with the view removed exactly when an interaction is set and the guard is down; otherwise nothing is sent |
| `ExtensionManage.Options` | extensions/extension_manage.py:166-170 | one option per candidate name, label and value both the name, in order |
| `ExtensionManage.CandidateNames` | extensions/extension_manage.py:162-184 | for all extensions a name is offered exactly when the directory holds it with ".py"; for loaded extensions there is one name per registry key, and re-prefixing it gives back a prefixed key |
| `ExtensionManage.CreateSelect` | extensions/extension_manage.py:162-189 | the selector offers the candidates of the requested kind, shows "模組名稱", is enabled and requires exactly one choice |
| `ExtensionManage.ExtensionSelectView.constructor` | extensions/extension_manage.py:149-160 | the view keeps the timeout, the bot and the opening interaction, and holds exactly one selector built as above, with the guard down |
| `ExtensionManage.ExtensionSelectView.OnSelectUsed` | extensions/extension_manage.py:191-194 | the guard is raised, the selector disabled, and its placeholder becomes the chosen values joined by "/n"; nothing else changes |
| `ExtensionManage.OpenPrompt` | extensions/extension_manage.py:17-46 | each command builds a prompt with a 30 s timeout over the candidates of its kind (directory files for load, registry keys for unload and reload, as at lines 18-21, 51-54 and 78-81), showing "模組名稱", enabled, with exactly one choice; it installs its own callback and sends the prompt with its prompt text |
| `ExtensionManage.SelectCallback` | extensions/extension_manage.py:23-43 | the callback installed by the command of `op` leaves the prompt used and disabled, keeps the selector's options, values, bounds and callback, and appends exactly: in-progress edit of the origin message, acknowledgement, one loader request for "extensions." plus the chosen name, the clause's message, done edit of the origin message (lines 56-70 and 83-101 are the same with their own clauses) |
| `ExtensionManage.CallbackTrace` | extensions/extension_manage.py:23-43 | one run takes five steps, and the third and only the third is the loader request, for "extensions." plus the chosen name |
| `ExtensionManage.CallbackEndsDone` | extensions/extension_manage.py:26-43 | whatever the loader answers, the origin message is first edited to "…處理中" and last to "…處理完畢"; the operator's interaction gets the acknowledgement and then exactly the clause's message |
| `ExtensionManage.CallbackRequestsOnce` | extensions/extension_manage.py:29 | each run asks the loader exactly once, for the chosen name's module id, with the command's operation |
| `ExtensionManage.UseThenTimeout` | extensions/core/class_init.py:56-58 | after the operator picks a name and the callback runs, the loader has been asked for that name, and a later timeout sends nothing: the trace is that of the callback alone |
| `ExtensionManage.ExtensionsEmbed` | extensions/extension_manage.py:131-142 | the "模組一覽" embed's description is empty with nothing loaded; when every key starts with "extensions." and holds no newline, it reads back, line by line, as the registry keys in order; its icon is BOT_ICON_URL, absent exactly when that setting is |
| `ExtensionManage.ExtensionsDescriptionLines` | extensions/extension_manage.py:132 | for a non-empty registry whose keys all start with "extensions." and hold no newline, the description holds one line per loaded extension in registry order, and each line with the prefix put back is that registry key |
| `ExtensionManage.EmptyRegistryDescription` | extensions/extension_manage.py:132 | with nothing loaded the description is empty |
| `Bootstrap.TryToLoadExtension` | main.py:28-44 | a name without ".py" is reported and the loader is not called; otherwise the loader is asked to load "extensions." plus the name without ".py" (which gives the file name back), every answer is caught, only a normal return prints nothing, and any other answer prints exactly the message of the start-up clause that catches it, so ExtensionAlreadyLoaded prints the generic "發生無法預期的錯誤" line with its text |
| `Bootstrap.NotPyMessageNamesEntry` | main.py:29-31 | the warning for a non-".py" entry names that entry: different entries give different warnings |
| `Bootstrap.StartupMessagesDistinct` | main.py:37-44 | answers that reach different start-up clauses print different lines |
| `Bootstrap.Attempts` | main.py:19-23 | one load attempt per kept entry, in listing order |
| `Bootstrap.Main` | main.py:11-26 | the token is checked before any bot or load: an absent token raises KeyNotFoundError, an empty one an AssertionError; with a token, the attempts are exactly `try_to_load_extension` of the ".py" entries in listing order (so each asks for "extensions.<name>" and prints what that function prints), and the bot starts with that token |

## Left out

- The registry semantics of `load_extension`, `unload_extension` and `reload_extension` belong to discord.py. The loader's answer is an input, so nothing here says when an extension is already loaded or not loaded.
- Rendering and transport are not modelled. This covers `Embed`, `set_author`, `Select`/`SelectOption` drawing and delivery of responses. The model records only the texts, the view state passed along, and the order of the calls.
- The model assumes that sending and editing responses always succeed. A failure there, or a `BaseException` such as cancellation, would escape `except Exception`.
- `sync_commands` (extensions/extension_manage.py:106-115) is left out. It only calls `bot.tree.sync`, whose behaviour lives in discord.py.
- The `view_loaded_extensions` command (extensions/extension_manage.py:117-121) only sends the embed; only the embed's content is modelled. The embed's timestamp uses the UTC+8 clock, and its author name comes from `bot.application`. Both are left out.
- `asyncio.gather` at start-up and all cooperative concurrency are left out. Callbacks and timeouts run one after another. The same-id race between concurrent commands is not modelled.
- Timing is not modelled. The 30-second timeout is stored in the view (`OpenPrompt` states it), and `on_timeout` is modelled as an operation the platform may invoke.
- `bot.start`, `load_dotenv` and creating `commands.Bot` are left out. The start-up result carries the token that `bot.start` receives.
- `os.listdir` and `os.getenv` become inputs: a sequence of names and an environment map.
- `discord.Object` converts the id to an integer; that is discord.py's and is not part of this model. `DiscordObject` keeps the string.
- The `else: assert False` in `__add_select` cannot be reached. The two-valued `ViewRequestType` rules it out.
- `ClassInit.CogClass.Lookup` resolves through one level of inheritance. Every subclass runs `__init_subclass__` itself, so deeper chains never reach the base helpers.
- extensions/events.py and the `setup`/`teardown` entry points are host registration wiring and are not part of this model.
