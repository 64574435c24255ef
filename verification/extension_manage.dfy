/** The extension manager (extensions/extension_manage.py): the load, unload and reload
    commands open a one-choice prompt over the candidate names; the prompt's callback disables
    it, asks the loader for "extensions.<name>", reports the answer and always ends by marking
    the origin message done. The list command describes the loaded extensions. */
module ExtensionManage {
  import opened Errors
  import opened Platform
  import opened ExtensionNames
  import opened Outcomes
  import opened ClassInit

  /** Which candidates a prompt offers. */
  datatype ViewRequestType = LoadedExtensions | AllExtensions

  /** `__get_view` opens every prompt with a 30 second timeout. */
  const PromptTimeout: real := 30.0
  const SelectPlaceholder: string := "模組名稱"
  /** The separator `on_select_used` joins the chosen values with, as written. */
  const ValueSeparator: string := "/n"

  /** The names a prompt offers: the registry keys without their prefix for unload and reload,
      the ".py" files of the extensions directory without their suffix for load. */
  function CandidateNames(type_: ViewRequestType, registry: seq<string>, directory: seq<string>): (names: seq<string>)
    ensures type_ == AllExtensions ==> forall n :: n in names <==> n + PySuffix in directory
    ensures type_ == LoadedExtensions ==> |names| == |registry|
    ensures type_ == LoadedExtensions ==>
      forall i :: 0 <= i < |registry| && HasModulePrefix(registry[i]) ==> ModuleId(names[i]) == registry[i]
  {
    match type_
    case LoadedExtensions => LoadedNames(registry)
    case AllExtensions =>
      var names := Discoverable(directory);
      assert forall n :: n in names <==> n + PySuffix in directory by {
        forall n ensures n in names <==> n + PySuffix in directory {
          DiscoverableMembership(directory, n);
        }
      }
      names
  }

  /** One `SelectOption(label=n, value=n)` per name, in order. */
  function Options(names: seq<string>): (options: seq<SelectOption>)
    ensures |options| == |names|
    ensures forall i :: 0 <= i < |names| ==> options[i] == SelectOption(names[i], names[i])
  {
    if names == [] then [] else [SelectOption(names[0], names[0])] + Options(names[1..])
  }

  /** The selector `__add_select` builds: placeholder "模組名稱", exactly one choice. */
  method CreateSelect(type_: ViewRequestType, registry: seq<string>, directory: seq<string>) returns (select: Select)
    ensures fresh(select)
    ensures select.options == Options(CandidateNames(type_, registry, directory))
    ensures select.minValues == 1 && select.maxValues == 1
    ensures select.placeholder == SelectPlaceholder && !select.disabled && select.values == []
  {
    select := new Select(SelectPlaceholder, Options(CandidateNames(type_, registry, directory)), 1, 1);
  }

  /** `ExtensionSelectView`. Python's subclassing of BasicView becomes a `base` part that
      holds the inherited fields `ctx` and `disable_on_timeout`. */
  class ExtensionSelectView {
    const base: BasicView
    const bot: Bot
    var select: Select
    var items: seq<Select>

    ghost predicate Valid()
      reads this, base
    {
      base.ctx.Some? && items == [select]
    }

    /** `ExtensionSelectView(timeout=..., bot=..., interaction=..., type_=...)`; `directory`
        is what `os.listdir("./extensions")` returns at that moment. */
    constructor (timeout: real, bot: Bot, interaction: Interaction, type_: ViewRequestType, directory: seq<string>)
      ensures Valid() && fresh(base) && fresh(select)
      ensures base.timeout == Some(timeout) && base.ctx == Some(interaction) && !base.disableOnTimeout
      ensures this.bot == bot
      ensures select.options == Options(CandidateNames(type_, bot.extensions, directory))
      ensures select.minValues == 1 && select.maxValues == 1
      ensures select.placeholder == SelectPlaceholder && !select.disabled && select.values == []
    {
      var view := new BasicView(Some(timeout));
      view.ctx := Some(interaction);
      base := view;
      this.bot := bot;
      var s := CreateSelect(type_, bot.extensions, directory);
      select := s;
      items := [s];
    }

    /** `on_select_used`: raise the timeout guard, disable the selector and show the chosen
        values in its placeholder. */
    method OnSelectUsed()
      requires Valid()
      modifies base, select
      ensures Valid()
      ensures base.disableOnTimeout && select.disabled
      ensures select.placeholder == Join(old(select.values), ValueSeparator)
      ensures base.ctx == old(base.ctx)
      ensures select.values == old(select.values) && select.options == old(select.options)
      ensures select.minValues == old(select.minValues) && select.maxValues == old(select.maxValues)
      ensures select.callback == old(select.callback)
    {
      base.disableOnTimeout := true;
      select.disabled := true;
      select.placeholder := Join(select.values, ValueSeparator);
    }
  }

  /** The prompt text each command sends: "請選擇想導入的模組" and so on. */
  function PromptMessage(op: Operation): string {
    "請選擇想" + Verb(op) + "的模組"
  }

  function InProgressMessage(op: Operation): string {
    Verb(op) + "處理中"
  }

  function FinishedMessage(op: Operation): string {
    Verb(op) + "處理完畢"
  }

  function AcknowledgementMessage(op: Operation, name: string): string {
    name + Verb(op) + "中"
  }

  function RequestTypeFor(op: Operation): ViewRequestType {
    if op == Load then AllExtensions else LoadedExtensions
  }

  /** The body of the `導入`, `移除` and `重載` commands: build the prompt with a 30 second
      timeout, install the command's own callback on its selector, and send it. Load offers
      the directory's files, unload and reload the registry's keys. */
  method OpenPrompt(op: Operation, bot: Bot, interaction: Interaction, directory: seq<string>) returns (view: ExtensionSelectView)
    modifies bot
    ensures fresh(view) && fresh(view.base) && fresh(view.select) && view.Valid()
    ensures view.bot == bot && view.base.ctx == Some(interaction) && !view.base.disableOnTimeout
    ensures view.base.timeout == Some(PromptTimeout)
    ensures op == Load ==> view.select.options == Options(Discoverable(directory))
    ensures op != Load ==> view.select.options == Options(LoadedNames(bot.extensions))
    ensures view.select.placeholder == SelectPlaceholder && !view.select.disabled
    ensures view.select.minValues == 1 && view.select.maxValues == 1 && view.select.values == []
    ensures view.select.callback == Some(op)
    ensures bot.extensions == old(bot.extensions)
    ensures bot.trace == old(bot.trace) + [Responded(interaction, SendMessage(PromptMessage(op), SelectorView(false, SelectPlaceholder), false))]
  {
    view := new ExtensionSelectView(PromptTimeout, bot, interaction, RequestTypeFor(op), directory);
    view.select.callback := Some(op);
    bot.Respond(interaction, SendMessage(PromptMessage(op), view.select.Shown(), false));
  }

  /** What one run of a prompt's callback sends and asks, in order: the origin message is
      marked in progress, the operator is acknowledged, the loader is asked, its answer is
      reported, and the origin message is marked done. */
  function CallbackTrace(op: Operation, origin: Interaction, used: Interaction, name: string, outcome: HostOutcome): (t: seq<Event>)
    ensures |t| == 5
    ensures forall i :: 0 <= i < |t| ==> (t[i].Requested? <==> i == 2)
    ensures t[2] == Requested(HostCall(op, ModuleId(name)))
  {
    [ Responded(origin, EditOriginalResponse(InProgressMessage(op), SelectorView(true, name))),
      Responded(used, SendMessage(AcknowledgementMessage(op, name), ViewOmitted, true)),
      Requested(HostCall(op, ModuleId(name))),
      Responded(used, EditOriginalResponse(OutcomeMessage(op, name, outcome), ViewOmitted)),
      Responded(origin, EditOriginalResponse(FinishedMessage(op), SelectorView(true, name))) ]
  }

  /** The `select_callback` closure the command performing `op` installed on the selector,
      run when the operator picks a value through `used`; `outcome` is what the loader
      answers. */
  method SelectCallback(op: Operation, view: ExtensionSelectView, used: Interaction, outcome: HostOutcome)
    requires view.Valid() && view.select.callback == Some(op)
    modifies view.base, view.select, view.bot
    ensures view.Valid()
    ensures view.base.disableOnTimeout && view.select.disabled
    ensures view.select.placeholder == Join(old(view.select.values), ValueSeparator)
    ensures view.select.values == old(view.select.values) && view.select.options == old(view.select.options)
    ensures view.select.minValues == old(view.select.minValues) && view.select.maxValues == old(view.select.maxValues)
    ensures view.select.callback == old(view.select.callback)
    ensures view.base.ctx == old(view.base.ctx)
    ensures view.bot.extensions == old(view.bot.extensions)
    ensures view.bot.trace == old(view.bot.trace) + CallbackTrace(op, view.base.ctx.value, used, view.select.placeholder, outcome)
    ensures |old(view.select.values)| == 1 ==>
      Requested(HostCall(op, ModuleId(old(view.select.values)[0]))) in view.bot.trace[|old(view.bot.trace)|..]
  {
    view.OnSelectUsed();
    var origin := view.base.ctx.value;
    var name := view.select.placeholder;
    view.bot.Respond(origin, EditOriginalResponse(InProgressMessage(op), view.select.Shown()));
    view.bot.Respond(used, SendMessage(AcknowledgementMessage(op, name), ViewOmitted, true));
    view.bot.Request(HostCall(op, ModuleId(name)));
    view.bot.Respond(used, EditOriginalResponse(OutcomeMessage(op, name, outcome), ViewOmitted));
    view.bot.Respond(origin, EditOriginalResponse(FinishedMessage(op), view.select.Shown()));
    assert view.bot.trace[|old(view.bot.trace)|..] == CallbackTrace(op, origin, used, name, outcome);
  }

  /** The contents of the responses a trace makes to one interaction, in order. */
  function ContentsFor(trace: seq<Event>, target: Interaction): seq<string> {
    if trace == [] then []
    else
      var rest := ContentsFor(trace[1..], target);
      match trace[0]
      case Responded(t, r) => if t == target then [r.content] + rest else rest
      case Requested(_) => rest
  }

  /** The loader calls a trace makes, in order. */
  function Requests(trace: seq<Event>): seq<HostCall> {
    if trace == [] then []
    else
      var rest := Requests(trace[1..]);
      if trace[0].Requested? then [trace[0].call] + rest else rest
  }

  lemma {:induction false} ContentsForAppend(a: seq<Event>, b: seq<Event>, target: Interaction)
    ensures ContentsFor(a + b, target) == ContentsFor(a, target) + ContentsFor(b, target)
  {
    if a != [] {
      assert (a + b)[1..] == a[1..] + b;
      ContentsForAppend(a[1..], b, target);
    } else {
      assert a + b == b;
    }
  }

  lemma {:induction false} RequestsAppend(a: seq<Event>, b: seq<Event>)
    ensures Requests(a + b) == Requests(a) + Requests(b)
  {
    if a != [] {
      assert (a + b)[1..] == a[1..] + b;
      RequestsAppend(a[1..], b);
    } else {
      assert a + b == b;
    }
  }

  /** Whatever the loader answers, the origin message is first edited to the in-progress text
      and last to the done text, so a run never ends on "處理中"; this holds even if the two
      interactions were one. */
  lemma CallbackEndsDone(op: Operation, origin: Interaction, used: Interaction, name: string, outcome: HostOutcome)
    ensures var c := ContentsFor(CallbackTrace(op, origin, used, name, outcome), origin);
      |c| >= 2 && c[0] == InProgressMessage(op) && c[|c| - 1] == FinishedMessage(op)
    ensures origin != used ==>
      ContentsFor(CallbackTrace(op, origin, used, name, outcome), origin) == [InProgressMessage(op), FinishedMessage(op)]
    ensures origin != used ==>
      ContentsFor(CallbackTrace(op, origin, used, name, outcome), used) == [AcknowledgementMessage(op, name), OutcomeMessage(op, name, outcome)]
  {
    var t := CallbackTrace(op, origin, used, name, outcome);
    var middle := t[1..4];
    assert t == [t[0]] + middle + [t[4]];
    ContentsForAppend([t[0]] + middle, [t[4]], origin);
    ContentsForAppend([t[0]], middle, origin);
    ContentsForAppend([t[0]] + middle, [t[4]], used);
    ContentsForAppend([t[0]], middle, used);
    assert middle == [t[1]] + [t[2]] + [t[3]];
    ContentsForAppend([t[1]] + [t[2]], [t[3]], origin);
    ContentsForAppend([t[1]], [t[2]], origin);
    ContentsForAppend([t[1]] + [t[2]], [t[3]], used);
    ContentsForAppend([t[1]], [t[2]], used);
  }

  /** Each run asks the loader exactly once, for the module id of the chosen name, with the
      operation of the command that opened the prompt. */
  lemma CallbackRequestsOnce(op: Operation, origin: Interaction, used: Interaction, name: string, outcome: HostOutcome)
    ensures Requests(CallbackTrace(op, origin, used, name, outcome)) == [HostCall(op, ModuleId(name))]
  {
    var t := CallbackTrace(op, origin, used, name, outcome);
    assert t == [t[0]] + [t[1]] + [t[2]] + [t[3]] + [t[4]];
    RequestsAppend([t[0]] + [t[1]] + [t[2]] + [t[3]], [t[4]]);
    RequestsAppend([t[0]] + [t[1]] + [t[2]], [t[3]]);
    RequestsAppend([t[0]] + [t[1]], [t[2]]);
    RequestsAppend([t[0]], [t[1]]);
  }

  /** The operator picks `chosen`, the platform runs the installed callback, and later the
      prompt times out. The loader is asked for that very name, and the timeout changes
      nothing: the guard raised by `on_select_used` keeps `on_timeout` from editing the
      message. */
  method UseThenTimeout(op: Operation, view: ExtensionSelectView, used: Interaction, chosen: string, outcome: HostOutcome)
    requires view.Valid() && view.select.callback == Some(op)
    modifies view.base, view.select, view.bot
    ensures view.Valid() && view.select.disabled && view.select.placeholder == chosen
    ensures view.bot.trace == old(view.bot.trace) + CallbackTrace(op, view.base.ctx.value, used, chosen, outcome)
  {
    view.select.Pick([chosen]);
    SelectCallback(op, view, used, outcome);
    view.base.OnTimeout(view.bot);
  }

  /** The text and icon of the `模組一覽` embed (`__get_extensions_embed`); its timestamp and
      author name come from the clock and the host and are not part of this model. */
  datatype Embed = Embed(title: string, description: string, authorIcon: Option<string>)

  /** `"\n".join(key[11:] for key in bot.extensions.keys())` */
  function ExtensionsDescription(registry: seq<string>): string {
    Join(LoadedNames(registry), "\n")
  }

  /** The embed names no module when nothing is loaded; otherwise its description, read line
      by line, gives back every registry key in order. Its icon is BOT_ICON_URL, and there is
      none exactly when that setting is absent. */
  function ExtensionsEmbed(registry: seq<string>, env: Env): (e: Embed)
    ensures e.title == "模組一覽"
    ensures e.authorIcon.None? <==> BotIconKey !in env
    ensures e.authorIcon.Some? ==> e.authorIcon.value == env[BotIconKey]
    ensures registry == [] ==> e.description == ""
    ensures registry != [] && (forall k :: k in registry ==> HasModulePrefix(k) && NoNewline(k)) ==>
      var lines := Lines(e.description);
      |lines| == |registry| && forall i :: 0 <= i < |registry| ==> ModuleId(lines[i]) == registry[i]
  {
    var description := ExtensionsDescription(registry);
    assert registry != [] && (forall k :: k in registry ==> HasModulePrefix(k) && NoNewline(k)) ==>
      var lines := Lines(description);
      |lines| == |registry| && forall i :: 0 <= i < |registry| ==> ModuleId(lines[i]) == registry[i]
    by {
      if registry != [] && (forall k :: k in registry ==> HasModulePrefix(k) && NoNewline(k)) {
        ExtensionsDescriptionLines(registry);
      }
    }
    Embed("模組一覽", description, GetBotIcon(env))
  }

  /** The description lists the loaded extensions one per line in registry order: read back
      line by line it gives the names, and each line with the prefix put back is the key. */
  lemma ExtensionsDescriptionLines(registry: seq<string>)
    requires registry != []
    requires forall k :: k in registry ==> HasModulePrefix(k) && NoNewline(k)
    ensures var lines := Lines(ExtensionsDescription(registry));
      |lines| == |registry| && forall i :: 0 <= i < |registry| ==> ModuleId(lines[i]) == registry[i]
  {
    var names := LoadedNames(registry);
    forall i | 0 <= i < |names|
      ensures NoNewline(names[i])
    {
      assert registry[i] in registry;
      assert registry[i] == ModulePrefix + names[i];
      forall j | 0 <= j < |names[i]| ensures names[i][j] != '\n' {
        assert names[i][j] == registry[i][|ModulePrefix| + j];
      }
    }
    LinesOfJoin(names);
  }

  /** An empty registry gives an empty description. */
  lemma EmptyRegistryDescription()
    ensures ExtensionsDescription([]) == ""
  {
  }
}
