/** The base classes every extension builds on (extensions/core/class_init.py): ExtensionCog,
    which cannot be instantiated itself and hides its two configuration helpers from its
    subclasses, and BasicView, the prompt that edits its message when it times out. */
module ClassInit {
  import opened Errors
  import opened Platform

  /** The process environment as `os.getenv` sees it: a missing key is absent, not empty. */
  type Env = map<string, string>

  /** `os.getenv(key)` */
  function GetEnv(env: Env, key: string): (v: Option<string>)
    ensures v.Some? <==> key in env
    ensures v.Some? ==> v.value == env[key]
  {
    if key in env then Some(env[key]) else None
  }

  const UnexpectedErrorMessage: string := "無法預期的錯誤"

  /** The guard `if v := os.getenv(key): ... elif v is None: raise KeyNotFoundError(missing)
      else: assert False`: a non-empty value passes, an absent one raises KeyNotFoundError and
      an empty one reaches the failing assertion. */
  function RequiredSetting(env: Env, key: string, missing: string): (r: Result<string>)
    ensures r.Ok? <==> key in env && env[key] != ""
    ensures r.Ok? ==> r.value == env[key]
    ensures key !in env ==> r == Err(KeyNotFoundError(missing))
    ensures key in env && env[key] == "" ==> r == Err(AssertionError(UnexpectedErrorMessage))
  {
    var v := GetEnv(env, key);
    if v.Some? && v.value != "" then Ok(v.value)
    else if v.None? then Err(KeyNotFoundError(missing))
    else Err(AssertionError(UnexpectedErrorMessage))
  }

  /** `discord.Object(id=...)`, the guild the commands are scoped to. */
  datatype Snowflake = DiscordObject(id: string)

  const TestGuildKey: string := "TEST_GUILD_ID"
  const BotIconKey: string := "BOT_ICON_URL"

  /** `ExtensionCog.get_test_guild()` */
  function GetTestGuild(env: Env): (r: Result<Snowflake>)
    ensures r.Ok? <==> TestGuildKey in env && env[TestGuildKey] != ""
    ensures r.Ok? ==> r.value == DiscordObject(env[TestGuildKey])
    ensures TestGuildKey !in env ==> r == Err(KeyNotFoundError("TEST_GUILD_ID不在.env內"))
    ensures TestGuildKey in env && env[TestGuildKey] == "" ==> r.Err? && r.error.AssertionError?
  {
    var id := RequiredSetting(env, TestGuildKey, "TEST_GUILD_ID不在.env內");
    if id.Ok? then Ok(DiscordObject(id.value)) else Err(id.error)
  }

  /** `ExtensionCog.get_bot_icon()`: the icon URL, or nothing when it is not configured. */
  function GetBotIcon(env: Env): (url: Option<string>)
    ensures url.None? <==> BotIconKey !in env
    ensures url.Some? ==> url.value == env[BotIconKey]
  {
    GetEnv(env, BotIconKey)
  }

  /** What a class attribute of ExtensionCog or of a subclass holds for the two helpers. */
  datatype StaticFn =
    | GetTestGuildFn
    | GetBotIconFn
    | IllegalCall(funcName: string)   // what `__illegal_call(func_name)` returns

  datatype StaticValue = Guild(guild: Snowflake) | IconUrl(url: Option<string>)

  function IllegalCallMessage(funcName: string): string {
    "子類與物件不能調用" + funcName + "函數"
  }

  /** Calling the function an attribute holds. */
  function Invoke(f: StaticFn, env: Env): (r: Result<StaticValue>)
    ensures f.IllegalCall? ==> r == Err(NotAllowedError(IllegalCallMessage(f.funcName)))
    ensures f == GetTestGuildFn ==> (r.Ok? <==> GetTestGuild(env).Ok?)
    ensures f == GetTestGuildFn && r.Ok? ==> r.value == Guild(GetTestGuild(env).value)
    ensures f == GetTestGuildFn && r.Err? ==> r.error == GetTestGuild(env).error
    ensures f == GetBotIconFn ==> r == Ok(IconUrl(GetBotIcon(env)))
  {
    match f
    case GetTestGuildFn =>
      var g := GetTestGuild(env);
      if g.Ok? then Ok(Guild(g.value)) else Err(g.error)
    case GetBotIconFn => Ok(IconUrl(GetBotIcon(env)))
    case IllegalCall(name) => Err(NotAllowedError(IllegalCallMessage(name)))
  }

  /** The error a forbidden helper raises names the helper that was called. */
  lemma IllegalCallNamesFunction(a: string, b: string)
    requires IllegalCallMessage(a) == IllegalCallMessage(b)
    ensures a == b
  {
    var m, p := IllegalCallMessage(a), "子類與物件不能調用";
    assert |a| == |b|;
    assert a == m[|p|..|p| + |a|] == b;
  }

  /** The helpers `__init_subclass__` replaces, in the order it replaces them. */
  const ForbiddenHelpers: seq<string> := ["get_test_guild", "get_bot_icon"]

  /** ExtensionCog's own attributes for the two helpers. */
  const BaseHelpers: map<string, StaticFn> :=
    map["get_test_guild" := GetTestGuildFn, "get_bot_icon" := GetBotIconFn]

  /** ExtensionCog or one of its subclasses, with the attributes that matter here. */
  class CogClass {
    const isBase: bool
    var attributes: map<string, StaticFn>

    /** ExtensionCog holds the real helpers; every subclass holds illegal calls in their place. */
    ghost predicate Valid()
      reads this
    {
      (isBase ==> attributes == BaseHelpers) &&
      (!isBase ==> forall n :: n in ForbiddenHelpers ==> n in attributes && attributes[n] == IllegalCall(n))
    }

    /** The class ExtensionCog itself. */
    constructor Base()
      ensures Valid()
      ensures isBase && attributes == BaseHelpers
    {
      isBase := true;
      attributes := BaseHelpers;
    }

    /** A `class X(ExtensionCog)` statement whose body defines `body`; Python then runs
        `__init_subclass__` on the new class. */
    constructor Subclass(body: map<string, StaticFn>)
      ensures Valid()
      ensures !isBase
      ensures forall n :: n in ForbiddenHelpers ==> n in attributes && attributes[n] == IllegalCall(n)
      ensures forall n :: n in body && n !in ForbiddenHelpers ==> n in attributes && attributes[n] == body[n]
      ensures forall n :: n in attributes ==> n in body || n in ForbiddenHelpers
    {
      isBase := false;
      attributes := body;
      new;
      InitSubclass();
    }

    /** `__init_subclass__`: every forbidden helper becomes a function that raises. */
    method InitSubclass()
      modifies this
      ensures forall n :: n in ForbiddenHelpers ==> n in attributes && attributes[n] == IllegalCall(n)
      ensures forall n :: n in old(attributes) && n !in ForbiddenHelpers ==> n in attributes && attributes[n] == old(attributes)[n]
      ensures forall n :: n in attributes ==> n in old(attributes) || n in ForbiddenHelpers
    {
      for i := 0 to |ForbiddenHelpers|
        invariant forall j :: 0 <= j < i ==> ForbiddenHelpers[j] in attributes && attributes[ForbiddenHelpers[j]] == IllegalCall(ForbiddenHelpers[j])
        invariant forall n :: n in old(attributes) && n !in ForbiddenHelpers ==> n in attributes && attributes[n] == old(attributes)[n]
        invariant forall n :: n in attributes ==> n in old(attributes) || n in ForbiddenHelpers
      {
        var name := ForbiddenHelpers[i];
        attributes := attributes[name := IllegalCall(name)];
      }
    }

    /** Attribute lookup: the class's own attributes first, then ExtensionCog's. On a class
        built by the constructors above, a helper name resolves to the real helper on
        ExtensionCog and to an illegal call naming it on every subclass; a name that neither
        class defines is not found. */
    function Lookup(name: string): (f: Option<StaticFn>)
      reads this
      ensures name in attributes ==> f == Some(attributes[name])
      ensures Valid() && name in ForbiddenHelpers ==> f == Some(if isBase then BaseHelpers[name] else IllegalCall(name))
      ensures f.None? <==> name !in attributes && (isBase || name !in BaseHelpers)
    {
      if name in attributes then Some(attributes[name])
      else if !isBase && name in BaseHelpers then Some(BaseHelpers[name])
      else None
    }
  }

  /** An ExtensionCog instance: its class and the bot it serves. */
  datatype ExtensionCog = ExtensionCog(cls: CogClass, bot: Bot)

  /** `ExtensionCog.__init__`: ExtensionCog itself refuses to be instantiated; a subclass keeps
      the bot and raises nothing. */
  function NewExtensionCog(cls: CogClass, bot: Bot): (r: Result<ExtensionCog>)
    ensures r.Err? <==> cls.isBase
    ensures r.Err? ==> r.error == NotAllowedError("類別ExtensionCog不允許實例化")
    ensures r.Ok? ==> r.value.cls == cls && r.value.bot == bot
  {
    if cls.isBase then Err(NotAllowedError("類別ExtensionCog不允許實例化")) else Ok(ExtensionCog(cls, bot))
  }

  const TimedOutMessage: string := "已超時"

  /** `BasicView`: a view that remembers the interaction it answers and whether its timeout
      should still edit that interaction's message. */
  class BasicView {
    const timeout: Option<real>
    var ctx: Option<Interaction>
    var disableOnTimeout: bool

    constructor (timeout: Option<real>)
      ensures this.timeout == timeout && ctx == None && !disableOnTimeout
    {
      this.timeout := timeout;
      ctx := None;
      disableOnTimeout := false;
    }

    /** `on_timeout`: only while an interaction is set and the guard is down is the message
        edited to "已超時" with the view removed; otherwise nothing happens. */
    method OnTimeout(bot: Bot)
      modifies bot
      ensures bot.extensions == old(bot.extensions)
      ensures ctx.Some? && !disableOnTimeout ==>
        bot.trace == old(bot.trace) + [Responded(ctx.value, EditOriginalResponse(TimedOutMessage, ViewRemoved))]
      ensures ctx.None? || disableOnTimeout ==> bot.trace == old(bot.trace)
    {
      if ctx.Some? && !disableOnTimeout {
        bot.Respond(ctx.value, EditOriginalResponse(TimedOutMessage, ViewRemoved));
      }
    }
  }

  /** Through a subclass, each forbidden helper raises NotAllowedError naming it, whatever the
      environment holds; ExtensionCog's own helpers still read the environment. */
  lemma SubclassHelpersRaise(cls: CogClass, name: string, env: Env)
    requires !cls.isBase
    requires name in ForbiddenHelpers
    requires forall n :: n in ForbiddenHelpers ==> n in cls.attributes && cls.attributes[n] == IllegalCall(n)
    ensures cls.Lookup(name).Some?
    ensures Invoke(cls.Lookup(name).value, env) == Err(NotAllowedError(IllegalCallMessage(name)))
    ensures Invoke(BaseHelpers[name], env).Ok? <==> name == "get_bot_icon" || GetTestGuild(env).Ok?
  {
  }
}
