/** What the extension loader can answer, which `except` clause of each caller catches it,
    and the message each clause produces. The loader's answer is an input here: when it
    raises which exception belongs to discord.py and is not part of this model. */
module Outcomes {
  import opened Errors
  import opened Platform

  /** The exceptions of discord.ext.commands.errors the core names; none of them is a
      subclass of another, so the order of the `except` clauses does not matter among them.
      `text` is `str(exception)`; `original` is `str(error.original)`. */
  datatype HostError =
    | ExtensionAlreadyLoaded(text: string)
    | ExtensionNotLoaded(text: string)
    | ExtensionNotFound(text: string)
    | NoEntryPointError(text: string)
    | ExtensionFailed(text: string, original: string)
    | OtherException(text: string)

  /** The loader returned normally, or raised. */
  datatype HostOutcome = Returned | Raised(error: HostError)

  /** The clause that handled the loader's answer. */
  datatype Report =
    | Succeeded
    | AlreadyLoaded
    | NotLoaded
    | NotFound
    | NoEntryPoint
    | Failed(original: string)
    | Unexpected(text: string)

  /** The clauses of the load callback (extension_manage.py, lines 28-41): every exception it
      names has its own clause; anything else, such as ExtensionNotLoaded, reaches the generic
      clause with its own text. */
  function LoadReport(outcome: HostOutcome): (r: Report)
    ensures !r.NotLoaded?
    ensures outcome.Returned? <==> r.Succeeded?
    ensures r.Unexpected? <==> outcome.Raised? && (outcome.error.ExtensionNotLoaded? || outcome.error.OtherException?)
    ensures r.Unexpected? ==> r.text == outcome.error.text
    ensures r.AlreadyLoaded? <==> outcome.Raised? && outcome.error.ExtensionAlreadyLoaded?
    ensures r.NotFound? <==> outcome.Raised? && outcome.error.ExtensionNotFound?
    ensures r.NoEntryPoint? <==> outcome.Raised? && outcome.error.NoEntryPointError?
    ensures r.Failed? <==> outcome.Raised? && outcome.error.ExtensionFailed?
    ensures r.Failed? ==> r.original == outcome.error.original
  {
    match outcome
    case Returned => Succeeded
    case Raised(ExtensionAlreadyLoaded(_)) => AlreadyLoaded
    case Raised(ExtensionNotFound(_)) => NotFound
    case Raised(NoEntryPointError(_)) => NoEntryPoint
    case Raised(ExtensionFailed(_, original)) => Failed(original)
    case Raised(e) => Unexpected(e.text)
  }

  /** The clauses of the unload callback (lines 61-68): only ExtensionNotLoaded has its own. */
  function UnloadReport(outcome: HostOutcome): (r: Report)
    ensures r.Succeeded? || r.NotLoaded? || r.Unexpected?
    ensures outcome.Returned? <==> r.Succeeded?
    ensures r.NotLoaded? <==> outcome.Raised? && outcome.error.ExtensionNotLoaded?
    ensures r.Unexpected? ==> r.text == outcome.error.text
  {
    match outcome
    case Returned => Succeeded
    case Raised(ExtensionNotLoaded(_)) => NotLoaded
    case Raised(e) => Unexpected(e.text)
  }

  /** The clauses of the reload callback (lines 88-99). */
  function ReloadReport(outcome: HostOutcome): (r: Report)
    ensures !r.AlreadyLoaded? && !r.NotFound?
    ensures outcome.Returned? <==> r.Succeeded?
    ensures r.Unexpected? <==> outcome.Raised? && (outcome.error.ExtensionAlreadyLoaded? || outcome.error.ExtensionNotFound? || outcome.error.OtherException?)
    ensures r.Unexpected? ==> r.text == outcome.error.text
    ensures r.NotLoaded? <==> outcome.Raised? && outcome.error.ExtensionNotLoaded?
    ensures r.NoEntryPoint? <==> outcome.Raised? && outcome.error.NoEntryPointError?
    ensures r.Failed? <==> outcome.Raised? && outcome.error.ExtensionFailed?
    ensures r.Failed? ==> r.original == outcome.error.original
  {
    match outcome
    case Returned => Succeeded
    case Raised(ExtensionNotLoaded(_)) => NotLoaded
    case Raised(NoEntryPointError(_)) => NoEntryPoint
    case Raised(ExtensionFailed(_, original)) => Failed(original)
    case Raised(e) => Unexpected(e.text)
  }

  /** The clauses of `try_to_load_extension` (main.py, lines 35-44): ExtensionAlreadyLoaded
      has no clause of its own there and reaches the generic one. */
  function StartupReport(outcome: HostOutcome): (r: Report)
    ensures !r.AlreadyLoaded? && !r.NotLoaded?
    ensures outcome.Returned? <==> r.Succeeded?
    ensures r.Unexpected? <==> outcome.Raised? && (outcome.error.ExtensionAlreadyLoaded? || outcome.error.ExtensionNotLoaded? || outcome.error.OtherException?)
    ensures r.Unexpected? ==> r.text == outcome.error.text
    ensures r.NotFound? <==> outcome.Raised? && outcome.error.ExtensionNotFound?
    ensures r.NoEntryPoint? <==> outcome.Raised? && outcome.error.NoEntryPointError?
    ensures r.Failed? <==> outcome.Raised? && outcome.error.ExtensionFailed?
    ensures r.Failed? ==> r.original == outcome.error.original
  {
    match outcome
    case Returned => Succeeded
    case Raised(ExtensionNotFound(_)) => NotFound
    case Raised(NoEntryPointError(_)) => NoEntryPoint
    case Raised(ExtensionFailed(_, original)) => Failed(original)
    case Raised(e) => Unexpected(e.text)
  }

  function ReportOf(op: Operation, outcome: HostOutcome): Report {
    match op
    case Load => LoadReport(outcome)
    case Unload => UnloadReport(outcome)
    case Reload => ReloadReport(outcome)
  }

  /** The operation's word in the messages: 導入 (load), 移除 (unload), 重載 (reload). */
  function Verb(op: Operation): string {
    match op
    case Load => "導入"
    case Unload => "移除"
    case Reload => "重載"
  }

  const UnexpectedPrefix: string := "發生無法預期的錯誤\n錯誤："
  const ModuleWord: string := "模組"

  /** The part of a message that follows "模組{name}". */
  function ModuleTail(op: Operation, r: Report): string
    requires !r.Unexpected?
  {
    match r
    case Succeeded => Verb(op) + "成功"
    case AlreadyLoaded => "已經成功導入"
    case NotLoaded => "沒有導入，無法" + Verb(op)
    case NotFound => "不存在"
    case NoEntryPoint => "沒有定義setup函數"
    case Failed(original) => "本身或調用模組的setup函數時出現問題\n問題：" + original
  }

  /** The message a handled answer produces for the extension `name`: every clause but the
      generic one names the module, the generic one ends with the exception's own text, and
      the extension-failed one ends with the original error. */
  function ReportMessage(op: Operation, name: string, r: Report): (m: string)
    ensures !r.Unexpected? ==> |m| > |ModuleWord + name| && m[..|ModuleWord + name|] == ModuleWord + name
    ensures r.Unexpected? ==> |m| >= |UnexpectedPrefix| && m[|UnexpectedPrefix|..] == r.text
    ensures r.Failed? ==> |m| >= |r.original| && m[|m| - |r.original|..] == r.original
  {
    if r.Unexpected? then UnexpectedPrefix + r.text else ModuleWord + name + ModuleTail(op, r)
  }

  /** The message shown to the operator once the loader has answered. */
  function OutcomeMessage(op: Operation, name: string, outcome: HostOutcome): string {
    ReportMessage(op, name, ReportOf(op, outcome))
  }

  /** What the operator reads for the answers every command treats alike: a normal return is
      reported as success of the operation, an exception no clause names is shown with its own
      text, and a failing extension is shown with its original error by load and reload. */
  lemma OutcomeMessageText(op: Operation, name: string, outcome: HostOutcome)
    ensures outcome.Returned? ==> OutcomeMessage(op, name, outcome) == ModuleWord + name + Verb(op) + "成功"
    ensures outcome.Raised? && outcome.error.OtherException? ==>
      OutcomeMessage(op, name, outcome) == UnexpectedPrefix + outcome.error.text
    ensures outcome.Raised? && outcome.error.ExtensionFailed? && op != Unload ==>
      OutcomeMessage(op, name, outcome) == ModuleWord + name + "本身或調用模組的setup函數時出現問題\n問題：" + outcome.error.original
  {
  }

  /** Two different tails of one operation differ. */
  lemma ModuleTailInjective(op: Operation, r1: Report, r2: Report)
    requires !r1.Unexpected? && !r2.Unexpected?
    requires ModuleTail(op, r1) == ModuleTail(op, r2)
    ensures r1 == r2
  {
    var t1, t2 := ModuleTail(op, r1), ModuleTail(op, r2);
    var verb := Verb(op);
    assert |verb| == 2 && verb[0] != '已' && verb[0] != '沒' && verb[0] != '不' && verb[0] != '本';
    assert t1[0] == t2[0];
    if r1.Failed? && r2.Failed? {
      var p := "本身或調用模組的setup函數時出現問題\n問題：";
      assert r1.original == t1[|p|..] && r2.original == t2[|p|..];
    } else if r1.NotLoaded? || r2.NotLoaded? || r1.NoEntryPoint? || r2.NoEntryPoint? {
      assert t1[2] == t2[2];
    }
  }

  /** Each clause of one operation has its own message, and the message keeps the detail it
      reports: equal messages for the same extension come from the same clause. */
  lemma {:induction false} ReportMessageInjective(op: Operation, name: string, r1: Report, r2: Report)
    requires ReportMessage(op, name, r1) == ReportMessage(op, name, r2)
    ensures r1 == r2
  {
    var m := ReportMessage(op, name, r1);
    var head := ModuleWord + name;
    assert m[0] == (if r1.Unexpected? then UnexpectedPrefix[0] else ModuleWord[0]);
    assert m[0] == (if r2.Unexpected? then UnexpectedPrefix[0] else ModuleWord[0]);
    if r1.Unexpected? && r2.Unexpected? {
      assert r1.text == m[|UnexpectedPrefix|..] == r2.text;
    } else if !r1.Unexpected? && !r2.Unexpected? {
      assert ModuleTail(op, r1) == m[|head|..] == ModuleTail(op, r2);
      ModuleTailInjective(op, r1, r2);
    }
  }

  /** For each operation, answers that reach different clauses give different messages. */
  lemma DistinctMessages(op: Operation, name: string, o1: HostOutcome, o2: HostOutcome)
    requires ReportOf(op, o1) != ReportOf(op, o2)
    ensures OutcomeMessage(op, name, o1) != OutcomeMessage(op, name, o2)
  {
    if OutcomeMessage(op, name, o1) == OutcomeMessage(op, name, o2) {
      ReportMessageInjective(op, name, ReportOf(op, o1), ReportOf(op, o2));
    }
  }
}
