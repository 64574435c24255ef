/** The parts of discord.py and of the chat platform that the core touches, reduced to what
    the core can observe: interaction handles, the responses it sends, the requests it makes
    to the extension loader, and the select widget whose fields it rewrites. */
module Platform {
  import opened Errors

  /** An interaction handle. The command that opened a prompt and each later use of its
      selector are different interactions. */
  datatype Interaction = Interaction(id: nat)

  /** What a response says about the view attached to the message. */
  datatype ViewArg =
    | ViewOmitted                                       // no `view=` argument
    | ViewRemoved                                       // `view=None`
    | SelectorView(disabled: bool, placeholder: string) // `view=view`, its selector as it stands

  datatype Response =
    | SendMessage(content: string, view: ViewArg, ephemeral: bool)
    | EditOriginalResponse(content: string, view: ViewArg)

  /** The three registry operations of the extension loader. */
  datatype Operation = Load | Unload | Reload

  datatype HostCall = HostCall(op: Operation, moduleId: string)

  /** One step the bot takes towards the outside world. */
  datatype Event =
    | Responded(target: Interaction, response: Response)
    | Requested(call: HostCall)

  /** The bot as the core sees it: the keys of its extension registry, in insertion order,
      and the trace of everything sent to the platform or asked of the loader. */
  class Bot {
    var extensions: seq<string>
    var trace: seq<Event>

    constructor (extensions: seq<string>)
      ensures this.extensions == extensions && trace == []
    {
      this.extensions := extensions;
      trace := [];
    }

    /** `interaction.response.send_message(...)` or `interaction.edit_original_response(...)`. */
    method Respond(target: Interaction, response: Response)
      modifies this
      ensures extensions == old(extensions)
      ensures trace == old(trace) + [Responded(target, response)]
    {
      trace := trace + [Responded(target, response)];
    }

    /** `bot.load_extension(id)`, `bot.unload_extension(id)` or `bot.reload_extension(id)`;
        what the loader answers is not decided here. */
    method Request(call: HostCall)
      modifies this
      ensures extensions == old(extensions)
      ensures trace == old(trace) + [Requested(call)]
    {
      trace := trace + [Requested(call)];
    }
  }

  datatype SelectOption = SelectOption(caption: string, value: string)  // `label=` and `value=`

  /** `discord.ui.Select`: the fields the core sets or reads. `callback` stands for the
      `select_callback` closure a command installs, known by the operation that command
      performs; a fresh selector has none. */
  class Select {
    var placeholder: string
    var options: seq<SelectOption>
    var minValues: nat
    var maxValues: nat
    var disabled: bool
    var values: seq<string>
    var callback: Option<Operation>

    constructor (placeholder: string, options: seq<SelectOption>, minValues: nat, maxValues: nat)
      ensures this.placeholder == placeholder && this.options == options
      ensures this.minValues == minValues && this.maxValues == maxValues
      ensures !disabled && values == [] && callback == None
    {
      this.placeholder := placeholder;
      this.options := options;
      this.minValues := minValues;
      this.maxValues := maxValues;
      disabled := false;
      values := [];
      callback := None;
    }

    /** How the selector is shown when a response passes `view=view`. */
    function Shown(): (v: ViewArg)
      reads this
      ensures v.SelectorView? && v.disabled == disabled && v.placeholder == placeholder
    {
      SelectorView(disabled, placeholder)
    }

    /** The platform records the operator's choice before it runs the selector's callback. */
    method Pick(chosen: seq<string>)
      modifies this
      ensures values == chosen
      ensures placeholder == old(placeholder) && options == old(options) && disabled == old(disabled)
      ensures minValues == old(minValues) && maxValues == old(maxValues) && callback == old(callback)
    {
      values := chosen;
    }
  }
}
