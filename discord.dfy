/** The parts of discord.py that the breaker touches, reduced to values. */
module Discord {
  import opened Wrappers

  /** An application command or context menu. The breaker keys its tables by
      the command object itself, so only equality is observable. */
  type Command(==)

  /** The exception the host passes to `on_error`; the breaker never looks inside it. */
  datatype AppCommandError = AppCommandError(id: nat)

  /** An interaction; `command` is None when the host resolved no command for it. */
  datatype Interaction = Interaction(id: nat, command: Option<Command>)

  /** A positional argument of a command callback: the interaction, or anything
      else the host passes (a cog's `self`, a context menu's target, an option value). */
  datatype Arg = InteractionArg(interaction: Interaction) | OtherArg(id: nat)

  /** Position of the first interaction among `args`, or `|args|` when there is none. */
  function FirstInteraction(args: seq<Arg>): (k: nat)
    ensures k <= |args|
    ensures forall j :: 0 <= j < k ==> !args[j].InteractionArg?
    ensures k < |args| ==> args[k].InteractionArg?
  {
    if args == [] || args[0].InteractionArg? then 0 else 1 + FirstInteraction(args[1..])
  }

  /** `utils.find(lambda x: isinstance(x, Interaction), args)`: the first
      interaction among the arguments, or None when there is none. */
  function FindInteraction(args: seq<Arg>): (r: Option<Interaction>)
    ensures r.None? <==> forall j :: 0 <= j < |args| ==> !args[j].InteractionArg?
    ensures r.Some? ==> exists k :: 0 <= k < |args| && args[k] == InteractionArg(r.value)
                                    && forall j :: 0 <= j < k ==> !args[j].InteractionArg?
  {
    var k := FirstInteraction(args);
    if k < |args| then Some(args[k].interaction) else None
  }
}
