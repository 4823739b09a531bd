/** The code templates of the slash-command family and the dispatch from a
    block to its template. Each template takes the code of the block's
    children, already generated, and builds one string; `Gen` is the
    registry lookup that picks the template for a block and generates its
    children first. */
module SlashGenerator {
  import opened Wrappers
  import opened Fragments
  import opened SlashBlocks
  import opened Enclosing

  /** The code of a value socket: the empty string when nothing is bound,
      otherwise the code of the bound block. Parenthesisation by precedence
      is not modelled. */
  function ValueToCode(input: Option<Block>): (code: string)
    ensures input.None? ==> code == ""
    decreases input
  {
    match input
    case None => ""
    case Some(child) => Gen(child).code
  }

  /** The code of a statement socket: the code of every block of the chain,
      in chain order, with nothing in between. Indentation is not modelled. */
  function StatementToCode(chain: seq<Block>): (code: string)
    ensures chain == [] ==> code == ""
    decreases chain
  {
    if chain == [] then "" else Gen(chain[0]).code + StatementToCode(chain[1..])
  }

  /** JavaScript's `a || b` on two strings: `a` unless it is empty. */
  function JsOr(a: string, b: string): (r: string)
    ensures a != "" ==> r == a
    ensures a == "" ==> r == b
  {
    if a != "" then a else b
  }

  const AccessorPrefix := "interaction.options.get"

  /** The get-option expression: the accessor named by the token, called on
      the option name, tagged `Order.NONE`. */
  function GetOptionCode(token: string, name: string): Fragment
  {
    Expr(AccessorPrefix + token + "(" + name + ");", NONE)
  }

  /** The edit statement, passing the content alone. */
  function EditReplyCode(content: string): string
  {
    "interaction.editReply({\n    content: " + content + ",\n  });"
  }

  /** The reply statement, passing the content and the ephemeral flag. */
  function ReplyCode(content: string, ephemeral: string): string
  {
    "interaction.reply({\n    content: " + content + ",\n    ephemeral: " + ephemeral + "\n  });"
  }

  const ListenerOpen := "client.on(\"interactionCreate\", async (interaction) => {\n          "
  const ListenerClose := "\n      });"

  /** The interaction handler: the body inside one `interactionCreate`
      listener. */
  function ReceivedCode(event: string): string
  {
    ListenerOpen + event + ListenerClose
  }

  const GuildPrefix := "client.guilds.cache.get("
  const GlobalPrefix := "client.application.commands.set([\n    "

  /** The registration statement, with the two guarded assignments to
      `code` as written: the first guard is that the guild code is a
      non-empty string, the second that it is not. `None` would stand for
      `code` left unassigned; one of the two branches is always taken. */
  function CreateContainerCode(guild: string, commands: string): (code: Option<string>)
    ensures code.Some?
    ensures guild != "" <==> GuildPrefix <= code.value
    ensures guild == "" <==> GlobalPrefix <= code.value
  {
    if guild != "" then
      var code := GuildPrefix + guild + ").commands.set([\n    " + commands + "\n  ]);";
      assert code[7] == 'g';
      Some(code)
    else if guild == "" then
      var code := GlobalPrefix + commands + "\n  ]);";
      assert code[7] == 'a';
      Some(code)
    else
      None
  }

  /** The command entry of the registration array. */
  function CreateCode(name: string, dsc: string, options: string, nsfw: string, perm: string): string
  {
    "{\n      name: " + name
    + ",\n      description: " + dsc
    + ",\n      nsfw: " + nsfw
    + ",\n      defaultMemberPermissions: " + JsOr(perm, "[]")
    + ",\n      options: [" + options + "]\n    },"
  }

  /** An option entry of a command or subcommand. */
  function AddOptionCode(token: string, name: string, dsc: string, required: string, choices: string): string
  {
    "{\n    type: " + token
    + ",\n    name: " + name
    + ",\n    description: " + dsc
    + ",\n    required: " + required
    + ",\n    choices: [" + choices + "]\n  },"
  }

  /** A choice entry of an option. */
  function AddChoiceCode(name: string, value: string): string
  {
    "{\n    name: " + name + ",\n    value: " + value + "\n  },"
  }

  /** A subcommand entry, option type 1. */
  function AddSubcommandCode(name: string, dsc: string, options: string): string
  {
    "{\n    type: 1,\n    name: " + name + ",\n    description: " + dsc + ",\n    options: [" + options + "]\n  },"
  }

  /** A subcommand-group entry, option type 2. */
  function AddSubcommandGroupCode(name: string, dsc: string, subcommands: string): string
  {
    "{\n    type: 2,\n    name: " + name + ",\n    description: " + dsc + ",\n    options: [" + subcommands + "]\n  },"
  }

  // Reading the children's code back out of the statement templates.

  /** The guild code is exactly the argument of `get(...)`; without it, the
      command code is exactly the content of the `set([...])` array. */
  lemma CreateContainerReadsBack(guild: string, commands: string)
    ensures guild != "" ==>
              Disclose(GuildPrefix, CreateContainerCode(guild, commands).value,
                       ").commands.set([\n    " + commands + "\n  ]);") == Some(guild)
    ensures guild == "" ==>
              Disclose(GlobalPrefix, CreateContainerCode(guild, commands).value, "\n  ]);") == Some(commands)
  {
    if guild != "" {
      EncloseThreePieceSuffix(GuildPrefix, guild, ").commands.set([\n    ", commands, "\n  ]);");
      DiscloseEnclosed(GuildPrefix, guild, ").commands.set([\n    " + commands + "\n  ]);");
    } else {
      DiscloseEnclosed(GlobalPrefix, commands, "\n  ]);");
    }
  }

  /** The option-name code reads back from between the accessor call's
      parentheses. */
  lemma GetOptionReadsBack(token: string, name: string)
    ensures Disclose(AccessorPrefix + token + "(", GetOptionCode(token, name).code, ");") == Some(name)
  {
    assert GetOptionCode(token, name).code == Enclose(AccessorPrefix + token + "(", name, ");");
    DiscloseEnclosed(AccessorPrefix + token + "(", name, ");");
  }

  /** The content code reads back from the edit statement. */
  lemma EditReplyReadsBack(content: string)
    ensures Disclose("interaction.editReply({\n    content: ", EditReplyCode(content), ",\n  });") == Some(content)
  {
    DiscloseEnclosed("interaction.editReply({\n    content: ", content, ",\n  });");
  }

  /** Once the content entry is known, the ephemeral code reads back from
      the reply statement. */
  lemma ReplyReadsBack(content: string, ephemeral: string)
    ensures Disclose("interaction.reply({\n    content: " + content + ",\n    ephemeral: ",
                     ReplyCode(content, ephemeral), "\n  });") == Some(ephemeral)
  {
    DiscloseEnclosed("interaction.reply({\n    content: " + content + ",\n    ephemeral: ", ephemeral, "\n  });");
  }

  /** The body code reads back from inside the listener. */
  lemma ReceivedReadsBack(event: string)
    ensures Disclose(ListenerOpen, ReceivedCode(event), ListenerClose) == Some(event)
  {
    DiscloseEnclosed(ListenerOpen, event, ListenerClose);
  }

  /** The fragment the generator produces for a block: the kind's template
      applied to the code of its sockets. Only the command-name and the
      get-option templates tag their code with a precedence. */
  function Gen(b: Block): (f: Fragment)
    ensures f.Expr? <==> b.CommandName? || b.GetOption? || (b.Foreign? && b.fragment.Expr?)
    ensures (b.CommandName? || b.GetOption?) ==> f.order == NONE
    decreases b
  {
    match b
    case GetOption(getType, name) => GetOptionCode(GetOptionToken(getType), ValueToCode(name))
    case EditReply(content) => Stmt(EditReplyCode(ValueToCode(content)))
    case Reply(content, ephemeral) => Stmt(ReplyCode(ValueToCode(content), ValueToCode(ephemeral)))
    case Received(event) => Stmt(ReceivedCode(StatementToCode(event)))
    case CreateContainer(guild, commands) =>
      Stmt(CreateContainerCode(ValueToCode(guild), StatementToCode(commands)).value)
    case Create(name, dsc, nsfw, _, perms, options) =>
      Stmt(CreateCode(ValueToCode(name), ValueToCode(dsc), StatementToCode(options),
                      ValueToCode(nsfw), ValueToCode(perms)))
    case AddOption(addType, name, dsc, required, choices) =>
      Stmt(AddOptionCode(AddOptionToken(addType), ValueToCode(name), ValueToCode(dsc),
                         ValueToCode(required), StatementToCode(choices)))
    case AddChoice(name, value) => Stmt(AddChoiceCode(ValueToCode(name), ValueToCode(value)))
    case CommandServer => Stmt("interaction.guild")
    case CommandChannel => Stmt("interaction.channel")
    case InvokingMember => Stmt("interaction.member")
    case InvokingUser => Stmt("interaction.member.user")
    case AddSubcommand(name, dsc, options) =>
      Stmt(AddSubcommandCode(ValueToCode(name), ValueToCode(dsc), StatementToCode(options)))
    case AddSubcommandGroup(name, dsc, subcommands) =>
      Stmt(AddSubcommandGroupCode(ValueToCode(name), ValueToCode(dsc), StatementToCode(subcommands)))
    case CommandName => Expr("interaction.commandName", NONE)
    case Foreign(fragment, _, _) => fragment
  }
}
