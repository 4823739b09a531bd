/** What the slash-command templates promise, stated against `Gen`: the
    layout and field order of every object literal they emit, the guild
    branch, the permissions fallback, the ignored `dm` socket, the two token
    tables, the fixed subcommand type codes, the constant blocks and the
    order of a statement chain. */
module SlashProperties {
  import opened Wrappers
  import opened Fragments
  import opened SlashBlocks
  import opened SlashGenerator
  import opened ObjectLayout
  import opened Enclosing
  import opened TemplateShapes
  import opened DropdownTables

  // ---------------------------------------------------------------------
  // Field order of the templates
  // ---------------------------------------------------------------------

  /** A command entry lists name, description, nsfw, the permissions and
      the options, in that order, although the template reads the options
      before nsfw; the permissions entry falls back to `[]` when the perms
      socket generates no code. */
  lemma CreateFieldOrder(name: Option<Block>, dsc: Option<Block>, nsfw: Option<Block>,
                         dm: Option<Block>, perms: Option<Block>, options: seq<Block>)
    ensures Gen(Create(name, dsc, nsfw, dm, perms, options)).code ==
      ObjectLiteral("      ", "    ", [
        Field("name", ValueToCode(name)),
        Field("description", ValueToCode(dsc)),
        Field("nsfw", ValueToCode(nsfw)),
        Field("defaultMemberPermissions", if ValueToCode(perms) == "" then "[]" else ValueToCode(perms)),
        Field("options", "[" + StatementToCode(options) + "]")], false) + ","
  {
    CreateLayout(ValueToCode(name), ValueToCode(dsc), StatementToCode(options), ValueToCode(nsfw), ValueToCode(perms));
  }

  /** Nothing bound to the declared `dm` socket changes the generated code. */
  lemma DmIgnored(name: Option<Block>, dsc: Option<Block>, nsfw: Option<Block>,
                  dm: Option<Block>, dm': Option<Block>, perms: Option<Block>, options: seq<Block>)
    ensures "dm" in Declaration(KCreate).valueSockets
    ensures Gen(Create(name, dsc, nsfw, dm, perms, options)) == Gen(Create(name, dsc, nsfw, dm', perms, options))
  {
    assert Declaration(KCreate).valueSockets[3] == "dm";
  }

  /** Two blocks agree on their sockets when they have the same kind, the
      same dropdown selection, the same chains under every name and the same
      children under every name except `dm`. */
  ghost predicate SameSockets(b: Block, b': Block)
  {
    && !b.Foreign? && !b'.Foreign? && KindOf(b) == KindOf(b')
    && Selected(b) == Selected(b')
    && (forall s :: s != "dm" ==> ValueInput(b, s) == ValueInput(b', s))
    && (forall s :: StatementInput(b, s) == StatementInput(b', s))
  }

  /** Templates read their sockets by name: two blocks that agree on their
      sockets, `dm` aside, generate the same code. */
  lemma GenReadsSocketsByName(b: Block, b': Block)
    requires SameSockets(b, b')
    ensures Gen(b) == Gen(b')
  {
    if b.Create? {
      CreateSocketsByName(b, b');
    } else if b.AddOption? || b.AddChoice? || b.AddSubcommandGroup? || b.AddSubcommand? {
      ListSocketsByName(b, b');
    } else {
      OtherSocketsByName(b, b');
    }
  }

  lemma CreateSocketsByName(b: Block, b': Block)
    requires SameSockets(b, b') && b.Create?
    ensures Gen(b) == Gen(b')
  {
    assert b'.Create?;
    assert ValueInput(b, "name") == ValueInput(b', "name");
    assert ValueInput(b, "dsc") == ValueInput(b', "dsc");
    assert ValueInput(b, "nsfw") == ValueInput(b', "nsfw");
    assert ValueInput(b, "perms") == ValueInput(b', "perms");
    assert StatementInput(b, "options") == StatementInput(b', "options");
  }

  lemma ListSocketsByName(b: Block, b': Block)
    requires SameSockets(b, b')
    requires b.AddOption? || b.AddChoice? || b.AddSubcommandGroup? || b.AddSubcommand?
    ensures Gen(b) == Gen(b')
  {
    match b
    case AddOption(_, _, _, _, _) =>
      assert b'.AddOption?;
      assert ValueInput(b, "name") == ValueInput(b', "name");
      assert ValueInput(b, "dsc") == ValueInput(b', "dsc");
      assert ValueInput(b, "required") == ValueInput(b', "required");
      assert StatementInput(b, "choices") == StatementInput(b', "choices");
    case AddChoice(_, _) =>
      assert b'.AddChoice?;
      assert ValueInput(b, "name") == ValueInput(b', "name");
      assert ValueInput(b, "value") == ValueInput(b', "value");
    case AddSubcommandGroup(_, _, _) =>
      assert b'.AddSubcommandGroup?;
      assert ValueInput(b, "name") == ValueInput(b', "name");
      assert ValueInput(b, "dsc") == ValueInput(b', "dsc");
      assert StatementInput(b, "subcommands") == StatementInput(b', "subcommands");
    case AddSubcommand(_, _, _) =>
      assert b'.AddSubcommand?;
      assert ValueInput(b, "name") == ValueInput(b', "name");
      assert ValueInput(b, "dsc") == ValueInput(b', "dsc");
      assert StatementInput(b, "options") == StatementInput(b', "options");
  }

  lemma OtherSocketsByName(b: Block, b': Block)
    requires SameSockets(b, b')
    requires !(b.Create? || b.AddOption? || b.AddChoice? || b.AddSubcommandGroup? || b.AddSubcommand?)
    ensures Gen(b) == Gen(b')
  {
    match b
    case Received(_) =>
      assert b'.Received?;
      assert StatementInput(b, "event") == StatementInput(b', "event");
    case CreateContainer(_, _) =>
      assert b'.CreateContainer?;
      assert ValueInput(b, "guild") == ValueInput(b', "guild");
      assert StatementInput(b, "commands") == StatementInput(b', "commands");
    case Reply(_, _) =>
      assert b'.Reply?;
      assert ValueInput(b, "content") == ValueInput(b', "content");
      assert ValueInput(b, "ephemeral") == ValueInput(b', "ephemeral");
    case EditReply(_) =>
      assert b'.EditReply?;
      assert ValueInput(b, "content") == ValueInput(b', "content");
    case GetOption(_, _) =>
      assert b'.GetOption?;
      assert ValueInput(b, "name") == ValueInput(b', "name");
    case _ =>
  }

  /** An option entry starts with its numeric type token, then name,
      description, required and the choices array. */
  lemma AddOptionFieldOrder(l: AddOptionLabel, name: Option<Block>, dsc: Option<Block>,
                            required: Option<Block>, choices: seq<Block>)
    ensures Gen(AddOption(l, name, dsc, required, choices)).code ==
      ObjectLiteral("    ", "  ", [
        Field("type", AddOptionToken(l)),
        Field("name", ValueToCode(name)),
        Field("description", ValueToCode(dsc)),
        Field("required", ValueToCode(required)),
        Field("choices", "[" + StatementToCode(choices) + "]")], false) + ","
  {
    AddOptionLayout(AddOptionToken(l), ValueToCode(name), ValueToCode(dsc), ValueToCode(required),
      StatementToCode(choices));
  }

  /** A choice entry is its name then its value. */
  lemma AddChoiceFieldOrder(name: Option<Block>, value: Option<Block>)
    ensures Gen(AddChoice(name, value)).code ==
      ObjectLiteral("    ", "  ", [Field("name", ValueToCode(name)), Field("value", ValueToCode(value))], false) + ","
  {
    AddChoiceLayout(ValueToCode(name), ValueToCode(value));
  }

  /** A subcommand entry has type code 1 and wraps its option chain in the
      `options` array; a subcommand-group entry has type code 2 and wraps its
      subcommand chain the same way. */
  lemma SubcommandFieldOrder(name: Option<Block>, dsc: Option<Block>, chain: seq<Block>)
    ensures Gen(AddSubcommand(name, dsc, chain)).code ==
      ObjectLiteral("    ", "  ", [
        Field("type", "1"),
        Field("name", ValueToCode(name)),
        Field("description", ValueToCode(dsc)),
        Field("options", "[" + StatementToCode(chain) + "]")], false) + ","
    ensures Gen(AddSubcommandGroup(name, dsc, chain)).code ==
      ObjectLiteral("    ", "  ", [
        Field("type", "2"),
        Field("name", ValueToCode(name)),
        Field("description", ValueToCode(dsc)),
        Field("options", "[" + StatementToCode(chain) + "]")], false) + ","
  {
    SubcommandLayout(ValueToCode(name), ValueToCode(dsc), StatementToCode(chain));
  }

  /** A reply passes an object with the content before the ephemeral flag;
      an edit passes an object with the content alone, followed by a comma. */
  lemma ReplyFieldOrder(content: Option<Block>, ephemeral: Option<Block>)
    ensures Gen(Reply(content, ephemeral)).code ==
      "interaction.reply("
      + ObjectLiteral("    ", "  ", [Field("content", ValueToCode(content)), Field("ephemeral", ValueToCode(ephemeral))], false)
      + ");"
    ensures Gen(EditReply(content)).code ==
      "interaction.editReply(" + ObjectLiteral("    ", "  ", [Field("content", ValueToCode(content))], true) + ");"
  {
    ReplyLayout(ValueToCode(content), ValueToCode(ephemeral));
  }

  // ---------------------------------------------------------------------
  // List elements concatenate into comma-separated array entries
  // ---------------------------------------------------------------------

  /** A block whose code is one element of an array literal. */
  predicate IsListElement(b: Block)
  {
    b.Create? || b.AddOption? || b.AddChoice? || b.AddSubcommand? || b.AddSubcommandGroup?
  }

  /** The code of every list-element block is one object literal followed by
      a comma. */
  lemma ListElementShape(b: Block)
    requires IsListElement(b)
    ensures "{" <= Gen(b).code && EndsWith(Gen(b).code, "},")
  {
    match b
    case Create(name, dsc, nsfw, dm, perms, options) =>
      CreateFieldOrder(name, dsc, nsfw, dm, perms, options);
      CommaAfterLiteral(ObjectLiteral("      ", "    ", [
        Field("name", ValueToCode(name)),
        Field("description", ValueToCode(dsc)),
        Field("nsfw", ValueToCode(nsfw)),
        Field("defaultMemberPermissions", if ValueToCode(perms) == "" then "[]" else ValueToCode(perms)),
        Field("options", "[" + StatementToCode(options) + "]")], false));
    case AddOption(l, name, dsc, required, choices) =>
      AddOptionFieldOrder(l, name, dsc, required, choices);
      CommaAfterLiteral(ObjectLiteral("    ", "  ", [
        Field("type", AddOptionToken(l)),
        Field("name", ValueToCode(name)),
        Field("description", ValueToCode(dsc)),
        Field("required", ValueToCode(required)),
        Field("choices", "[" + StatementToCode(choices) + "]")], false));
    case AddChoice(name, value) =>
      AddChoiceFieldOrder(name, value);
      CommaAfterLiteral(ObjectLiteral("    ", "  ", [Field("name", ValueToCode(name)), Field("value", ValueToCode(value))], false));
    case AddSubcommand(name, dsc, chain) =>
      SubcommandFieldOrder(name, dsc, chain);
      CommaAfterLiteral(ObjectLiteral("    ", "  ", [
        Field("type", "1"),
        Field("name", ValueToCode(name)),
        Field("description", ValueToCode(dsc)),
        Field("options", "[" + StatementToCode(chain) + "]")], false));
    case AddSubcommandGroup(name, dsc, chain) =>
      SubcommandFieldOrder(name, dsc, chain);
      CommaAfterLiteral(ObjectLiteral("    ", "  ", [
        Field("type", "2"),
        Field("name", ValueToCode(name)),
        Field("description", ValueToCode(dsc)),
        Field("options", "[" + StatementToCode(chain) + "]")], false));
  }

  /** The code of a non-empty chain of list elements opens with `{` and
      closes with `},`: every element, the last included, is followed by a
      comma. */
  lemma {:induction false} ListChainShape(chain: seq<Block>)
    requires chain != []
    requires forall i :: 0 <= i < |chain| ==> IsListElement(chain[i])
    ensures "{" <= StatementToCode(chain) && EndsWith(StatementToCode(chain), "},")
  {
    ListElementShape(chain[0]);
    var head := Gen(chain[0]).code;
    var rest := StatementToCode(chain[1..]);
    assert StatementToCode(chain) == head + rest;
    if |chain| == 1 {
      assert rest == "";
      assert StatementToCode(chain) == head;
    } else {
      ListChainShape(chain[1..]);
      ElementsConcatenate(head, rest);
    }
  }

  // ---------------------------------------------------------------------
  // Chain order
  // ---------------------------------------------------------------------

  lemma {:induction false} StatementToCodeAppend(a: seq<Block>, b: seq<Block>)
    ensures StatementToCode(a + b) == StatementToCode(a) + StatementToCode(b)
    decreases |a|
  {
    if a == [] {
      assert a + b == b;
    } else {
      assert (a + b)[0] == a[0];
      assert (a + b)[1..] == a[1..] + b;
      StatementToCodeAppend(a[1..], b);
    }
  }

  /** In the code of a chain, the blocks before position `i` come first,
      then the code of block `i`, then the blocks after it. */
  lemma ChainOrder(chain: seq<Block>, i: nat)
    requires i < |chain|
    ensures StatementToCode(chain) ==
      StatementToCode(chain[..i]) + Gen(chain[i]).code + StatementToCode(chain[i + 1..])
  {
    var before, tail := chain[..i], chain[i..];
    var head, rest := Gen(chain[i]).code, StatementToCode(chain[i + 1..]);
    assert StatementToCode(tail) == head + rest by {
      assert tail[0] == chain[i] && tail[1..] == chain[i + 1..];
    }
    assert chain == before + tail;
    StatementToCodeAppend(before, tail);
    Associative(StatementToCode(before), head, rest);
  }

  // Regrouping a concatenation is a fact the solver already knows; stating
  // it over plain strings only keeps the chain proof cheap.
  lemma Associative(a: string, b: string, c: string)
    ensures a + (b + c) == a + b + c
  {
  }

  // ---------------------------------------------------------------------
  // The guild branch
  // ---------------------------------------------------------------------

  /** The registration is guild-scoped exactly when the guild socket
      generates non-empty code, and global otherwise; either way the command
      chain sits inside the `set([...])` array. The guild code is exactly
      the argument of `get(...)`, and without it the command code is exactly
      the content of the array. */
  lemma GuildBranch(guild: Option<Block>, commands: seq<Block>)
    ensures var code := Gen(CreateContainer(guild, commands)).code;
      && (GuildPrefix <= code <==> ValueToCode(guild) != "")
      && (GlobalPrefix <= code <==> ValueToCode(guild) == "")
      && EndsWith(code, StatementToCode(commands) + "\n  ]);")
    ensures var g, c := ValueToCode(guild), StatementToCode(commands);
      var code := Gen(CreateContainer(guild, commands)).code;
      && (g != "" ==> Disclose(GuildPrefix, code, ").commands.set([\n    " + c + "\n  ]);") == Some(g))
      && (g == "" ==> Disclose(GlobalPrefix, code, "\n  ]);") == Some(c))
  {
    var g, c := ValueToCode(guild), StatementToCode(commands);
    var code := Gen(CreateContainer(guild, commands)).code;
    if g != "" {
      assert code == (GuildPrefix + g + ").commands.set([\n    ") + (c + "\n  ]);");
    } else {
      assert code == GlobalPrefix + (c + "\n  ]);");
    }
    CreateContainerReadsBack(g, c);
  }

  /** The branch depends on the guild code, not on whether a block is bound:
      a bound block that generates no code registers globally. */
  lemma EmptyGuildCodeIsGlobal(o: Order, commands: seq<Block>)
    ensures Gen(CreateContainer(Some(Foreign(Expr("", o), true, false)), commands)) == Gen(CreateContainer(None, commands))
  {
  }

  /** The interaction handler wraps its body chain in one listener. */
  lemma ReceivedWrapsBody(event: seq<Block>)
    ensures var code := Gen(Received(event)).code;
      && "client.on(\"interactionCreate\", async (interaction) => {\n          " <= code
      && EndsWith(code, StatementToCode(event) + "\n      });")
  {
    var open := "client.on(\"interactionCreate\", async (interaction) => {\n          ";
    var code := Gen(Received(event)).code;
    assert code == open + (StatementToCode(event) + "\n      });");
  }

  // ---------------------------------------------------------------------
  // Reading the emitted tokens back
  // ---------------------------------------------------------------------

  /** The type entry of an option carries the selected token alone, and the
      label can be read back from it. */
  lemma OptionTypeRecoverable(l: AddOptionLabel, name: Option<Block>, dsc: Option<Block>,
                              required: Option<Block>, chain: seq<Block>)
    ensures TypeField(Gen(AddOption(l, name, dsc, required, chain)).code) == Some(AddOptionToken(l))
    ensures AddOptionLabelOf(TypeField(Gen(AddOption(l, name, dsc, required, chain)).code).value) == Some(l)
  {
    var t := AddOptionToken(l);
    NoCommaInNumeral(t);
    OptionTypeLayout(t, ValueToCode(name), ValueToCode(dsc), ValueToCode(required), StatementToCode(chain));
    AddOptionTokenRoundTrip(l);
  }

  lemma NoCommaInNumeral(t: string)
    requires IsNumeral(t)
    ensures ',' !in t
  {
    assert forall k | 0 <= k < |t| :: IsDigit(t[k]);
  }

  lemma NoParenInWord(t: string)
    requires IsCapitalisedWord(t)
    ensures '(' !in t
  {
    assert forall k | 0 <= k < |t| :: IsLetter(t[k]);
  }

  /** Subcommands and groups carry the type codes 1 and 2, which are no
      option token. */
  lemma SubcommandTypeCodes(name: Option<Block>, dsc: Option<Block>, chain: seq<Block>)
    ensures TypeField(Gen(AddSubcommand(name, dsc, chain)).code) == Some("1")
    ensures TypeField(Gen(AddSubcommandGroup(name, dsc, chain)).code) == Some("2")
    ensures AddOptionLabelOf("1") == None && AddOptionLabelOf("2") == None
  {
    SubcommandTypeLayout(ValueToCode(name), ValueToCode(dsc), StatementToCode(chain));
  }

  /** A get-option expression calls the accessor named by the selected
      token, and the label can be read back from the emitted code. */
  lemma AccessorRecoverable(l: Label, name: Option<Block>)
    ensures Gen(GetOption(l, name)).order == NONE
    ensures AccessorOf(Gen(GetOption(l, name)).code) == Some(GetOptionToken(l))
    ensures GetOptionLabelOf(AccessorOf(Gen(GetOption(l, name)).code).value) == Some(l)
    ensures Disclose(AccessorPrefix + GetOptionToken(l) + "(", Gen(GetOption(l, name)).code, ");")
      == Some(ValueToCode(name))
  {
    var t := GetOptionToken(l);
    NoParenInWord(t);
    assert Gen(GetOption(l, name)) == GetOptionCode(t, ValueToCode(name));
    AccessorLayout(t, ValueToCode(name));
    GetOptionTokenRoundTrip(l);
    GetOptionReadsBack(t, ValueToCode(name));
  }

  // ---------------------------------------------------------------------
  // Constant blocks and the statement/expression split
  // ---------------------------------------------------------------------

  /** The context blocks generate fixed code whatever surrounds them; the
      command-name block alone tags its code. The four others are declared
      with an output but return their code untagged. */
  lemma ConstantExpressionBlocks()
    ensures Gen(CommandServer) == Stmt("interaction.guild")
    ensures Gen(CommandChannel) == Stmt("interaction.channel")
    ensures Gen(InvokingMember) == Stmt("interaction.member")
    ensures Gen(InvokingUser) == Stmt("interaction.member.user")
    ensures Gen(CommandName) == Expr("interaction.commandName", NONE)
    ensures HasOutput(CommandServer) && HasOutput(CommandChannel) && HasOutput(InvokingMember)
      && HasOutput(InvokingUser) && HasOutput(CommandName)
  {
  }

  /** A block of this family with an output generates a tagged expression unless it is one
      of the four context blocks. */
  lemma OutputFragment(b: Block)
    requires HasOutput(b)
    ensures !b.Foreign? ==>
              Gen(b).Expr? || b.CommandServer? || b.CommandChannel? || b.InvokingMember? || b.InvokingUser?
  {
    if !b.Foreign? {
      assert b.CommandName? || b.GetOption? || b.CommandServer? || b.CommandChannel?
        || b.InvokingMember? || b.InvokingUser?;
    }
  }

  /** A block of this family that chains generates an untagged statement. */
  lemma ChainFragment(b: Block)
    requires Chainable(b)
    ensures !b.Foreign? ==> Gen(b).Stmt?
  {
    if !b.Foreign? {
      assert !b.CommandName? && !b.GetOption?;
    }
  }

  /** In a graph the editor accepts, a value socket holds a tagged
      expression or one of the four untagged context blocks, and a statement
      chain holds only untagged statements, as far as the children belong
      to this family. What a block of another family generates is that
      family's business. */
  lemma SocketFragments(input: Option<Block>, chain: seq<Block>)
    requires WellFormedInput(input) && WellFormedChain(chain)
    ensures input.Some? && !input.value.Foreign? ==>
              Gen(input.value).Expr? || input.value.CommandServer? || input.value.CommandChannel?
              || input.value.InvokingMember? || input.value.InvokingUser?
    ensures forall i :: 0 <= i < |chain| && !chain[i].Foreign? ==> Gen(chain[i]).Stmt?
  {
    if input.Some? {
      OutputFragment(input.value);
    }
    forall i | 0 <= i < |chain| && !chain[i].Foreign?
      ensures Gen(chain[i]).Stmt?
    {
      ChainFragment(chain[i]);
    }
  }

  /** A block of another family keeps the links it declares, whatever its
      generator returns: an output block that returns a bare string, like
      this family's context blocks, can fill a value socket, and a top block
      with neither link fits no socket. */
  lemma ForeignLinksAreDeclared(c: string, o: Order)
    ensures WellFormedInput(Some(Foreign(Stmt(c), true, false)))
    ensures !WellFormedChain([Foreign(Stmt(c), false, false)])
    ensures !WellFormedInput(Some(Foreign(Expr(c, o), false, false)))
  {
    assert [Foreign(Stmt(c), false, false)][0] == Foreign(Stmt(c), false, false);
  }
}
