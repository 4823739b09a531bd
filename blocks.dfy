/** The block declarations of the slash-command family: the two "type"
    dropdown tables, the block graph, and the sockets, output and chain links
    each block kind declares. */
module SlashBlocks {
  import opened Wrappers
  import opened Fragments

  /** The labels shown in the two "type" dropdowns. */
  datatype Label =
    | Text | Attachment | TrueFalse | Channel | Integer | Mentionable
    | Number | Role | User | Member | Subcommand | SubcommandGroup

  /** The text the editor shows for a label: a lower-case word. */
  function Caption(l: Label): (c: string)
    ensures c != [] && 'a' <= c[0] <= 'z'
  {
    match l
    case Text => "text"
    case Attachment => "attachment"
    case TrueFalse => "true/false"
    case Channel => "channel"
    case Integer => "integer"
    case Mentionable => "mentionable"
    case Number => "number"
    case Role => "role"
    case User => "user"
    case Member => "member"
    case Subcommand => "subcommand"
    case SubcommandGroup => "subcommand group"
  }

  /** The "add option" dropdown offers the first nine labels only. */
  predicate InAddOptionMenu(l: Label)
  {
    !(l.Member? || l.Subcommand? || l.SubcommandGroup?)
  }

  type AddOptionLabel = l: Label | InAddOptionMenu(l) witness Text

  predicate IsDigit(c: char) { '0' <= c <= '9' }

  predicate IsLetter(c: char) { 'A' <= c <= 'Z' || 'a' <= c <= 'z' }

  /** A non-empty decimal numeral. */
  predicate IsNumeral(s: string)
  {
    |s| > 0 && forall i :: 0 <= i < |s| ==> IsDigit(s[i])
  }

  /** A non-empty word of letters starting with a capital, as a method-name suffix. */
  predicate IsCapitalisedWord(s: string)
  {
    |s| > 0 && 'A' <= s[0] <= 'Z' && forall i :: 0 <= i < |s| ==> IsLetter(s[i])
  }

  /** The value the "add option" dropdown stores for a label: the platform's
      numeric option-type code. */
  function AddOptionToken(l: AddOptionLabel): (t: string)
    ensures IsNumeral(t)
  {
    match l
    case Text => "3"
    case Attachment => "11"
    case TrueFalse => "5"
    case Channel => "7"
    case Integer => "4"
    case Mentionable => "9"
    case Number => "10"
    case Role => "8"
    case User => "6"
  }

  /** The value the "get option" dropdown stores for a label: the suffix of an
      accessor method name `interaction.options.get<token>`. */
  function GetOptionToken(l: Label): (t: string)
    ensures IsCapitalisedWord(t)
  {
    match l
    case Text => "String"
    case Attachment => "Attachment"
    case TrueFalse => "Boolean"
    case Channel => "Channel"
    case Integer => "Integer"
    case Mentionable => "Mentionable"
    case Number => "Number"
    case Role => "Role"
    case User => "User"
    case Member => "Member"
    case Subcommand => "Subcommand"
    case SubcommandGroup => "SubcommandGroup"
  }

  /** Reads an "add option" token back to the label that stores it. */
  function AddOptionLabelOf(t: string): (l: Option<AddOptionLabel>)
    ensures l.Some? ==> AddOptionToken(l.value) == t
  {
    match t
    case "3" => Some(Text)
    case "11" => Some(Attachment)
    case "5" => Some(TrueFalse)
    case "7" => Some(Channel)
    case "4" => Some(Integer)
    case "9" => Some(Mentionable)
    case "10" => Some(Number)
    case "8" => Some(Role)
    case "6" => Some(User)
    case _ => None
  }

  /** Reads a "get option" token back to the label that stores it. */
  function GetOptionLabelOf(t: string): (l: Option<Label>)
    ensures l.Some? ==> GetOptionToken(l.value) == t
  {
    match t
    case "String" => Some(Text)
    case "Attachment" => Some(Attachment)
    case "Boolean" => Some(TrueFalse)
    case "Channel" => Some(Channel)
    case "Integer" => Some(Integer)
    case "Mentionable" => Some(Mentionable)
    case "Number" => Some(Number)
    case "Role" => Some(Role)
    case "User" => Some(User)
    case "Member" => Some(Member)
    case "Subcommand" => Some(Subcommand)
    case "SubcommandGroup" => Some(SubcommandGroup)
    case _ => None
  }

  /** A block instance of the slash-command family. Value sockets hold an
      optional child block, statement sockets a chain of blocks, the
      dropdowns the selected label. `Foreign` stands for a block of another
      family (a text literal, a boolean, ...) whose generator is not part of
      this model; it carries the fragment that generator returns and the
      links its own declaration gives it: an output, previous/next links
      for a chain, or neither. */
  datatype Block =
    | Received(event: seq<Block>)
    | CreateContainer(guild: Option<Block>, commands: seq<Block>)
    | Create(name: Option<Block>, dsc: Option<Block>, nsfw: Option<Block>,
             dm: Option<Block>, perms: Option<Block>, options: seq<Block>)
    | AddOption(addType: AddOptionLabel, name: Option<Block>, dsc: Option<Block>,
                required: Option<Block>, choices: seq<Block>)
    | AddChoice(name: Option<Block>, value: Option<Block>)
    | AddSubcommandGroup(name: Option<Block>, dsc: Option<Block>, subcommands: seq<Block>)
    | CommandName
    | AddSubcommand(name: Option<Block>, dsc: Option<Block>, options: seq<Block>)
    | InvokingMember
    | InvokingUser
    | CommandChannel
    | CommandServer
    | Reply(content: Option<Block>, ephemeral: Option<Block>)
    | EditReply(content: Option<Block>)
    | GetOption(getType: Label, name: Option<Block>)
    | Foreign(fragment: Fragment, hasOutput: bool, chainable: bool)

  /** The block kinds of the family. */
  datatype Kind =
    | KReceived | KCreateContainer | KCreate | KAddOption | KAddChoice
    | KAddSubcommandGroup | KName | KAddSubcommand | KMember | KUser
    | KChannel | KServer | KReply | KEditReply | KGetOption

  /** The kind of a block of this family. */
  function KindOf(b: Block): Kind
    requires !b.Foreign?
  {
    match b
    case Received(_) => KReceived
    case CreateContainer(_, _) => KCreateContainer
    case Create(_, _, _, _, _, _) => KCreate
    case AddOption(_, _, _, _, _) => KAddOption
    case AddChoice(_, _) => KAddChoice
    case AddSubcommandGroup(_, _, _) => KAddSubcommandGroup
    case CommandName => KName
    case AddSubcommand(_, _, _) => KAddSubcommand
    case InvokingMember => KMember
    case InvokingUser => KUser
    case CommandChannel => KChannel
    case CommandServer => KServer
    case Reply(_, _) => KReply
    case EditReply(_) => KEditReply
    case GetOption(_, _) => KGetOption
  }

  /** The registry key a kind is declared under. */
  function KindId(k: Kind): (id: string)
    ensures "slash_" <= id
  {
    match k
    case KReceived => "slash_received"
    case KCreateContainer => "slash_createcontainer"
    case KCreate => "slash_create"
    case KAddOption => "slash_addoption"
    case KAddChoice => "slash_addchoice"
    case KAddSubcommandGroup => "slash_addsubcommandgroup"
    case KName => "slash_name"
    case KAddSubcommand => "slash_addsubcommand"
    case KMember => "slash_member"
    case KUser => "slash_user"
    case KChannel => "slash_channel"
    case KServer => "slash_server"
    case KReply => "slash_reply"
    case KEditReply => "slash_editreply"
    case KGetOption => "slash_getoption"
  }

  /** Looks a registry key up; a key the family does not declare is `None`. */
  function LookupKind(id: string): (k: Option<Kind>)
    ensures k.Some? ==> KindId(k.value) == id
  {
    match id
    case "slash_received" => Some(KReceived)
    case "slash_createcontainer" => Some(KCreateContainer)
    case "slash_create" => Some(KCreate)
    case "slash_addoption" => Some(KAddOption)
    case "slash_addchoice" => Some(KAddChoice)
    case "slash_addsubcommandgroup" => Some(KAddSubcommandGroup)
    case "slash_name" => Some(KName)
    case "slash_addsubcommand" => Some(KAddSubcommand)
    case "slash_member" => Some(KMember)
    case "slash_user" => Some(KUser)
    case "slash_channel" => Some(KChannel)
    case "slash_server" => Some(KServer)
    case "slash_reply" => Some(KReply)
    case "slash_editreply" => Some(KEditReply)
    case "slash_getoption" => Some(KGetOption)
    case _ => None
  }

  /** Every kind can be found again under the key it is registered with. */
  lemma LookupFindsEveryKind(k: Kind)
    ensures LookupKind(KindId(k)) == Some(k)
  {
    match k
    case KReceived =>
    case KCreateContainer =>
    case KCreate =>
    case KAddOption =>
    case KAddChoice =>
    case KAddSubcommandGroup =>
    case KName =>
    case KAddSubcommand =>
    case KMember =>
    case KUser =>
    case KChannel =>
    case KServer =>
    case KReply =>
    case KEditReply =>
    case KGetOption =>
  }

  /** What a block kind declares about its shape: its value sockets and its
      statement sockets in declaration order, whether it has an output, and
      whether it has previous/next links (can sit in a chain). */
  datatype KindDecl = KindDecl(valueSockets: seq<string>, statementSockets: seq<string>,
                               hasOutput: bool, chainable: bool)

  /** The declaration of each kind. No kind both has an output and sits in
      a chain, an output block has no statement socket, socket names are
      distinct within a kind, and only the interaction handler is a top
      block with neither link. */
  function Declaration(k: Kind): (d: KindDecl)
    ensures !(d.hasOutput && d.chainable)
    ensures d.hasOutput ==> d.statementSockets == []
    ensures forall i, j :: 0 <= i < j < |d.valueSockets| ==> d.valueSockets[i] != d.valueSockets[j]
    ensures forall s :: s in d.valueSockets ==> s !in d.statementSockets
    ensures d.hasOutput || d.chainable <==> k != KReceived
  {
    match k
    case KReceived => KindDecl([], ["event"], false, false)
    case KCreateContainer => KindDecl(["guild"], ["commands"], false, true)
    case KCreate => KindDecl(["name", "dsc", "nsfw", "dm", "perms"], ["options"], false, true)
    case KAddOption => KindDecl(["name", "dsc", "required"], ["choices"], false, true)
    case KAddChoice => KindDecl(["name", "value"], [], false, true)
    case KAddSubcommandGroup => KindDecl(["name", "dsc"], ["subcommands"], false, true)
    case KName => KindDecl([], [], true, false)
    case KAddSubcommand => KindDecl(["name", "dsc"], ["options"], false, true)
    case KMember => KindDecl([], [], true, false)
    case KUser => KindDecl([], [], true, false)
    case KChannel => KindDecl([], [], true, false)
    case KServer => KindDecl([], [], true, false)
    case KReply => KindDecl(["content", "ephemeral"], [], false, true)
    case KEditReply => KindDecl(["content"], [], false, true)
    case KGetOption => KindDecl(["name"], [], true, false)
  }

  /** The block bound to the value socket of the given name; a name the
      kind does not declare has nothing bound to it. */
  function ValueInput(b: Block, socket: string): (child: Option<Block>)
    requires !b.Foreign?
    ensures child.Some? ==> socket in Declaration(KindOf(b)).valueSockets
  {
    match b
    case CreateContainer(guild, _) => if socket == "guild" then guild else None
    case Create(name, dsc, nsfw, dm, perms, _) =>
      if socket == "name" then name
      else if socket == "dsc" then dsc
      else if socket == "nsfw" then nsfw
      else if socket == "dm" then dm
      else if socket == "perms" then perms
      else None
    case AddOption(_, name, dsc, required, _) =>
      if socket == "name" then name
      else if socket == "dsc" then dsc
      else if socket == "required" then required
      else None
    case AddChoice(name, value) =>
      if socket == "name" then name else if socket == "value" then value else None
    case AddSubcommandGroup(name, dsc, _) =>
      if socket == "name" then name else if socket == "dsc" then dsc else None
    case AddSubcommand(name, dsc, _) =>
      if socket == "name" then name else if socket == "dsc" then dsc else None
    case Reply(content, ephemeral) =>
      if socket == "content" then content else if socket == "ephemeral" then ephemeral else None
    case EditReply(content) => if socket == "content" then content else None
    case GetOption(_, name) => if socket == "name" then name else None
    case _ => None
  }

  /** The chain in the statement socket of the given name; a name the kind
      does not declare holds the empty chain. */
  function StatementInput(b: Block, socket: string): (chain: seq<Block>)
    requires !b.Foreign?
    ensures chain != [] ==> socket in Declaration(KindOf(b)).statementSockets
  {
    match b
    case Received(event) => if socket == "event" then event else []
    case CreateContainer(_, commands) => if socket == "commands" then commands else []
    case Create(_, _, _, _, _, options) => if socket == "options" then options else []
    case AddOption(_, _, _, _, choices) => if socket == "choices" then choices else []
    case AddSubcommandGroup(_, _, subcommands) => if socket == "subcommands" then subcommands else []
    case AddSubcommand(_, _, options) => if socket == "options" then options else []
    case _ => []
  }

  /** The label selected in a block's "type" dropdown, if it has one. */
  function Selected(b: Block): (l: Option<Label>)
    ensures l.Some? <==> b.AddOption? || b.GetOption?
  {
    match b
    case AddOption(addType, _, _, _, _) => Some(addType)
    case GetOption(getType, _) => Some(getType)
    case _ => None
  }

  /** The bound value sockets of a block, in the order its kind declares
      them: entry `i` is what is bound under the `i`-th declared name. */
  function ValueInputs(b: Block): (inputs: seq<Option<Block>>)
    requires !b.Foreign?
    ensures |inputs| == |Declaration(KindOf(b)).valueSockets|
    ensures forall i :: 0 <= i < |inputs| ==> inputs[i] == ValueInput(b, Declaration(KindOf(b)).valueSockets[i])
  {
    match b
    case Received(_) => []
    case CreateContainer(guild, _) => [guild]
    case Create(name, dsc, nsfw, dm, perms, _) => [name, dsc, nsfw, dm, perms]
    case AddOption(_, name, dsc, required, _) => [name, dsc, required]
    case AddChoice(name, value) => [name, value]
    case AddSubcommandGroup(name, dsc, _) => [name, dsc]
    case CommandName => []
    case AddSubcommand(name, dsc, _) => [name, dsc]
    case InvokingMember => []
    case InvokingUser => []
    case CommandChannel => []
    case CommandServer => []
    case Reply(content, ephemeral) => [content, ephemeral]
    case EditReply(content) => [content]
    case GetOption(_, name) => [name]
  }

  /** The chains in the statement sockets of a block, in the order its kind
      declares them: entry `i` is the chain under the `i`-th declared name. */
  function StatementInputs(b: Block): (chains: seq<seq<Block>>)
    requires !b.Foreign?
    ensures |chains| == |Declaration(KindOf(b)).statementSockets|
    ensures forall i :: 0 <= i < |chains| ==> chains[i] == StatementInput(b, Declaration(KindOf(b)).statementSockets[i])
  {
    match b
    case Received(event) => [event]
    case CreateContainer(_, commands) => [commands]
    case Create(_, _, _, _, _, options) => [options]
    case AddOption(_, _, _, _, choices) => [choices]
    case AddSubcommandGroup(_, _, subcommands) => [subcommands]
    case AddSubcommand(_, _, options) => [options]
    case _ => []
  }

  /** Whether a block can be plugged into a value socket: in this family,
      the command name, the get-option block and the four context blocks. */
  predicate HasOutput(b: Block)
    ensures !b.Foreign? ==>
              (HasOutput(b) <==>
                 b.CommandName? || b.GetOption? || b.InvokingMember? || b.InvokingUser?
                 || b.CommandChannel? || b.CommandServer?)
  {
    if b.Foreign? then b.hasOutput else Declaration(KindOf(b)).hasOutput
  }

  /** Whether a block can sit in a statement chain: in this family, every
      block without an output except the interaction handler. */
  predicate Chainable(b: Block)
    ensures !b.Foreign? ==> (Chainable(b) <==> !b.Received? && !HasOutput(b))
  {
    if b.Foreign? then b.chainable else Declaration(KindOf(b)).chainable
  }

  /** The connection rules the editor enforces: only blocks with an output
      sit in value sockets and only chainable blocks sit in statement
      sockets, all the way down. The editor's type checks on sockets are not
      recorded, so this accepts some graphs the editor refuses. The
      generator does not rely on it. */
  predicate WellFormed(b: Block)
    decreases b
  {
    match b
    case Received(event) => WellFormedChain(event)
    case CreateContainer(guild, commands) => WellFormedInput(guild) && WellFormedChain(commands)
    case Create(name, dsc, nsfw, dm, perms, options) =>
      && WellFormedInput(name) && WellFormedInput(dsc) && WellFormedInput(nsfw)
      && WellFormedInput(dm) && WellFormedInput(perms) && WellFormedChain(options)
    case AddOption(_, name, dsc, required, choices) =>
      WellFormedInput(name) && WellFormedInput(dsc) && WellFormedInput(required) && WellFormedChain(choices)
    case AddChoice(name, value) => WellFormedInput(name) && WellFormedInput(value)
    case AddSubcommandGroup(name, dsc, subcommands) =>
      WellFormedInput(name) && WellFormedInput(dsc) && WellFormedChain(subcommands)
    case AddSubcommand(name, dsc, options) =>
      WellFormedInput(name) && WellFormedInput(dsc) && WellFormedChain(options)
    case Reply(content, ephemeral) => WellFormedInput(content) && WellFormedInput(ephemeral)
    case EditReply(content) => WellFormedInput(content)
    case GetOption(_, name) => WellFormedInput(name)
    case _ => true
  }

  predicate WellFormedInput(input: Option<Block>)
    decreases input
  {
    match input
    case None => true
    case Some(c) => HasOutput(c) && WellFormed(c)
  }

  predicate WellFormedChain(chain: seq<Block>)
    decreases chain
  {
    forall i :: 0 <= i < |chain| ==> Chainable(chain[i]) && WellFormed(chain[i])
  }

  /** Well-formedness, read through the declared sockets: every bound value
      socket holds a well-formed output block and every statement socket a
      well-formed chain. */
  lemma WellFormedBySockets(b: Block)
    requires !b.Foreign?
    ensures WellFormed(b) <==>
              && (forall i :: 0 <= i < |ValueInputs(b)| ==> WellFormedInput(ValueInputs(b)[i]))
              && (forall i :: 0 <= i < |StatementInputs(b)| ==> WellFormedChain(StatementInputs(b)[i]))
  {
    match b
    case Received(event) =>
      assert StatementInputs(b)[0] == event;
    case CreateContainer(guild, commands) =>
      assert ValueInputs(b)[0] == guild && StatementInputs(b)[0] == commands;
    case Create(name, dsc, nsfw, dm, perms, options) =>
      CreateWellFormedBySockets(b);
    case AddOption(_, name, dsc, required, choices) =>
      assert ValueInputs(b)[0] == name && ValueInputs(b)[1] == dsc && ValueInputs(b)[2] == required;
      assert StatementInputs(b)[0] == choices;
    case AddChoice(name, value) =>
      assert ValueInputs(b)[0] == name && ValueInputs(b)[1] == value;
    case AddSubcommandGroup(name, dsc, subcommands) =>
      assert ValueInputs(b)[0] == name && ValueInputs(b)[1] == dsc;
      assert StatementInputs(b)[0] == subcommands;
    case AddSubcommand(name, dsc, options) =>
      assert ValueInputs(b)[0] == name && ValueInputs(b)[1] == dsc;
      assert StatementInputs(b)[0] == options;
    case Reply(content, ephemeral) =>
      assert ValueInputs(b)[0] == content && ValueInputs(b)[1] == ephemeral;
    case EditReply(content) =>
      assert ValueInputs(b)[0] == content;
    case GetOption(_, name) =>
      assert ValueInputs(b)[0] == name;
    case _ =>
  }

  lemma CreateWellFormedBySockets(b: Block)
    requires b.Create?
    ensures WellFormed(b) <==>
              && (forall i :: 0 <= i < |ValueInputs(b)| ==> WellFormedInput(ValueInputs(b)[i]))
              && (forall i :: 0 <= i < |StatementInputs(b)| ==> WellFormedChain(StatementInputs(b)[i]))
  {
    var vs := ValueInputs(b);
    assert vs[0] == b.name && vs[1] == b.dsc && vs[2] == b.nsfw && vs[3] == b.dm && vs[4] == b.perms;
    assert StatementInputs(b)[0] == b.options;
  }
}
