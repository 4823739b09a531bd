# Slash-command code generation, modelled in Dafny

This project models the slash-command block family of a visual Discord-bot
editor. Each block kind declares value sockets, statement sockets and
whether it has an output. Each kind also has a code template that turns the
code of its bound children into one string of JavaScript for discord.js.
The command-name and get-option templates tag their string with a
precedence. Every other template returns it bare, including the four
context blocks (server, channel, member, user), which have an output. The
editor shows the generated code after a fixed preamble. The preamble loads
the libraries, builds the bot client, lifts its listener limit and registers
a `ready` handler that reports the login.

Files:

- `wrappers.dfy` holds `Option`.
- `fragments.dfy` holds what a block generator hands back: a tagged
  expression or a bare statement.
- `blocks.dfy` (`SlashBlocks`) holds:
  - the block graph, with one constructor per kind;
  - the two "type" dropdown tables;
  - the registry keys and the socket declarations of each kind;
  - the children and chains of a block, looked up by socket name;
  - well-formedness: only output blocks sit in value sockets, only
    chainable blocks in chains.
- `generator.dfy` (`SlashGenerator`) holds:
  - the two code-generator helpers;
  - every template, with the exact whitespace of the JavaScript template
    literals;
  - `Gen`, the dispatch from a block to its template.
- `enclose.dfy` (`Enclosing`) holds text written between a fixed prefix
  and suffix, and the reader that takes the body back out.
- `lines.dfy` and `layout.dfy` (`EntryLines`, `ObjectLayout`) hold an
  independent reference layout for the object literals the templates
  write: one `key: value` entry per line, with commas between entries. They
  also hold a reader that takes a token back out of emitted text.
- `shapes.dfy` (`TemplateShapes`) proves every template against that
  reference layout.
- `tokens.dfy` (`DropdownTables`) proves that the two dropdown tables are
  invertible and never agree.
- `properties.dfy` (`SlashProperties`) states the promises of the family
  against `Gen`:
  - the guild branch;
  - the permissions fallback;
  - the ignored `dm` socket, and socket reads by name;
  - the field order of each template;
  - the type codes;
  - the constant blocks;
  - array-element shape and chain order;
  - which kind of fragment can reach which socket.
- `workspace.dfy` (`WorkspaceProgram`) holds the displayed program:
  preamble, generated body, closing whitespace. The body can be read back
  from the program.

The code generator's two helpers live in the editor library. This model
defines them abstractly:

- A value socket yields the empty string when nothing is bound, and the
  child's code otherwise.
- A statement socket yields the code of its chain in order, with nothing in
  between.

Blocks of other families, such as text and boolean literals, are one
`Foreign` constructor. It carries the fragment that family's generator
returns, and the links that family's declaration gives the block: an
output, previous/next links, or neither. The links are independent of the
fragment, so a foreign output block may return a bare string, as this
family's context blocks do (`ForeignLinksAreDeclared`).

The guild branch tests the emitted guild text, as the code does with
`if (value_guild)`. The branch depends on the emitted guild code, not on
whether a block is bound, so a bound block whose code is empty registers
globally (`EmptyGuildCodeIsGlobal`).

## Model

| member | source | states |
|---|---|---|
| `SlashBlocks.AddOptionToken` | src/blocks/slash.js:62-72 | every "add option" label stores a non-empty decimal numeral (3, 11, 5, 7, 4, 9, 10, 8, 6) |
| `SlashBlocks.GetOptionToken` | src/blocks/slash.js:231-244 | every "get option" label stores a capitalised word of letters, the accessor suffix |
| `SlashBlocks.AddOptionLabelOf` | src/blocks/slash.js:62-72 | reading a token back gives a label that stores exactly that token, or nothing |
| `SlashBlocks.GetOptionLabelOf` | src/blocks/slash.js:231-244 | reading an accessor suffix back gives a label that stores exactly that suffix, or nothing |
| `SlashBlocks.KindId` | src/blocks/slash.js:4-256 | every kind is registered under a `slash_` key |
| `SlashBlocks.LookupKind` | src/blocks/slash.js:4-256 | looking a key up gives a kind registered under that key; unknown keys give nothing |
| `SlashBlocks.LookupFindsEveryKind` | src/blocks/slash.js:4-256 | every kind is found again under the key it is registered with |
| `SlashBlocks.Caption` | src/blocks/slash.js:231-244 | every dropdown caption is non-empty text that starts with a lower-case letter |
| `SlashBlocks.Selected` | src/blocks/slash.js:4-256 | exactly the add-option and get-option blocks carry a "type" dropdown selection |
| `SlashBlocks.Declaration` | src/blocks/slash.js:4-256 | no kind both has an output and sits in a chain; output kinds have no statement socket; socket names are distinct within a kind; only the interaction handler has neither link |
| `SlashBlocks.HasOutput` | src/blocks/slash.js:4-256 | in this family, exactly the command-name, get-option and four context blocks have an output |
| `SlashBlocks.Chainable` | src/blocks/slash.js:4-256 | in this family, a block sits in a chain iff it has no output and is not the interaction handler |
| `SlashBlocks.WellFormedBySockets` | src/blocks/slash.js:4-256 | a block is well formed iff every declared value socket holds a well-formed output block or nothing and every declared statement socket a well-formed chain |
| `SlashBlocks.ValueInput` | src/blocks/slash.js:316-321 | a child found under a socket name is bound to a value socket the kind declares under that name; other names find nothing |
| `SlashBlocks.StatementInput` | src/blocks/slash.js:286-287 | a non-empty chain found under a socket name sits in a statement socket the kind declares under that name |
| `SlashBlocks.ValueInputs` | src/blocks/slash.js:4-256 | a block has one value input per value socket its kind declares, and entry i is the child bound under the i-th declared name |
| `SlashBlocks.StatementInputs` | src/blocks/slash.js:4-256 | a block has one chain per statement socket its kind declares, and entry i is the chain under the i-th declared name |
| `SlashGenerator.ValueToCode` | src/blocks/slash.js:260 | an unbound value socket yields the empty string |
| `SlashGenerator.StatementToCode` | src/blocks/slash.js:287 | an empty chain yields the empty string |
| `SlashGenerator.JsOr` | src/blocks/slash.js:327 | JavaScript's `or` on the permissions code: that code when it is non-empty, else `[]` |
| `SlashGenerator.GetOptionReadsBack` | src/blocks/slash.js:258-264 | the option-name code reads back from between the parentheses of the get-option accessor call |
| `SlashGenerator.EditReplyReadsBack` | src/blocks/slash.js:266-273 | the content code reads back from between the edit call's opening and closing |
| `SlashGenerator.ReplyReadsBack` | src/blocks/slash.js:275-284 | after the content entry, the ephemeral code reads back from before the closing of the reply call |
| `SlashGenerator.ReceivedReadsBack` | src/blocks/slash.js:286-293 | the body chain's code reads back from inside the `interactionCreate` listener |
| `SlashGenerator.CreateContainerCode` | src/blocks/slash.js:299-313 | exactly one of the two guarded assignments runs; the guild prefix is emitted iff the guild code is non-empty and the global prefix iff it is empty |
| `SlashGenerator.CreateContainerReadsBack` | src/blocks/slash.js:304-311 | the guild code reads back as the argument of `get(...)`; in the global form the command code reads back as the content of `set([...])` |
| `SlashGenerator.Gen` | src/blocks/slash.js:258-419 | only the command-name and get-option templates (and foreign expressions) return a tagged expression, and their tag is `Order.NONE` |
| `TemplateShapes.CreateLayout` | src/blocks/slash.js:316-332 | the command template is the object literal name, description, nsfw, defaultMemberPermissions (`[]` when empty), options, followed by a comma |
| `TemplateShapes.AddOptionLayout` | src/blocks/slash.js:334-349 | the option template is the object literal type, name, description, required, choices, followed by a comma |
| `TemplateShapes.AddChoiceLayout` | src/blocks/slash.js:351-360 | the choice template is the object literal name, value, followed by a comma |
| `TemplateShapes.SubcommandLayout` | src/blocks/slash.js:382-414 | the subcommand and group templates are the object literals type 1 or 2, name, description, options, followed by a comma |
| `TemplateShapes.ReplyLayout` | src/blocks/slash.js:266-284 | reply passes the object content, ephemeral; edit passes content alone with a trailing comma |
| `TemplateShapes.OptionTypeLayout` | src/blocks/slash.js:341-342 | the type entry of the option template holds the token alone, whatever the other entries hold |
| `TemplateShapes.SubcommandTypeLayout` | src/blocks/slash.js:390-391 | the type entries of the subcommand and group templates read back as 1 and 2 |
| `TemplateShapes.AccessorLayout` | src/blocks/slash.js:262 | the get-option template names the token alone between `interaction.options.get` and the argument list |
| `DropdownTables.AddOptionTokenRoundTrip` | src/blocks/slash.js:62-72 | every "add option" token reads back to its label |
| `DropdownTables.GetOptionTokenRoundTrip` | src/blocks/slash.js:231-244 | every "get option" token reads back to its label |
| `DropdownTables.TokenTablesInvertible` | src/blocks/slash.js:62-72 | within each table, tokens are pairwise distinct and read back to their label |
| `DropdownTables.TokensDivergePerKind` | src/blocks/slash.js:231-244 | the same label gives different tokens in the two tables, and neither table emits the label's caption (text gives 3 and String) |
| `SlashProperties.CreateFieldOrder` | src/blocks/slash.js:316-332 | a command entry lists name, description, nsfw, permissions, options in that order, although options are read before nsfw; permissions fall back to `[]` |
| `SlashProperties.DmIgnored` | src/blocks/slash.js:37-39 | `dm` is a declared socket, and nothing bound to it changes the generated code |
| `SlashProperties.GenReadsSocketsByName` | src/blocks/slash.js:258-419 | two blocks of one kind with the same dropdown selection, the same chains under every socket name and the same children under every name except `dm` generate the same code |
| `SlashProperties.AddOptionFieldOrder` | src/blocks/slash.js:334-349 | an option entry starts with its selected type token, then name, description, required and the choices array |
| `SlashProperties.AddChoiceFieldOrder` | src/blocks/slash.js:351-360 | a choice entry is its name then its value |
| `SlashProperties.SubcommandFieldOrder` | src/blocks/slash.js:382-414 | a subcommand entry has type 1 and a group entry type 2, each wrapping its chain in `options: [...]` |
| `SlashProperties.ReplyFieldOrder` | src/blocks/slash.js:266-284 | a reply embeds the content before the ephemeral flag; an edit embeds the content alone |
| `SlashProperties.ListElementShape` | src/blocks/slash.js:323-412 | the code of every list-element block opens with `{` and ends with `},` |
| `SlashProperties.ListChainShape` | src/blocks/slash.js:328 | a non-empty chain of list elements opens with `{` and ends with `},`, so its elements read as comma-separated array entries |
| `SlashProperties.StatementToCodeAppend` | src/blocks/slash.js:300 | the code of two chains joined is the code of the first followed by the code of the second |
| `SlashProperties.ChainOrder` | src/blocks/slash.js:319 | in the code of a chain, the blocks before position i come first, then block i, then the blocks after it |
| `SlashProperties.GuildBranch` | src/blocks/slash.js:304-311 | the registration is guild-scoped iff the guild code is non-empty and global iff it is empty; either way it ends with the command chain inside `set([...]);`; the guild code is exactly the argument of `get(...)`, and without it the command code is exactly the array content |
| `SlashProperties.EmptyGuildCodeIsGlobal` | src/blocks/slash.js:304 | a bound guild block whose code is empty gives the same registration as an unbound socket |
| `SlashProperties.ReceivedWrapsBody` | src/blocks/slash.js:286-293 | the handler opens the `interactionCreate` listener and ends with the body chain and the closing `});` |
| `SlashProperties.OptionTypeRecoverable` | src/blocks/slash.js:334-342 | the type entry of an option holds its token, and the label reads back from the emitted code |
| `SlashProperties.SubcommandTypeCodes` | src/blocks/slash.js:390-408 | subcommands carry type 1 and groups type 2, neither of which is an option token |
| `SlashProperties.AccessorRecoverable` | src/blocks/slash.js:258-264 | a get-option expression is tagged `Order.NONE`, calls the accessor named by its token, the label reads back from the code, and the option-name code reads back from the call's parentheses |
| `SlashProperties.ConstantExpressionBlocks` | src/blocks/slash.js:362-380 | server, channel, member and user give their fixed untagged strings, command name gives `interaction.commandName` tagged `Order.NONE`, and all five are declared with an output |
| `SlashProperties.OutputFragment` | src/blocks/slash.js:153-195 | a block of this family with an output generates a tagged expression unless it is one of the four context blocks |
| `SlashProperties.ChainFragment` | src/blocks/slash.js:4-256 | a block of this family that can sit in a chain generates an untagged statement |
| `SlashProperties.SocketFragments` | src/blocks/slash.js:4-256 | in a well-formed graph, the children of this family in value sockets are tagged expressions or context blocks, and those in chains are statements |
| `SlashProperties.ForeignLinksAreDeclared` | src/blocks/slash.js:362-380 | a block of another family connects by its declared links, not by its fragment: an output block returning a bare string fills a value socket, and a block with neither link fits no socket |
| `Enclosing.Enclose` | src/Workspace.js:91-103 | the enclosed text starts with the prefix and holds the body right after it |
| `Enclosing.DiscloseEnclosed` | src/Workspace.js:91-103 | reading an enclosed text back gives the body |
| `Enclosing.EncloseDisclosed` | src/Workspace.js:91-103 | a text that reads back to a body is that body enclosed |
| `Enclosing.EncloseRoundTrip` | src/Workspace.js:91-103 | enclosing and reading back are inverse in both directions |
| `WorkspaceProgram.Program` | src/Workspace.js:91-103 | the displayed program starts with the fixed preamble |
| `WorkspaceProgram.ProgramRoundTrip` | src/Workspace.js:91-103 | the generated body reads back from the displayed program, and every program that reads back to a body is built around it |

## Left out

- Parenthesisation by precedence. The value-socket helper returns the child's code unchanged. Every template asks for `Order.ATOMIC`, and wrapping is decided inside the editor library, which is not part of this model.
- Indentation of statement chains. The statement-socket helper concatenates the chain's code without the indentation the editor library adds.
- How the editor library treats an untagged string returned for a value socket (the four context blocks). The model keeps the fragment the template returns and states which sockets it can reach.
- The visual metadata of the block declarations (colours, tooltips, help URLs, captions on sockets, inline layout). It does not affect generated code. Only the socket names, the output and chain links, and the two dropdown tables are modelled.
- Registration as a side effect into global tables. The registry is the closed `Kind` datatype, and `LookupKind` answers `None` for a key the family does not declare. Blocks of other families are `Foreign` blocks carrying a fragment and their declared links; their generators are not part of this model, so nothing is promised about the fragment a foreign block returns.
- The joining of workspace roots by the editor library. `Program` takes the already generated body.
- The rest of src/Workspace.js: editor injection and plugins, autosave, file save and load, dialogs, serialization, and writing to the page. These are UI and I/O.
- Socket type checks (`String`, `Boolean`, `permission`). The editor refuses connections whose checks do not match. The generator does not re-check them, and the model does not record them, so `WellFormed` accepts some graphs the editor refuses.
