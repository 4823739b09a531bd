/** The templates of the slash-command family against the reference
    layout: each list-element template writes one object literal with its
    entries in a fixed order, and the leading token of the option and
    accessor templates can be read back from the text. */
module TemplateShapes {
  import opened Wrappers
  import opened EntryLines
  import opened ObjectLayout
  import opened SlashGenerator

  /** The command template: name, description, nsfw, the permissions and
      the options, with `[]` standing in for empty permissions code. */
  lemma CreateLayout(n: string, d: string, o: string, ns: string, p: string)
    ensures CreateCode(n, d, o, ns, p) ==
      ObjectLiteral("      ", "    ", [Field("name", n), Field("description", d), Field("nsfw", ns),
        Field("defaultMemberPermissions", if p == "" then "[]" else p), Field("options", "[" + o + "]")], false) + ","
  {
    var pv := if p == "" then "[]" else p;
    assert JsOr(p, "[]") == pv;
    FiveFields("      ", "    ", "name", n, "description", d, "nsfw", ns, "defaultMemberPermissions", pv, "options", o);
    CommandKeysHead();
    CommandKeysPermissions();
    CommandKeysTail();
  }

  /** The option template: type, name, description, required, choices. */
  lemma AddOptionLayout(t: string, n: string, d: string, r: string, c: string)
    ensures AddOptionCode(t, n, d, r, c) ==
      ObjectLiteral("    ", "  ", [Field("type", t), Field("name", n), Field("description", d),
        Field("required", r), Field("choices", "[" + c + "]")], false) + ","
  {
    FiveFields("    ", "  ", "type", t, "name", n, "description", d, "required", r, "choices", c);
    OptionKeysHead();
    OptionKeysTail();
  }

  /** The choice template: name then value. */
  lemma AddChoiceLayout(n: string, v: string)
    ensures AddChoiceCode(n, v) ==
      ObjectLiteral("    ", "  ", [Field("name", n), Field("value", v)], false) + ","
  {
    TwoFields("    ", "  ", "name", n, "value", v);
    ChoiceKeys();
    var head := ("{" + Line("    ", "name")) + n + ("," + Line("    ", "value")) + v;
    assert head + ("\n" + "  " + "}") + "," == head + ("\n  }" + ",");
    assert "\n  }" + "," == "\n  },";
  }

  /** The subcommand and group templates: type code 1 or 2, name,
      description, and the nested chain in `options`. */
  lemma SubcommandLayout(n: string, d: string, o: string)
    ensures AddSubcommandCode(n, d, o) ==
      ObjectLiteral("    ", "  ", [Field("type", "1"), Field("name", n), Field("description", d),
        Field("options", "[" + o + "]")], false) + ","
    ensures AddSubcommandGroupCode(n, d, o) ==
      ObjectLiteral("    ", "  ", [Field("type", "2"), Field("name", n), Field("description", d),
        Field("options", "[" + o + "]")], false) + ","
  {
    FourFields("    ", "  ", "type", "1", "name", n, "description", d, "options", o);
    FourFields("    ", "  ", "type", "2", "name", n, "description", d, "options", o);
    OptionKeysHead();
    OptionKeysTail();
    TypeCodeKeys();
  }

  /** The reply templates: content before ephemeral; an edit carries the
      content alone, followed by a comma. */
  lemma ReplyLayout(c: string, e: string)
    ensures ReplyCode(c, e) ==
      "interaction.reply(" + ObjectLiteral("    ", "  ", [Field("content", c), Field("ephemeral", e)], false) + ");"
    ensures EditReplyCode(c) ==
      "interaction.editReply(" + ObjectLiteral("    ", "  ", [Field("content", c)], true) + ");"
  {
    TwoFields("    ", "  ", "content", c, "ephemeral", e);
    OneFieldTrailing("    ", "  ", "content", c);
    ReplyKeys();
    ReplyOpenings();
    var o1, o2, o3 := "{" + Line("    ", "content"), "," + Line("    ", "ephemeral"), "\n" + "  " + "}";
    Regroup4("interaction.reply(", o1, c, o2, e, o3, ");");
    Regroup2("interaction.editReply(", o1, c, "," + "\n" + "  " + "}", ");");
  }

  const TypeEntry := "{\n    type: "

  /** The type token of a list element that opens with a `type` entry. */
  function TypeField(code: string): Option<string>
  {
    FieldAfter(TypeEntry, ',', code)
  }

  /** The accessor suffix of an `interaction.options.get…(…)` call. */
  function AccessorOf(code: string): Option<string>
  {
    FieldAfter(AccessorPrefix, '(', code)
  }

  lemma PrefixOfPieces(a: string, t: string, c: string, l: string, rest: string)
    ensures a + t + c <= a + t + (c + l) + rest
  {
    assert a + t + (c + l) == (a + t + c) + l;
    PrefixOfAppend(a + t + c, a + t + c + l, rest);
  }

  /** The type entry of an option template holds the token alone. */
  lemma OptionTypeLayout(t: string, n: string, d: string, r: string, c: string)
    requires ',' !in t
    ensures TypeField(AddOptionCode(t, n, d, r, c)) == Some(t)
  {
    TypeCodeKeys();
    var rest := n + ",\n    description: " + d + ",\n    required: " + r + ",\n    choices: [" + c + "]\n  },";
    assert AddOptionCode(t, n, d, r, c) == TypeEntry + t + ("," + "\n    name: ") + rest;
    PrefixOfPieces(TypeEntry, t, ",", "\n    name: ", rest);
    FieldAfterAt(TypeEntry, t, ',', AddOptionCode(t, n, d, r, c));
  }

  /** The type entries of the subcommand and group templates hold 1 and 2. */
  lemma SubcommandTypeLayout(n: string, d: string, o: string)
    ensures TypeField(AddSubcommandCode(n, d, o)) == Some("1")
    ensures TypeField(AddSubcommandGroupCode(n, d, o)) == Some("2")
  {
    TypeCodeKeys();
    var rest := n + ",\n    description: " + d + ",\n    options: [" + o + "]\n  },";
    assert AddSubcommandCode(n, d, o) == TypeEntry + "1" + ("," + "\n    name: ") + rest;
    assert AddSubcommandGroupCode(n, d, o) == TypeEntry + "2" + ("," + "\n    name: ") + rest;
    PrefixOfPieces(TypeEntry, "1", ",", "\n    name: ", rest);
    PrefixOfPieces(TypeEntry, "2", ",", "\n    name: ", rest);
    FieldAfterAt(TypeEntry, "1", ',', AddSubcommandCode(n, d, o));
    FieldAfterAt(TypeEntry, "2", ',', AddSubcommandGroupCode(n, d, o));
  }

  /** The accessor template names the token alone before its argument list. */
  lemma AccessorLayout(t: string, n: string)
    requires '(' !in t
    ensures AccessorOf(GetOptionCode(t, n).code) == Some(t)
  {
    var code := GetOptionCode(t, n).code;
    PrefixOfAppend(AccessorPrefix + t + "(", AccessorPrefix + t + "(" + n, ");");
    FieldAfterAt(AccessorPrefix, t, '(', code);
  }
}
