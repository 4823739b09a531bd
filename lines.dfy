/** The opening of one entry of an object literal, and the openings the
    command templates use, spelt out as the templates write them. */
module EntryLines {
  /** The start of one entry: a new line, the indentation, the key. */
  function Line(indent: string, key: string): string
  {
    "\n" + indent + key + ": "
  }

  // The entry openings of the templates, spelt out. These lemmas state no
  // property of the model: each only hands the solver one equality between
  // literal strings, kept small so that the layout proofs stay cheap.

  lemma CommandKeysHead()
    ensures "{" + Line("      ", "name") == "{\n      name: "
    ensures "," + Line("      ", "description") == ",\n      description: "
    ensures "," + Line("      ", "nsfw") == ",\n      nsfw: "
  {
  }

  lemma CommandKeysPermissions()
    ensures "," + Line("      ", "defaultMemberPermissions") == ",\n      defaultMemberPermissions: "
  {
    PermissionsKeySplit();
    PermissionsEntrySplit();
  }

  lemma PermissionsKeySplit()
    ensures "defaultMemberPermissions" + ": " == "defaultMemberPermissions: "
  {
  }

  lemma PermissionsEntrySplit()
    ensures "," + "\n" + "      " + "defaultMemberPermissions: " == ",\n      defaultMemberPermissions: "
  {
  }

  lemma CommandKeysTail()
    ensures "," + Line("      ", "options") + "[" == ",\n      options: ["
    ensures "]" + "\n" + "    " + "}," == "]\n    },"
  {
  }

  lemma OptionKeysHead()
    ensures "{" + Line("    ", "type") == "{\n    type: "
    ensures "," + Line("    ", "name") == ",\n    name: "
    ensures "," + Line("    ", "description") == ",\n    description: "
  {
  }

  lemma OptionKeysTail()
    ensures "," + Line("    ", "required") == ",\n    required: "
    ensures "," + Line("    ", "choices") + "[" == ",\n    choices: ["
    ensures "," + Line("    ", "options") + "[" == ",\n    options: ["
    ensures "]" + "\n" + "  " + "}," == "]\n  },"
  {
  }

  lemma ChoiceKeys()
    ensures "{" + Line("    ", "name") == "{\n    name: "
    ensures "," + Line("    ", "value") == ",\n    value: "
    ensures "\n" + "  " + "}" == "\n  }"
  {
  }

  lemma ReplyKeys()
    ensures "{" + Line("    ", "content") == "{\n    content: "
    ensures "," + Line("    ", "ephemeral") == ",\n    ephemeral: "
    ensures "\n" + "  " + "}" + ");" == "\n  });"
    ensures "," + "\n" + "  " + "}" + ");" == ",\n  });"
  {
  }

  lemma TypeCodeKeys()
    ensures "{\n    type: " + "1" + ",\n    name: " == "{\n    type: 1,\n    name: "
    ensures "{\n    type: " + "2" + ",\n    name: " == "{\n    type: 2,\n    name: "
    ensures ",\n    name: " == "," + "\n    name: "
  {
  }

  lemma ReplyOpenings()
    ensures "interaction.reply(" + "{\n    content: " == "interaction.reply({\n    content: "
    ensures "interaction.editReply(" + "{\n    content: " == "interaction.editReply({\n    content: "
  {
  }
}
