/** The program text the editor displays: a fixed preamble that loads the
    libraries, builds the bot client and registers a `ready` handler that
    reports the login, then the code generated for the workspace. */
module WorkspaceProgram {
  import opened Wrappers
  import opened Enclosing

  const Preamble: string :=
    "const Discord = require(\"discord.js\");\n"
    + "      const moment = require(\"moment\");\n"
    + "      const gamecord = require(\"discord-gamecord\");\n"
    + "      const client = new Discord.Client({ intents: 3276799 });\n"
    + "\n"
    + "      client.setMaxListeners(0);\n"
    + "\n"
    + "      client.on(\"ready\", () => {\n"
    + "      console.log(client.user.username + \" is logged in\");\n"
    + "      });\n"
    + "\n"
    + "      "

  const Postamble: string := "\n      "

  /** The displayed program for the generated workspace code `body`. */
  function Program(body: string): (js: string)
    ensures Preamble <= js
  {
    Enclose(Preamble, body, Postamble)
  }

  /** Recovers the workspace code from a displayed program, if it is one. */
  function BodyOf(js: string): Option<string>
  {
    Disclose(Preamble, js, Postamble)
  }

  /** The body is recovered from the program built around it, and every text
      the reader accepts is the program built around what it returns. */
  lemma ProgramRoundTrip(body: string, js: string)
    ensures BodyOf(Program(body)) == Some(body)
    ensures BodyOf(js) == Some(body) ==> Program(body) == js
  {
    EncloseRoundTrip(Preamble, body, Postamble, js);
  }
}
