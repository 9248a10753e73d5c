/** The built-in chat commands of src/bot/commands.ts and the registry the
    bot builds from them. */
module Commands {
  import opened Text
  import opened Types

  const PingReply: string := "pong! 🏓"

  /** The help text. It names the commands with a hard-coded `!`, whatever
      prefix the bot is configured with. */
  const HelpText: string :=
    Concat([HelpTitle, HelpPing, HelpHelp, HelpInfo, HelpAi, HelpFooter])

  const HelpTitle: string := "🤖 *Comandos disponibles:*\n\n"
  const HelpPing: string := "!" + "ping" + " - Verificar que el bot está activo\n"
  const HelpHelp: string := "!" + "help" + " - Mostrar esta ayuda\n"
  const HelpInfo: string := "!" + "info" + " - Información del bot\n"
  const HelpAi: string := "!" + "ai" + " [mensaje] - Conversar con IA\n"
  const HelpFooter: string :=
    "\n*Uso de IA:* También puedes enviar cualquier mensaje sin comando y responderé usando inteligencia artificial."

  const InfoText: string :=
    "🤖 *WhatsApp AI Bot*\n\nVersión: 1.0.0\nDesarrollado con Node.js + TypeScript\nIntegración con NVIDIA AI\n\n✅ Estado: Activo\n🚀 Panel web disponible en http://localhost:3000"

  const AiUsage: string := "Por favor proporciona un mensaje para la IA. Ejemplo: !ai ¿Cómo estás?"

  /** `aiCommand.execute`: the arguments joined by single spaces, or the
      usage text when that join is empty. The join is empty exactly for no
      argument or one empty argument. */
  function AiExecute(args: seq<string>): (r: string)
    ensures r == (if args == [] || args == [""] then AiUsage else Join(args, " "))
  {
    JoinEmptyIff(args, " ");
    var prompt := Join(args, " ");
    if prompt == "" then AiUsage else prompt
  }

  const PingCommand: CommandHandler :=
    CommandHandler("ping", "Responde con pong para verificar que el bot está funcionando",
      (message, args) => PingReply)

  const HelpCommand: CommandHandler :=
    CommandHandler("help", "Muestra la lista de comandos disponibles",
      (message, args) => HelpText)

  const InfoCommand: CommandHandler :=
    CommandHandler("info", "Muestra información sobre el bot",
      (message, args) => InfoText)

  const AiCommand: CommandHandler :=
    CommandHandler("ai", "Conversar con la IA",
      (message, args) => AiExecute(args))

  /** `setupCommands`: each handler registered under its own name. */
  function Registry(): (m: map<string, CommandHandler>)
    ensures m.Keys == {PingCommand.name, HelpCommand.name, InfoCommand.name, AiCommand.name}
  {
    map[PingCommand.name := PingCommand][HelpCommand.name := HelpCommand]
       [InfoCommand.name := InfoCommand][AiCommand.name := AiCommand]
  }

  /** The four names are distinct, so no registration overwrites another:
      every registered name leads back to a handler of that name, and the
      registry holds the four keywords `ping`, `help`, `info` and `ai`. */
  lemma RegistryKeepsEveryHandler()
    ensures |Registry()| == 4
    ensures Registry().Keys == {"ping", "help", "info", "ai"}
    ensures forall n :: n in Registry() ==> Registry()[n].name == n
    ensures Registry()["ai"].execute == AiCommand.execute
    ensures Registry()["ping"].execute == PingCommand.execute
  {
    var keys := Registry().Keys;
    assert keys == {"ping", "help", "info", "ai"};
    assert |keys| == 4 by {
      assert keys == {"ping"} + {"help"} + {"info"} + {"ai"};
    }
  }

  /** `ping`, `help` and `info` ignore the message and the arguments. */
  lemma FixedRepliesIgnoreInputs(m1: MessageData, a1: seq<string>, m2: MessageData, a2: seq<string>)
    ensures PingCommand.execute(m1, a1) == PingCommand.execute(m2, a2) == "pong! 🏓"
    ensures HelpCommand.execute(m1, a1) == HelpCommand.execute(m2, a2) == HelpText
    ensures InfoCommand.execute(m1, a1) == InfoCommand.execute(m2, a2) == InfoText
  {
  }

  /** The help text mentions every registered command with the `!` prefix. */
  lemma HelpMentionsEveryCommand()
    ensures Contains(HelpText, "!" + "ping") && Contains(HelpText, "!" + "help")
    ensures Contains(HelpText, "!" + "info") && Contains(HelpText, "!" + "ai")
    ensures forall n :: n in Registry() ==> Contains(HelpText, "!" + n)
  {
    RegistryKeepsEveryHandler();
    var lines := [HelpTitle, HelpPing, HelpHelp, HelpInfo, HelpAi, HelpFooter];
    LineOccurs(lines, 1, "!" + "ping");
    LineOccurs(lines, 2, "!" + "help");
    LineOccurs(lines, 3, "!" + "info");
    LineOccurs(lines, 4, "!" + "ai");
  }
}
