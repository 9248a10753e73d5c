/** The record types of src/types/index.ts. They carry no behaviour. */
module Types {
  import opened Wrappers

  datatype BotConfig = BotConfig(name: string, prefix: string, autoReconnect: bool)

  datatype NvidiaConfig = NvidiaConfig(apiKey: string, apiUrl: string, model: string)

  /** A message as the bot reports it to listeners. `timestamp` is in
      milliseconds; `kind` is the message's `type`. */
  datatype MessageData = MessageData(
    id: string, from: string, to: string, body: string,
    timestamp: int, isFromMe: bool, kind: string)

  /** A chat command: its keyword, a description and the reply it computes. */
  datatype CommandHandler = CommandHandler(
    name: string, description: string,
    execute: (MessageData, seq<string>) -> string)

  datatype SessionStatus = Loading | Qr | Authenticated | Ready | Disconnected

  datatype BotStatus = BotStatus(isConnected: bool, qrCode: Option<string>, sessionStatus: SessionStatus)
}
