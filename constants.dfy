/** The bot's fixed names: the sign prefixes and the allow-list of command names. */
module Constants {
  import opened Text

  const PLUS_SIGN: string := "+"
  const MINUS_SIGN: string := "-"

  /** The commands the registrar must find in the commands module, in this order. */
  const ALLOWED_COMMANDS: seq<string> := ["help", "income", "expense", "balance", "report", "start", "delete", "update"]

  /** The import path of the module holding the command handlers. */
  const COMMANDS_MODULE: string := "botapp.commands"

  /** An update's second token is an amount, not the start of a note, when it begins with a sign. */
  predicate IsSigned(token: string) {
    StartsWith(token, PLUS_SIGN) || StartsWith(token, MINUS_SIGN)
  }
}
