/** The rows and messages the bot passes around (src/types/mod.rs), and the
    slash-command option tree the chat client delivers. */
module Types {
  import opened Wrappers

  /** A `currencies` row as read back, `value` already derived by the database. */
  datatype CurrencyData = CurrencyData(
    currencyId: int,
    currencyName: string,
    currencyCode: string,
    circulation: int,
    reserves: int,
    owner: string,
    value: real,
    state: string)

  /** A `transactions` row as the repository returns it: exactly one of the two deltas is set. */
  datatype TransactionData = TransactionData(
    transactionId: int,
    transactionDate: int,
    currencyCode: string,
    deltaReserves: Option<int>,
    deltaCirculation: Option<int>)

  /** A `records` row: one end-of-day valuation of one currency. Dates are day numbers. */
  datatype RecordData = RecordData(
    recordId: int,
    recordDate: int,
    currencyId: int,
    openingValue: real,
    closingValue: real,
    deltaValue: real,
    growth: int)

  /** The only message the valuation worker's mailbox carries. */
  datatype WorkerMessage = Halt

  /** The invoking chat user; `id` stands for the mention the bot prints. */
  datatype User = User(id: int, name: string)

  /** The resolved value of one slash-command option. */
  datatype OptionValue = StringValue(s: string) | IntegerValue(n: int) | OtherValue

  /** One node of the option tree: sub-commands carry children, leaves carry a value. */
  datatype CommandOption = CommandOption(name: string, resolved: Option<OptionValue>, options: seq<CommandOption>)

  /** An application command as delivered: its name, the top-level options and the user. */
  datatype CommandInteraction = CommandInteraction(commandName: string, options: seq<CommandOption>, user: User)

  /** The sort keys a currency listing can use. */
  datatype CurrencySort = Name | CurrencyCode | Reserves | Circulation | Value | State
}
