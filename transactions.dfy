/** What the circulation and reserve handlers share (src/handlers/circulation.rs and
    src/handlers/reserve.rs): the action and option parsing, the review prompt, and the
    pending transaction kept between the command and the button press. */
module Transactions {
  import opened Wrappers
  import opened Types
  import opened Options
  import opened Responses
  import opened Debug
  import Ledger

  /** `User::default()`. */
  const NoUser: User := User(0, "")

  /** The transaction a handler holds between its review prompt and the button press. */
  datatype Pending = Pending(code: string, amount: int, initiator: User)

  /** Only the action called "add" adds; "remove" and any other name remove. */
  function IsAdd(action: string): (add: bool)
    ensures add <==> action == "add"
  {
    match action
    case "add" => true
    case "remove" => false
    case _ => false
  }

  /** The amount as stored: kept for add, negated for remove. */
  function Signed(add: bool, n: int): (a: int)
    ensures add ==> a == n
    ensures !add ==> a == -n
  {
    if add then n else -n
  }

  /** `parse_options`, declaratively: any integer `amount` below zero is refused with the
      action's name; otherwise the last integer `amount` (0 when none), signed by the action,
      and the last string `code` ("" when none). */
  function TransactionOptions(options: seq<CommandOption>, add: bool): Result<(int, string), string> {
    if SomeIntegerBelow(options, "amount", 0) then Err(if add then "add" else "remove")
    else Ok((Signed(add, LastInteger(options, "amount").GetOr(0)), LastString(options, "code").GetOr("")))
  }

  /** The parse loop: options in order, returning at the first negative amount. */
  method ParseTransactionOptions(options: seq<CommandOption>, add: bool) returns (r: Result<(int, string), string>)
    ensures r == TransactionOptions(options, add)
  {
    var amount := 0;
    var code := "";
    for i := 0 to |options|
      invariant !SomeIntegerBelow(options[..i], "amount", 0)
      invariant amount == Signed(add, LastInteger(options[..i], "amount").GetOr(0))
      invariant code == LastString(options[..i], "code").GetOr("")
    {
      var option := options[i];
      LastStringStep(options[..i], option, "code");
      LastIntegerStep(options[..i], option, "amount");
      SomeIntegerBelowStep(options[..i], option, "amount", 0);
      assert options[..i + 1] == options[..i] + [option];
      if option.name == "code" {
        if option.resolved.Some? && option.resolved.value.StringValue? {
          code := option.resolved.value.s;
        }
      } else if option.name == "amount" {
        if option.resolved.Some? && option.resolved.value.IntegerValue? {
          var n := option.resolved.value.n;
          if n < 0 {
            SomeIntegerBelowExtends(options, i + 1, "amount", 0);
            if add {
              return Err("add");
            } else {
              return Err("remove");
            }
          }
          amount := if add then n else -n;
        }
      }
    }
    assert options[..|options|] == options;
    r := Ok((amount, code));
  }

  /** A successful parse carries the action's sign: never negative for add, never positive
      for remove. A refused parse names the action. */
  lemma {:induction false} AmountSignMatchesAction(options: seq<CommandOption>, add: bool)
    ensures TransactionOptions(options, add).Ok? ==>
              (add ==> TransactionOptions(options, add).value.0 >= 0) &&
              (!add ==> TransactionOptions(options, add).value.0 <= 0)
    ensures TransactionOptions(options, add).Err? ==>
              TransactionOptions(options, add).error == (if add then "add" else "remove")
  {
    if !SomeIntegerBelow(options, "amount", 0) {
      LastIntegerWithoutSmaller(options, "amount", 0);
      LastIntegerAtLeastSpec(options, "amount", 0);
    }
  }

  /** Without `amount` and `code` options the transaction is 0 on the empty code. */
  lemma {:induction false} MissingOptionsDefault(options: seq<CommandOption>, add: bool)
    requires forall k :: 0 <= k < |options| ==> options[k].name != "amount" && options[k].name != "code"
    ensures TransactionOptions(options, add) == Ok((0, ""))
  {
    LastIntegerSpec(options, "amount");
    LastStringSpec(options, "code");
  }

  /** The refusal the handler returns for a negative amount under an action. */
  function NegativeAmountMessage(kind: TxKind, add: bool): string {
    match (kind, add)
    case (CirculationTx, true) =>
      "Can't use negative values with `/currency circulation add`. Please use `/currency circulation remove` instead."
    case (CirculationTx, false) =>
      "Can't use negative values with `/currency circulation remove`. Please use `/currency circulation add` instead."
    case (ReserveTx, true) =>
      "Can't use negative values with `/currency reserve add`. Please use `/currency reserve remove` instead."
    case (ReserveTx, false) =>
      "Can't use negative values with `/currency reserve remove`. Please use `/currency reserve add` instead."
  }

  /** The parsed request of `handle_application_command`, up to the currency lookup:
      (add, signed amount, code), or the error the handler returns. */
  function CommandRequest(kind: TxKind, data: CommandInteraction): Result<(bool, int, string), string> {
    if data.options == [] then Err("Couldn't get subcommand data")
    else if data.options[0].options == [] then
      Err(if kind == CirculationTx then "Couldn't get subcommand options" else "Couldn't get options from application data")
    else
      var add := IsAdd(data.options[0].options[0].name);
      match GetOptions(data.options)
      case Err(e) => Err("Error while parsing options: " + Quoted(e))
      case Ok(options) =>
        match TransactionOptions(options, add)
        case Err(_) => Err(NegativeAmountMessage(kind, add))
        case Ok((amount, code)) => Ok((add, amount, code))
  }

  /** The first half of `handle_application_command`: the sub-command and action checks,
      the option walk and the parse loop, with the parse refusal turned into the handler's
      message. */
  method ParseCommand(kind: TxKind, data: CommandInteraction) returns (req: Result<(bool, int, string), string>)
    ensures req == CommandRequest(kind, data)
  {
    if data.options == [] {
      return Err("Couldn't get subcommand data");
    }
    var cmd := data.options[0];
    if cmd.options == [] {
      return Err(if kind == CirculationTx then "Couldn't get subcommand options" else "Couldn't get options from application data");
    }
    var action := cmd.options[0];
    var add := IsAdd(action.name);
    var options: seq<CommandOption>;
    match GetOptions(data.options) {
      case Err(e) => return Err("Error while parsing options: " + Quoted(e));
      case Ok(o) => options := o;
    }
    var parsed := ParseTransactionOptions(options, add);
    if parsed.Err? {
      assert add ==> parsed.error == "add";
      assert !add ==> parsed.error == "remove" && parsed.error != "add";
      if parsed.error == "add" {
        return Err(NegativeAmountMessage(kind, true));
      } else if parsed.error == "remove" {
        return Err(NegativeAmountMessage(kind, false));
      }
      return Err("An unknown error occured while parsing command arguments");
    }
    var (amount, code) := parsed.value;
    return Ok((add, amount, code));
  }

  /** A request that gets past parsing names the action of the first sub-command's first
      option, and its amount and code are those of the sub-command's options. */
  lemma {:induction false} RequestReadsFirstAction(kind: TxKind, data: CommandInteraction)
    requires CommandRequest(kind, data).Ok?
    ensures data.options != [] && data.options[0].options != []
    ensures CommandRequest(kind, data).value.0 <==> data.options[0].options[0].name == "add"
    ensures TransactionOptions(GetOptions(data.options).value, CommandRequest(kind, data).value.0) ==
            Ok((CommandRequest(kind, data).value.1, CommandRequest(kind, data).value.2))
  {
  }

  /** The prefix of the handler's custom ids. */
  function Prefix(kind: TxKind): string {
    match kind
    case CirculationTx => "circulation"
    case ReserveTx => "reserve"
  }

  function ConfirmId(kind: TxKind): string { Prefix(kind) + "-transaction-confirm" }
  function CancelId(kind: TxKind): string { Prefix(kind) + "-transaction-cancel" }

  /** `get_pattern`: the custom ids the handler answers. */
  function Pattern(kind: TxKind): seq<string> {
    [ConfirmId(kind), CancelId(kind)]
  }

  /** The confirm and cancel buttons of a review. A circulation removal makes confirm the
      dangerous choice; every other review uses primary and secondary. */
  function ReviewButtons(kind: TxKind, add: bool): (b: Components)
    ensures |b| == 2 && b[0].customId == ConfirmId(kind) && b[1].customId == CancelId(kind)
    ensures b[0].caption == "Confirm" && b[1].caption == "Cancel"
    ensures (kind == CirculationTx && !add) <==> b[0].style == Danger
  {
    if kind == CirculationTx && !add then
      [Button("Confirm", ConfirmId(kind), Danger), Button("Cancel", CancelId(kind), Primary)]
    else
      [Button("Confirm", ConfirmId(kind), Primary), Button("Cancel", CancelId(kind), Secondary)]
  }

  /** The balance a transaction of `kind` moves. */
  function Balance(kind: TxKind, c: CurrencyData): int {
    match kind
    case CirculationTx => c.circulation
    case ReserveTx => c.reserves
  }

  /** `generate_command_response`: a private review prompt with confirm and cancel buttons,
      previewing the balance the transaction would leave. */
  function Review(kind: TxKind, c: CurrencyData, amount: int, add: bool): (r: Response)
    ensures WellFormed(r) && r.interactive && r.ephemeral && !r.modal
    ensures GetInteractiveData(r) == ReviewButtons(kind, add)
    ensures GetText(r).TransactionReview? && GetText(r).kind == kind && GetText(r).code == c.currencyCode
    ensures GetText(r).amount == amount && GetText(r).newBalance - Balance(kind, c) == amount
    ensures GetText(r).removalWarning <==> kind == CirculationTx && !add
  {
    Interactive(ReviewButtons(kind, add),
                TransactionReview(kind, c.currencyName, c.currencyCode, c.state, amount,
                                  Balance(kind, c) + amount, kind == CirculationTx && !add),
                true)
  }

  /** Every button of a review is answered by the handler that showed it. */
  lemma {:induction false} ReviewButtonsArePattern(kind: TxKind, add: bool)
    ensures forall b :: b in ReviewButtons(kind, add) ==> b.customId in Pattern(kind)
    ensures forall id :: id in Pattern(kind) ==> exists b :: b in ReviewButtons(kind, add) && b.customId == id
  {
    var bs := ReviewButtons(kind, add);
    assert bs[0] in bs && bs[1] in bs;
  }

  /** The lookup failure the handler reports. */
  function LookupError(e: Ledger.DbError): string {
    "An error occured while performing a database lookup: " + Ledger.Describe(e)
  }

  /** The transaction failure the handler reports on confirm. */
  function CompletionError(kind: TxKind, e: Ledger.DbError): string {
    "Error while completing " + Prefix(kind) + " transaction: `" + Ledger.Describe(e) + "`"
  }

  /** The feedback for a cancel: no ledger update happened. */
  function Cancelled(): (r: Response)
    ensures WellFormed(r) && r.ephemeral && GetFeedback(r) == Plain("Cancelled transaction. No records were updated.")
  {
    InteractiveWithFeedback([], Plain("Cancelled transaction. No records were updated."), Plain(""), true)
  }
}
