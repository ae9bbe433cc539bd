/** `CirculationHandler` (src/handlers/circulation.rs): `/currency circulation add|remove`
    reviews a change of a currency's circulation, and the confirm button applies it. */
module Circulation {
  import opened Wrappers
  import opened Types
  import opened Responses
  import opened Transactions
  import L = Ledger

  /** The code a command looks up: the parsed code, or "" when parsing failed. */
  function RequestedCode(data: CommandInteraction): string {
    var req := CommandRequest(CirculationTx, data);
    if req.Ok? then req.value.2 else ""
  }

  /** `handle_application_command` as a function of the pending transaction before it and of
      the lookup of the requested code: the result, and the pending transaction after it.
      Every command that parses replaces the pending transaction, whatever the lookup says. */
  function CommandEffect(pending: Pending, data: CommandInteraction, lookup: Result<CurrencyData, L.DbError>)
    : (Result<Response, string>, Pending)
  {
    match CommandRequest(CirculationTx, data)
    case Err(e) => (Err(e), pending)
    case Ok((add, amount, code)) =>
      var pending' := Pending(code, amount, data.user);
      match lookup
      case Ok(c) => (Ok(Review(CirculationTx, c, amount, add)), pending')
      case Err(e) => (Err(LookupError(e)), pending')
  }

  /** A command that parses leaves exactly its own transaction pending, and a successful one
      reviews that transaction: same code, same amount, and a preview of the balance it
      would leave. */
  lemma {:induction false} CommandStoresItsTransaction(pending: Pending, data: CommandInteraction, lookup: Result<CurrencyData, L.DbError>)
    ensures var (r, p) := CommandEffect(pending, data, lookup);
            var req := CommandRequest(CirculationTx, data);
            (req.Err? ==> r == Err(req.error) && p == pending) &&
            (req.Ok? ==> p == Pending(req.value.2, req.value.1, data.user) && r.Ok? == lookup.Ok?) &&
            (r.Ok? ==> GetText(r.value).amount == p.amount &&
                       GetText(r.value).newBalance == lookup.value.circulation + p.amount &&
                       GetInteractiveData(r.value) == ReviewButtons(CirculationTx, req.value.0))
  {
  }

  class CirculationHandler {
    var transactionCode: string
    var transactionAmount: int
    var transactionInitiator: User

    function PendingTransaction(): Pending
      reads this
    {
      Pending(transactionCode, transactionAmount, transactionInitiator)
    }

    /** `CirculationHandler::new`: nothing pending. */
    constructor()
      ensures PendingTransaction() == Pending("", 0, NoUser)
    {
      transactionCode := "";
      transactionAmount := 0;
      transactionInitiator := NoUser;
    }

    method HandleCommand(data: CommandInteraction, ledger: L.Ledger) returns (r: Result<Response, string>)
      requires ledger.Valid()
      modifies this
      ensures (r, PendingTransaction()) ==
              CommandEffect(old(PendingTransaction()), data, ledger.GetCurrencyData(RequestedCode(data)))
    {
      var req := ParseCommand(CirculationTx, data);
      if req.Err? {
        return Err(req.error);
      }
      var (add, amount, code) := req.value;
      transactionCode := code;
      transactionAmount := amount;
      transactionInitiator := data.user;
      var found := ledger.GetCurrencyData(code);
      match found {
        case Ok(c) => r := Ok(Review(CirculationTx, c, amount, add));
        case Err(e) => r := Err(LookupError(e));
      }
    }

    /** `handle_interaction_response`: confirm applies the pending transaction to the ledger
        and broadcasts the new balance; cancel and unknown ids leave the ledger alone. The
        pending transaction is not cleared, so confirming twice applies it twice. */
    method HandleInteraction(customId: string, user: User, ledger: L.Ledger, now: int)
      returns (r: Result<Response, string>)
      requires ledger.Valid()
      modifies ledger
      ensures ledger.Valid()
      ensures customId != ConfirmId(CirculationTx) ==> unchanged(ledger)
      ensures customId == CancelId(CirculationTx) ==> r == Ok(Cancelled())
      ensures customId !in Pattern(CirculationTx) ==> r == Ok(TextResponse(Plain("")))
      ensures customId == ConfirmId(CirculationTx) ==>
        var before := old(ledger.GetCurrencyData(transactionCode));
        (r.Ok? <==> before.Ok? && L.InI64(before.value.circulation + transactionAmount)) &&
        (before.Err? ==> r == Err(CompletionError(CirculationTx, before.error))) &&
        (r.Err? ==> unchanged(ledger)) &&
        (r.Ok? ==>
          var after := ledger.GetCurrencyData(transactionCode);
          var text := GetText(r.value);
          after.Ok? && after.value.currencyId == before.value.currencyId &&
          after.value.circulation == before.value.circulation + transactionAmount &&
          after.value.reserves == before.value.reserves &&
          GetFeedback(r.value) == Plain("Successfully completed currency circulation transaction!") &&
          text.TransactionBroadcast? &&
          text == TransactionBroadcast(CirculationTx, user, after.value.currencyName, transactionCode,
                                       after.value.state, transactionAmount, after.value.circulation,
                                       text.transactionId) &&
          text.transactionId in ledger.transactions &&
          ledger.transactions[text.transactionId] ==
            L.TransactionRow(now, before.value.currencyId, Some(transactionAmount), None, transactionInitiator.name))
    {
      assert Pattern(CirculationTx) == [ConfirmId(CirculationTx), CancelId(CirculationTx)];
      assert |ConfirmId(CirculationTx)| == |CancelId(CirculationTx)| + 1;
      if customId == ConfirmId(CirculationTx) {
        r := Confirm(user, ledger, now);
      } else if customId == CancelId(CirculationTx) {
        r := Ok(Cancelled());
      } else {
        r := Ok(TextResponse(Plain("")));
      }
    }

    /** The confirm button: the pending transaction goes to the ledger. */
    method Confirm(user: User, ledger: L.Ledger, now: int) returns (r: Result<Response, string>)
      requires ledger.Valid()
      modifies ledger
      ensures ledger.Valid()
      ensures
        var before := old(ledger.GetCurrencyData(transactionCode));
        (r.Ok? <==> before.Ok? && L.InI64(before.value.circulation + transactionAmount)) &&
        (before.Err? ==> r == Err(CompletionError(CirculationTx, before.error))) &&
        (r.Err? ==> unchanged(ledger)) &&
        (r.Ok? ==>
          var after := ledger.GetCurrencyData(transactionCode);
          var text := GetText(r.value);
          after.Ok? && after.value.currencyId == before.value.currencyId &&
          after.value.circulation == before.value.circulation + transactionAmount &&
          after.value.reserves == before.value.reserves &&
          GetFeedback(r.value) == Plain("Successfully completed currency circulation transaction!") &&
          text.TransactionBroadcast? &&
          text == TransactionBroadcast(CirculationTx, user, after.value.currencyName, transactionCode,
                                       after.value.state, transactionAmount, after.value.circulation,
                                       text.transactionId) &&
          text.transactionId in ledger.transactions &&
          ledger.transactions[text.transactionId] ==
            L.TransactionRow(now, before.value.currencyId, Some(transactionAmount), None, transactionInitiator.name))
    {
      var tx := ledger.CirculationModify(transactionCode, transactionAmount, transactionInitiator.name, now);
      if tx.Err? {
        return Err(CompletionError(CirculationTx, tx.error));
      }
      var c: CurrencyData;
      match ledger.GetCurrencyData(transactionCode) {
        case Err(e) =>
          return Ok(InteractiveWithFeedback([], Plain("Error while completing currency balance check: `" + L.Describe(e) + "`"), Plain(""), true));
        case Ok(found) => c := found;
      }
      r := Ok(InteractiveWithFeedback([], Plain("Successfully completed currency circulation transaction!"),
            TransactionBroadcast(CirculationTx, user, c.currencyName, transactionCode, c.state,
                                 transactionAmount, c.circulation, tx.value.transactionId), true));
    }
  }
}
