/** `ReserveHandler` (src/handlers/reserve.rs): `/currency reserve add|remove` reviews a
    change of a currency's gold reserves for its owner, and the confirm button applies it. */
module Reserve {
  import opened Wrappers
  import opened Types
  import opened Responses
  import opened Transactions
  import L = Ledger

  const NotOwnerMessage: string := "Error: you are not the owner of this currency, and therefore cannot modify it"

  /** The code a command looks up: the parsed code, or "" when parsing failed. */
  function RequestedCode(data: CommandInteraction): string {
    var req := CommandRequest(ReserveTx, data);
    if req.Ok? then req.value.2 else ""
  }

  /** `handle_application_command` as written, as a function of the pending transaction
      before it and of the lookup of the requested code: the pending transaction is replaced
      as soon as the options parse, before the owner check, so a command the owner check
      rejects still replaces it. */
  function CommandEffect(pending: Pending, data: CommandInteraction, lookup: Result<CurrencyData, L.DbError>)
    : (Result<Response, string>, Pending)
  {
    match CommandRequest(ReserveTx, data)
    case Err(e) => (Err(e), pending)
    case Ok((add, amount, code)) =>
      var pending' := Pending(code, amount, data.user);
      match lookup
      case Ok(c) =>
        if data.user.name == c.owner then (Ok(Review(ReserveTx, c, amount, add)), pending')
        else (Err(NotOwnerMessage), pending')
      case Err(e) => (Err(LookupError(e)), pending')
  }

  /** The same command with the owner check before the pending transaction is stored: only a
      command that gets its review prompt replaces the pending transaction. */
  function OwnerCheckedEffect(pending: Pending, data: CommandInteraction, lookup: Result<CurrencyData, L.DbError>)
    : (Result<Response, string>, Pending)
  {
    match CommandRequest(ReserveTx, data)
    case Err(e) => (Err(e), pending)
    case Ok((add, amount, code)) =>
      match lookup
      case Ok(c) =>
        if data.user.name == c.owner then (Ok(Review(ReserveTx, c, amount, add)), Pending(code, amount, data.user))
        else (Err(NotOwnerMessage), pending)
      case Err(e) => (Err(LookupError(e)), pending)
  }

  /** Only the owner gets a review prompt, and it previews reserves + amount. */
  lemma {:induction false} OnlyOwnerIsReviewed(pending: Pending, data: CommandInteraction, lookup: Result<CurrencyData, L.DbError>)
    ensures var (r, p) := CommandEffect(pending, data, lookup);
            (r.Ok? <==> CommandRequest(ReserveTx, data).Ok? && lookup.Ok? && data.user.name == lookup.value.owner) &&
            (r.Ok? ==> GetText(r.value).newBalance == lookup.value.reserves + p.amount &&
                       GetText(r.value).amount == p.amount && p.initiator == data.user) &&
            (CommandRequest(ReserveTx, data).Ok? && lookup.Ok? && data.user.name != lookup.value.owner ==>
               r == Err(NotOwnerMessage))
  {
  }

  /** As written, a command the owner check rejects still replaces the pending transaction:
      after the owner of AAA asks to add 10 ingots, another user's rejected request to add
      1000000 leaves that request pending, so the owner's confirm applies it. */
  lemma {:induction false} RejectedCommandReplacesPending()
    ensures var owner := User(1, "ann");
            var other := User(2, "mallory");
            var c := CurrencyData(1, "Alpha", "AAA", 50, 100, "ann", 2.0, "North");
            var data := CommandInteraction("currency",
              [CommandOption("reserve", None,
                [CommandOption("add", None,
                  [CommandOption("amount", Some(IntegerValue(1000000)), []),
                   CommandOption("code", Some(StringValue("AAA")), [])])])],
              other);
            var (r, p) := CommandEffect(Pending("AAA", 10, owner), data, Ok(c));
            r == Err(NotOwnerMessage) && p == Pending("AAA", 1000000, other) && p.initiator.name != c.owner
  {
    var options := [CommandOption("amount", Some(IntegerValue(1000000)), []),
                    CommandOption("code", Some(StringValue("AAA")), [])];
    assert options[..1] == [options[0]] && options[..1][..0] == [];
    assert !Options.SomeIntegerBelow(options, "amount", 0);
    assert TransactionOptions(options, true) == Ok((1000000, "AAA"));
  }

  /** With the owner check first, a rejected or failed command leaves the pending
      transaction alone, and a pending transaction only ever changes to one whose initiator
      owns the currency. */
  lemma {:induction false} OwnerCheckedKeepsPending(pending: Pending, data: CommandInteraction, lookup: Result<CurrencyData, L.DbError>)
    ensures var (r, p) := OwnerCheckedEffect(pending, data, lookup);
            (r.Err? ==> p == pending) &&
            (p != pending ==> lookup.Ok? && p.initiator == data.user && data.user.name == lookup.value.owner) &&
            r == CommandEffect(pending, data, lookup).0 &&
            (r.Ok? ==> p == CommandEffect(pending, data, lookup).1)
  {
  }

  class ReserveHandler {
    var transactionCode: string
    var transactionAmount: int
    var transactionInitiator: User

    function PendingTransaction(): Pending
      reads this
    {
      Pending(transactionCode, transactionAmount, transactionInitiator)
    }

    /** `ReserveHandler::new`: nothing pending. */
    constructor()
      ensures PendingTransaction() == Pending("", 0, NoUser)
    {
      transactionCode := "";
      transactionAmount := 0;
      transactionInitiator := NoUser;
    }

    method HandleCommand(data: CommandInteraction, ledger: L.Ledger) returns (r: Result<Response, string>)
      requires ledger.Valid()
      modifies this
      ensures (r, PendingTransaction()) ==
              CommandEffect(old(PendingTransaction()), data, ledger.GetCurrencyData(RequestedCode(data)))
    {
      var req := ParseCommand(ReserveTx, data);
      if req.Err? {
        return Err(req.error);
      }
      var (add, amount, code) := req.value;
      transactionCode := code;
      transactionAmount := amount;
      transactionInitiator := data.user;
      var found := ledger.GetCurrencyData(code);
      match found {
        case Ok(c) =>
          if data.user.name == c.owner {
            r := Ok(Review(ReserveTx, c, amount, add));
          } else {
            r := Err(NotOwnerMessage);
          }
        case Err(e) => r := Err(LookupError(e));
      }
    }

    /** `handle_interaction_response`: confirm applies the pending transaction to the ledger
        and broadcasts the new reserves; cancel and unknown ids leave the ledger alone. The
        pending transaction is not cleared, so confirming twice applies it twice. */
    method HandleInteraction(customId: string, user: User, ledger: L.Ledger, now: int)
      returns (r: Result<Response, string>)
      requires ledger.Valid()
      modifies ledger
      ensures ledger.Valid()
      ensures customId != ConfirmId(ReserveTx) ==> unchanged(ledger)
      ensures customId == CancelId(ReserveTx) ==> r == Ok(Cancelled())
      ensures customId !in Pattern(ReserveTx) ==> r == Ok(TextResponse(Plain("")))
      ensures customId == ConfirmId(ReserveTx) ==>
        var before := old(ledger.GetCurrencyData(transactionCode));
        (r.Ok? <==> before.Ok? && L.InI64(before.value.reserves + transactionAmount)) &&
        (before.Err? ==> r == Err(CompletionError(ReserveTx, before.error))) &&
        (r.Err? ==> unchanged(ledger)) &&
        (r.Ok? ==>
          var after := ledger.GetCurrencyData(transactionCode);
          var text := GetText(r.value);
          after.Ok? && after.value.currencyId == before.value.currencyId &&
          after.value.reserves == before.value.reserves + transactionAmount &&
          after.value.circulation == before.value.circulation &&
          GetFeedback(r.value) == Plain("Successfully completed gold reserve transaction!") &&
          text.TransactionBroadcast? &&
          text == TransactionBroadcast(ReserveTx, user, after.value.currencyName, transactionCode,
                                       after.value.state, transactionAmount, after.value.reserves,
                                       text.transactionId) &&
          text.transactionId in ledger.transactions &&
          ledger.transactions[text.transactionId] ==
            L.TransactionRow(now, before.value.currencyId, None, Some(transactionAmount), transactionInitiator.name))
    {
      assert Pattern(ReserveTx) == [ConfirmId(ReserveTx), CancelId(ReserveTx)];
      assert |ConfirmId(ReserveTx)| == |CancelId(ReserveTx)| + 1;
      if customId == ConfirmId(ReserveTx) {
        r := Confirm(user, ledger, now);
      } else if customId == CancelId(ReserveTx) {
        r := Ok(Cancelled());
      } else {
        r := Ok(TextResponse(Plain("")));
      }
    }

    /** The confirm button: the pending transaction goes to the ledger. */
    method Confirm(user: User, ledger: L.Ledger, now: int) returns (r: Result<Response, string>)
      requires ledger.Valid()
      modifies ledger
      ensures ledger.Valid()
      ensures
        var before := old(ledger.GetCurrencyData(transactionCode));
        (r.Ok? <==> before.Ok? && L.InI64(before.value.reserves + transactionAmount)) &&
        (before.Err? ==> r == Err(CompletionError(ReserveTx, before.error))) &&
        (r.Err? ==> unchanged(ledger)) &&
        (r.Ok? ==>
          var after := ledger.GetCurrencyData(transactionCode);
          var text := GetText(r.value);
          after.Ok? && after.value.currencyId == before.value.currencyId &&
          after.value.reserves == before.value.reserves + transactionAmount &&
          after.value.circulation == before.value.circulation &&
          GetFeedback(r.value) == Plain("Successfully completed gold reserve transaction!") &&
          text.TransactionBroadcast? &&
          text == TransactionBroadcast(ReserveTx, user, after.value.currencyName, transactionCode,
                                       after.value.state, transactionAmount, after.value.reserves,
                                       text.transactionId) &&
          text.transactionId in ledger.transactions &&
          ledger.transactions[text.transactionId] ==
            L.TransactionRow(now, before.value.currencyId, None, Some(transactionAmount), transactionInitiator.name))
    {
      var tx := ledger.ReserveModify(transactionCode, transactionAmount, transactionInitiator.name, now);
      if tx.Err? {
        return Err(CompletionError(ReserveTx, tx.error));
      }
      var c: CurrencyData;
      match ledger.GetCurrencyData(transactionCode) {
        case Err(e) =>
          return Ok(InteractiveWithFeedback([], Plain("Error while completing currency reserve check: `" + L.Describe(e) + "`"), Plain(""), true));
        case Ok(found) => c := found;
      }
      r := Ok(InteractiveWithFeedback([], Plain("Successfully completed gold reserve transaction!"),
            TransactionBroadcast(ReserveTx, user, c.currencyName, transactionCode, c.state,
                                 transactionAmount, c.reserves, tx.value.transactionId), true));
    }
  }
}
