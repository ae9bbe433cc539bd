/** `DeleteHandler` (src/handlers/delete.rs): `/currency delete` asks the owner to confirm, and
    the confirm button removes the currency with its transactions and records. */
module Delete {
  import opened Wrappers
  import opened Types
  import opened Options
  import opened Responses
  import opened Debug
  import L = Ledger

  const NotOwnerMessage: string := "Error: you are not the owner of this currency, and therefore cannot modify it"
  const ConfirmId: string := "delete-confirm"
  const CancelId: string := "delete-cancel"

  /** `get_pattern`: the custom ids the handler answers. */
  const Pattern: seq<string> := [ConfirmId, CancelId]

  /** The currency the handler holds between its prompt and the button press: code, name. */
  datatype Target = Target(code: string, name: string)

  /** `parse_options`, declaratively: the last string `code`, which is required. */
  function DeleteOptions(options: seq<CommandOption>): (r: Result<string, string>)
    ensures r.Err? <==> forall k :: 0 <= k < |options| ==> !IsString(options[k], "code")
  {
    LastStringSpec(options, "code");
    match LastString(options, "code")
    case None => Err("Error: no currency code specified")
    case Some(code) => Ok(code)
  }

  method ParseDeleteOptions(options: seq<CommandOption>) returns (r: Result<string, string>)
    ensures r == DeleteOptions(options)
  {
    var code: Option<string> := None;
    for i := 0 to |options|
      invariant code == LastString(options[..i], "code")
    {
      var option := options[i];
      LastStringStep(options[..i], option, "code");
      assert options[..i + 1] == options[..i] + [option];
      if option.name == "code" {
        if option.resolved.Some? && option.resolved.value.StringValue? {
          code := Some(option.resolved.value.s);
        }
      }
    }
    assert options[..|options|] == options;
    if code.None? {
      return Err("Error: no currency code specified");
    }
    r := Ok(code.value);
  }

  /** Of several `code` options the last string wins: a later one replaces an earlier one. */
  lemma {:induction false} LastCodeWins(options: seq<CommandOption>, code: string, value: Option<OptionValue>)
    ensures DeleteOptions(options + [CommandOption("code", Some(StringValue(code)), [])]) == Ok(code)
    ensures value.None? || !value.value.StringValue? ==>
              DeleteOptions(options + [CommandOption("code", value, [])]) == DeleteOptions(options)
  {
    LastStringStep(options, CommandOption("code", Some(StringValue(code)), []), "code");
    LastStringStep(options, CommandOption("code", value, []), "code");
  }

  /** The confirm and cancel buttons: deleting is the dangerous choice. */
  const Buttons: Components := [Button("Confirm", ConfirmId, Danger), Button("Cancel", CancelId, Primary)]

  /** The code a command looks up, or "" when parsing failed. */
  function RequestedCode(data: CommandInteraction): string {
    match GetOptions(data.options)
    case Err(_) => ""
    case Ok(options) => if DeleteOptions(options).Ok? then DeleteOptions(options).value else ""
  }

  /** `handle_application_command` as a function of the held target before it and the lookup
      of the requested code: the result, and the held target after it. Only the owner's
      command gets the prompt, and only then is the target replaced, by the looked-up row. */
  function CommandEffect(target: Target, data: CommandInteraction, lookup: Result<CurrencyData, L.DbError>)
    : (Result<Response, string>, Target)
  {
    match GetOptions(data.options)
    case Err(e) => (Err("Error while getting options from command data: " + Quoted(e)), target)
    case Ok(options) =>
      match DeleteOptions(options)
      case Err(e) => (Err("Error while parsing options: " + Quoted(e)), target)
      case Ok(code) =>
        match lookup
        case Err(_) => (Err("Error: could not find the currency code `" + code + "`"), target)
        case Ok(c) =>
          if data.user.name != c.owner then (Err(NotOwnerMessage), target)
          else (Ok(Interactive(Buttons, DeletePrompt(c.currencyName, c.currencyCode), true)),
                Target(c.currencyCode, c.currencyName))
  }

  /** The held target changes only when the owner of the looked-up currency gets the prompt,
      and then it names that currency; every refusal keeps the earlier target. */
  lemma {:induction false} OnlyOwnerReplacesTarget(target: Target, data: CommandInteraction, lookup: Result<CurrencyData, L.DbError>)
    ensures var (r, t) := CommandEffect(target, data, lookup);
            (r.Err? ==> t == target) &&
            (r.Ok? <==> GetOptions(data.options).Ok? && DeleteOptions(GetOptions(data.options).value).Ok? &&
                        lookup.Ok? && lookup.value.owner == data.user.name) &&
            (r.Ok? ==> t == Target(lookup.value.currencyCode, lookup.value.currencyName) &&
                       GetText(r.value) == DeletePrompt(t.name, t.code) &&
                       GetInteractiveData(r.value) == Buttons) &&
            (lookup.Ok? && lookup.value.owner != data.user.name ==> r.Err? && t == target)
  {
    match GetOptions(data.options)
    case Err(e) =>
      assert CommandEffect(target, data, lookup) == (Err("Error while getting options from command data: " + Quoted(e)), target);
    case Ok(options) =>
      match DeleteOptions(options)
      case Err(e) =>
        assert CommandEffect(target, data, lookup) == (Err("Error while parsing options: " + Quoted(e)), target);
      case Ok(code) =>
  }

  /** Every button of the prompt is answered by this handler. */
  lemma {:induction false} ButtonsArePattern()
    ensures forall b :: b in Buttons ==> b.customId in Pattern
    ensures forall id :: id in Pattern ==> exists b :: b in Buttons && b.customId == id
  {
    assert Buttons[0] in Buttons && Buttons[1] in Buttons;
  }

  class DeleteHandler {
    var currencyCode: string
    var currencyName: string

    function Held(): Target
      reads this
    {
      Target(currencyCode, currencyName)
    }

    /** `DeleteHandler::new`: nothing held. */
    constructor()
      ensures Held() == Target("", "")
    {
      currencyCode := "";
      currencyName := "";
    }

    method HandleCommand(data: CommandInteraction, ledger: L.Ledger) returns (r: Result<Response, string>)
      requires ledger.Valid()
      modifies this
      ensures (r, Held()) == CommandEffect(old(Held()), data, ledger.GetCurrencyData(RequestedCode(data)))
    {
      var options: seq<CommandOption>;
      match GetOptions(data.options) {
        case Err(e) => return Err("Error while getting options from command data: " + Quoted(e));
        case Ok(o) => options := o;
      }
      var parsed := ParseDeleteOptions(options);
      var code: string;
      match parsed {
        case Err(e) => return Err("Error while parsing options: " + Quoted(e));
        case Ok(c) => code := c;
      }
      var c: CurrencyData;
      match ledger.GetCurrencyData(code) {
        case Err(_) => return Err("Error: could not find the currency code `" + code + "`");
        case Ok(found) => c := found;
      }
      if data.user.name != c.owner {
        return Err(NotOwnerMessage);
      }
      currencyCode := c.currencyCode;
      currencyName := c.currencyName;
      r := Ok(Interactive(Buttons, DeletePrompt(c.currencyName, c.currencyCode), true));
    }

    /** `handle_interaction_response`: only "delete-confirm" removes the held currency (with
        its transactions and records); any other id declines and changes nothing. */
    method HandleInteraction(customId: string, user: User, ledger: L.Ledger) returns (r: Result<Response, string>)
      requires ledger.Valid()
      modifies ledger
      ensures ledger.Valid() && r.Ok?
      ensures customId != ConfirmId ==>
                unchanged(ledger) &&
                r.value == InteractiveWithFeedback([], DeleteDeclined(currencyName, currencyCode), Plain(""), true)
      ensures customId == ConfirmId ==>
                !L.HasCode(ledger.currencies, currencyCode) &&
                (forall id :: id in old(ledger.currencies) && old(ledger.currencies)[id].code == currencyCode ==>
                   ledger.currencies == old(ledger.currencies) - {id} &&
                   ledger.transactions == L.TransactionsWithout(old(ledger.transactions), id) &&
                   ledger.records == L.RecordsWithout(old(ledger.records), id)) &&
                (!L.HasCode(old(ledger.currencies), currencyCode) ==> unchanged(ledger)) &&
                GetFeedback(r.value) == DeleteDone(currencyName, currencyCode) &&
                GetText(r.value) == DeleteBroadcast(user, currencyName, currencyCode)
    {
      if customId == ConfirmId {
        var removed := ledger.RemoveCurrency(currencyCode);
        match removed {
          case Err(e) => return Err("Error removing currency from database: " + L.Describe(e));
          case Ok(_) =>
            r := Ok(InteractiveWithFeedback([], DeleteDone(currencyName, currencyCode),
                                            DeleteBroadcast(user, currencyName, currencyCode), true));
        }
      } else {
        r := Ok(InteractiveWithFeedback([], DeleteDeclined(currencyName, currencyCode), Plain(""), true));
      }
    }
  }
}
