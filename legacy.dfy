/** `CurrencyHandler` (src/commands/currency.rs): the older single handler for every
    `/currency` sub-command. `run` folds the options into local variables, validates the
    sub-command and either answers at once or goes on to one database call; the values a
    later button press needs travel through a shared string map. `handle_component` reads
    them back. The database calls themselves are described by `Outcome`, not performed. */
module Legacy {
  import opened Wrappers
  import opened Types
  import opened Options
  import opened Responses
  import L = Ledger
  import Decimal
  import Transactions
  import List
  import Modify

  const DumpPrefix: string :=
    "Error: Economist Bot encountered an error processing a command. A debug dump of the command interaction is below:\n"
  const InvalidComponent: string := "Error: this component interaction is invalid!"
  const NoViewCode: string := "Couldn't respond to subcommand `view`: No currency code specified!"
  const NonPositiveNumber: string := "Error: can't have a negative number of currencies to return."

  /** The values the first fold of `run` collects from the sub-command's own options. */
  datatype Fields = Fields(code: string, name: string, circulation: int, reserve: int, state: string)

  /** That fold, declaratively: the last string or integer of each option, "" or 0 when none. */
  function FieldsOf(options: seq<CommandOption>): Fields {
    Fields(LastString(options, "code").GetOr(""), LastString(options, "name").GetOr(""),
           LastInteger(options, "initial_circulation").GetOr(0), LastInteger(options, "initial_reserve").GetOr(0),
           LastString(options, "state").GetOr(""))
  }

  method FoldFields(options: seq<CommandOption>) returns (f: Fields)
    ensures f == FieldsOf(options)
  {
    f := Fields("", "", 0, 0, "");
    for i := 0 to |options|
      invariant f == FieldsOf(options[..i])
    {
      var option := options[i];
      LastStringStep(options[..i], option, "code");
      LastStringStep(options[..i], option, "name");
      LastStringStep(options[..i], option, "state");
      LastIntegerStep(options[..i], option, "initial_circulation");
      LastIntegerStep(options[..i], option, "initial_reserve");
      assert options[..i + 1] == options[..i] + [option];
      if option.resolved.Some? {
        var v := option.resolved.value;
        if option.name == "code" && v.StringValue? {
          f := f.(code := v.s);
        } else if option.name == "name" && v.StringValue? {
          f := f.(name := v.s);
        } else if option.name == "initial_circulation" && v.IntegerValue? {
          f := f.(circulation := v.n);
        } else if option.name == "initial_reserve" && v.IntegerValue? {
          f := f.(reserve := v.n);
        } else if option.name == "state" && v.StringValue? {
          f := f.(state := v.s);
        }
      }
    }
    assert options[..|options|] == options;
  }

  /** A currency created without initial circulation or reserve starts with zero of each;
      a value given is taken as it is, negative or not. */
  lemma {:induction false} CreateDefaultsToZero(options: seq<CommandOption>)
    ensures (forall k :: 0 <= k < |options| ==> !IsInteger(options[k], "initial_circulation")) ==>
              FieldsOf(options).circulation == 0
    ensures (forall k :: 0 <= k < |options| ==> !IsInteger(options[k], "initial_reserve")) ==>
              FieldsOf(options).reserve == 0
    ensures forall n :: FieldsOf(options + [CommandOption("initial_reserve", Some(IntegerValue(n)), [])]).reserve == n
  {
    LastIntegerSpec(options, "initial_circulation");
    LastIntegerSpec(options, "initial_reserve");
    forall n ensures FieldsOf(options + [CommandOption("initial_reserve", Some(IntegerValue(n)), [])]).reserve == n {
      LastIntegerStep(options, CommandOption("initial_reserve", Some(IntegerValue(n)), []), "initial_reserve");
    }
  }

  /** The amount fold of a reserve or circulation action AS WRITTEN: each `amount` integer is
      refused when the amount held so far (0 at first) is negative; otherwise it replaces the
      held amount, negated for "remove". None when the guard refuses. */
  function AmountFold(options: seq<CommandOption>, remove: bool): Option<int> {
    if options == [] then Some(0)
    else
      var o := options[|options| - 1];
      match AmountFold(options[..|options| - 1], remove)
      case None => None
      case Some(amount) =>
        if IsInteger(o, "amount") then
          if amount < 0 then None else Some(if remove then -o.resolved.value.n else o.resolved.value.n)
        else Some(amount)
  }

  /** One more option in the amount fold. */
  lemma {:induction false} AmountFoldStep(options: seq<CommandOption>, o: CommandOption, remove: bool)
    ensures AmountFold(options + [o], remove) ==
              match AmountFold(options, remove)
              case None => None
              case Some(amount) =>
                if IsInteger(o, "amount") then
                  if amount < 0 then None else Some(if remove then -o.resolved.value.n else o.resolved.value.n)
                else Some(amount)
  {
    assert (options + [o])[..|options|] == options;
  }

  /** Once the guard has refused, it stays refused. */
  lemma {:induction false} AmountFoldStaysRefused(options: seq<CommandOption>, i: nat, remove: bool)
    requires i <= |options| && AmountFold(options[..i], remove).None?
    ensures AmountFold(options, remove).None?
  {
    if i == |options| {
      assert options[..i] == options;
    } else {
      var init := options[..|options| - 1];
      assert init[..i] == options[..i];
      AmountFoldStaysRefused(init, i, remove);
    }
  }

  /** The guard looks at the amount held, never at the value arriving: whether one more
      `amount` option is refused does not depend on that option's value. */
  lemma {:induction false} GuardIgnoresIncomingValue(options: seq<CommandOption>, n: int, remove: bool)
    requires AmountFold(options, remove).Some?
    ensures var next := options + [CommandOption("amount", Some(IntegerValue(n)), [])];
            AmountFold(next, remove) == if AmountFold(options, remove).value < 0 then None
                                        else Some(if remove then -n else n)
  {
    var next := options + [CommandOption("amount", Some(IntegerValue(n)), [])];
    assert next[..|next| - 1] == options;
  }

  /** A single negative amount passes the guard: an "add" of -5 is held as -5, which the
      handlers' own parsing refuses. */
  lemma {:induction false} NegativeAmountPasses()
    ensures AmountFold([CommandOption("amount", Some(IntegerValue(-5)), [])], false) == Some(-5)
    ensures Transactions.TransactionOptions([CommandOption("amount", Some(IntegerValue(-5)), [])], true).Err?
  {
    var opts := [CommandOption("amount", Some(IntegerValue(-5)), [])];
    GuardIgnoresIncomingValue([], -5, false);
    assert [] + [opts[0]] == opts;
    assert IsInteger(opts[0], "amount") && opts[0].resolved.value.n < 0;
  }

  /** Two positive amounts to "remove" are refused: the first is held negated, so the guard
      fires at the second. */
  lemma {:induction false} TwoRemovalsRefused()
    ensures AmountFold([CommandOption("amount", Some(IntegerValue(5)), []),
                        CommandOption("amount", Some(IntegerValue(3)), [])], true) == None
  {
    var first := [CommandOption("amount", Some(IntegerValue(5)), [])];
    GuardIgnoresIncomingValue([], 5, true);
    assert [] + first == first;
    GuardIgnoresIncomingValue(first, 3, true);
  }

  /** The transaction fold: the last string `code` ("" when none) and the folded amount. */
  function TransactionFold(options: seq<CommandOption>, remove: bool): Option<(string, int)> {
    match AmountFold(options, remove)
    case None => None
    case Some(amount) => Some((LastString(options, "code").GetOr(""), amount))
  }

  /** The loop of an "add" or "remove" action, returning at the first refusal. */
  method FoldTransaction(options: seq<CommandOption>, remove: bool) returns (r: Option<(string, int)>)
    ensures r == TransactionFold(options, remove)
  {
    var amount := 0;
    var code := "";
    for i := 0 to |options|
      invariant AmountFold(options[..i], remove) == Some(amount)
      invariant code == LastString(options[..i], "code").GetOr("")
    {
      var option := options[i];
      LastStringStep(options[..i], option, "code");
      AmountFoldStep(options[..i], option, remove);
      assert options[..i + 1] == options[..i] + [option];
      if option.name == "code" {
        if option.resolved.Some? && option.resolved.value.StringValue? {
          code := option.resolved.value.s;
        }
      } else if option.name == "amount" {
        if option.resolved.Some? && option.resolved.value.IntegerValue? {
          if amount < 0 {
            AmountFoldStaysRefused(options, i + 1, remove);
            return None;
          } else {
            amount := if remove then -option.resolved.value.n else option.resolved.value.n;
          }
        }
      }
    }
    assert options[..|options|] == options;
    r := Some((code, amount));
  }

  /** The refusal of a negative value, worded per sub-command and action. */
  function GuardMessage(kind: TxKind, remove: bool): string {
    var word := if kind == ReserveTx then "reserve" else "circulation";
    if remove then
      "Error: you can't use negative values with `/currency " + word +
      " remove` to add more money. That's silly. Please use `/currency " + word + " add` instead."
    else
      "Error: you can't use negative values with `/currency " + word +
      " add`. Please use `/currency " + word + " remove` instead."
  }

  /** The `code` a `view` asks for: the last `code` option, which resets to none when it
      carries no string. */
  function ViewCode(options: seq<CommandOption>): Option<string> {
    if options == [] then None
    else
      var o := options[|options| - 1];
      if o.name == "code" then
        if o.resolved.Some? && o.resolved.value.StringValue? then Some(o.resolved.value.s) else None
      else ViewCode(options[..|options| - 1])
  }

  method FoldViewCode(options: seq<CommandOption>) returns (code: Option<string>)
    ensures code == ViewCode(options)
  {
    code := None;
    for i := 0 to |options|
      invariant code == ViewCode(options[..i])
    {
      var option := options[i];
      assert options[..i + 1][..i] == options[..i];
      if option.name == "code" {
        code := if option.resolved.Some? && option.resolved.value.StringValue? then Some(option.resolved.value.s) else None;
      }
    }
    assert options[..|options|] == options;
  }

  /** Unlike the view handler, a trailing `code` without a string erases an earlier code. */
  lemma {:induction false} ViewCodeResets(options: seq<CommandOption>, code: string)
    ensures ViewCode(options + [CommandOption("code", Some(StringValue(code)), [])]) == Some(code)
    ensures ViewCode(options + [CommandOption("code", Some(StringValue(code)), []), CommandOption("code", None, [])]) == None
  {
  }

  /** The list fold is the list handler's, with its own refusal text. */
  function ListFold(options: seq<CommandOption>): Result<(CurrencySort, int), string> {
    match List.ListOptions(options)
    case Err(_) => Err(NonPositiveNumber)
    case Ok(p) => Ok(p)
  }

  /** What `run` does with a command: answer at once, or make the one database call named. */
  datatype Outcome =
    | Reply(response: Response)
    | DeleteLookup(code: string)
    | CreateCurrency(fields: Fields)
    | ReviewTransaction(kind: TxKind, code: string, amount: int, remove: bool)
    | ModifyMeta(action: string, call: Option<(string, L.MetaField, string)>)
    | RecreatePrompt
    | ListCurrencies(sort: CurrencySort, number: int)
    | ViewLookup(code: string)

  /** A reserve or circulation sub-command: an action is required; an action other than
      "add" or "remove" gets an empty text; a refused amount gets the guard's message. */
  function TransactionPlan(kind: TxKind, sub: CommandOption, dump: string): Outcome {
    if sub.options == [] then
      Reply(Interactive([], Plain(DumpPrefix + if kind == ReserveTx then dump else "```" + dump + "```"), true))
    else
      var action := sub.options[0];
      if action.name != "add" && action.name != "remove" then Reply(TextResponse(Plain("")))
      else
        var remove := action.name == "remove";
        match TransactionFold(action.options, remove)
        case None => Reply(Interactive([], Plain(GuardMessage(kind, remove)), true))
        case Some((code, amount)) => ReviewTransaction(kind, code, amount, remove)
  }

  /** A modify sub-command: an action is required; its call is the modify handler's. */
  function ModifyPlan(sub: CommandOption, dump: string): Outcome {
    if sub.options == [] then Reply(Interactive([], Plain(DumpPrefix + "```" + dump + "```"), true))
    else
      var action := sub.options[0];
      ModifyMeta(action.name, Modify.MetaCall(action.name, Modify.ModifyOptionsOf(action.options)))
  }

  /** A list sub-command: the list fold's sort and number, or its refusal. */
  function ListPlan(sub: CommandOption): Outcome {
    match ListFold(sub.options)
    case Err(m) => Reply(Interactive([], Plain(m), true))
    case Ok((sort, number)) => ListCurrencies(sort, number)
  }

  /** A view sub-command: the code is required. */
  function ViewPlan(sub: CommandOption): Outcome {
    match ViewCode(sub.options)
    case None => Reply(Interactive([], Plain(NoViewCode), true))
    case Some(code) => ViewLookup(code)
  }

  /** The dispatch on the sub-command's name. */
  function SubcommandPlan(sub: CommandOption, dump: string): Outcome {
    match sub.name
    case "delete" => DeleteLookup(FieldsOf(sub.options).code)
    case "create" => CreateCurrency(FieldsOf(sub.options))
    case "reserve" => TransactionPlan(ReserveTx, sub, dump)
    case "circulation" => TransactionPlan(CirculationTx, sub, dump)
    case "modify" => ModifyPlan(sub, dump)
    case "recreate-database" => RecreatePrompt
    case "list" => ListPlan(sub)
    case "view" => ViewPlan(sub)
    case other => Reply(TextResponse(Plain("Couldn't respond to subcommand `" + other + "`")))
  }

  /** `run` up to its database call; `dump` stands for the `{:?}` rendering of the command. */
  function Plan(data: CommandInteraction, dump: string): Outcome {
    if data.options == [] then Reply(Interactive([], Plain(DumpPrefix + dump), false))
    else SubcommandPlan(data.options[0], dump)
  }

  /** What `run` validates, over every command: no sub-command is answered with the debug
      dump, an unknown one by name, and a list asks for a positive number of rows. */
  lemma {:induction false} PlanValidates(data: CommandInteraction, dump: string)
    ensures data.options == [] ==> Plan(data, dump) == Reply(Interactive([], Plain(DumpPrefix + dump), false))
    ensures data.options != [] &&
            data.options[0].name !in ["delete", "create", "reserve", "circulation", "modify", "recreate-database", "list", "view"] ==>
              Plan(data, dump) == Reply(TextResponse(Plain("Couldn't respond to subcommand `" + data.options[0].name + "`")))
    ensures Plan(data, dump).ListCurrencies? ==> Plan(data, dump).number >= 1
  {
    if data.options != [] && Plan(data, dump).ListCurrencies? {
      List.ListOptionsDefaults(data.options[0].options);
    }
  }

  /** A reserve or circulation action with a single amount goes to review holding that
      amount, negated for "remove", whatever its sign. */
  lemma {:induction false} SingleAmountReviewed(kind: TxKind, sub: CommandOption, dump: string, n: int)
    requires sub.options != [] && sub.options[0].name in ["add", "remove"]
    requires sub.options[0].options == [CommandOption("amount", Some(IntegerValue(n)), [])]
    ensures TransactionPlan(kind, sub, dump) ==
              ReviewTransaction(kind, "", if sub.options[0].name == "remove" then -n else n, sub.options[0].name == "remove")
  {
    var opts := sub.options[0].options;
    var remove := sub.options[0].name == "remove";
    GuardIgnoresIncomingValue([], n, remove);
    assert [] + opts == opts;
    LastStringStep([], opts[0], "code");
  }

  /** The debug reply of a reserve or circulation sub-command without an action. */
  function MissingAction(kind: TxKind, dump: string): Outcome {
    Reply(Interactive([], Plain(DumpPrefix + if kind == ReserveTx then dump else "```" + dump + "```"), true))
  }

  method RunTransaction(kind: TxKind, sub: CommandOption, dump: string) returns (o: Outcome)
    ensures o == TransactionPlan(kind, sub, dump)
  {
    if sub.options == [] {
      return MissingAction(kind, dump);
    }
    var action := sub.options[0];
    if action.name != "add" && action.name != "remove" {
      return Reply(TextResponse(Plain("")));
    }
    var remove := action.name == "remove";
    var folded := FoldTransaction(action.options, remove);
    match folded {
      case None => o := Reply(Interactive([], Plain(GuardMessage(kind, remove)), true));
      case Some((code, amount)) => o := ReviewTransaction(kind, code, amount, remove);
    }
  }

  method RunModify(sub: CommandOption, dump: string) returns (o: Outcome)
    ensures o == ModifyPlan(sub, dump)
  {
    if sub.options == [] {
      return Reply(Interactive([], Plain(DumpPrefix + "```" + dump + "```"), true));
    }
    var action := sub.options[0];
    var parsed := Modify.ParseModifyOptions(action.options);
    o := ModifyMeta(action.name, Modify.MetaCall(action.name, parsed.value));
  }

  method RunList(sub: CommandOption) returns (o: Outcome)
    ensures o == ListPlan(sub)
  {
    var listed := List.ParseListOptions(sub.options);
    match listed {
      case Err(_) => o := Reply(Interactive([], Plain(NonPositiveNumber), true));
      case Ok((sort, number)) => o := ListCurrencies(sort, number);
    }
  }

  method RunView(sub: CommandOption) returns (o: Outcome)
    ensures o == ViewPlan(sub)
  {
    var code := FoldViewCode(sub.options);
    match code {
      case None => o := Reply(Interactive([], Plain(NoViewCode), true));
      case Some(c) => o := ViewLookup(c);
    }
  }

  /** The sub-command dispatch of `run`, after the first fold. */
  method RunSubcommand(sub: CommandOption, dump: string) returns (o: Outcome)
    ensures o == SubcommandPlan(sub, dump)
  {
    var fields := FoldFields(sub.options);
    match sub.name {
      case "delete" => o := DeleteLookup(fields.code);
      case "create" => o := CreateCurrency(fields);
      case "reserve" => o := RunTransaction(ReserveTx, sub, dump);
      case "circulation" => o := RunTransaction(CirculationTx, sub, dump);
      case "modify" => o := RunModify(sub, dump);
      case "recreate-database" => o := RecreatePrompt;
      case "list" => o := RunList(sub);
      case "view" => o := RunView(sub);
      case other => o := Reply(TextResponse(Plain("Couldn't respond to subcommand `" + other + "`")));
    }
  }

  /** `format!("{}", user)`: the mention the bot prints for a user. */
  function Mention(user: User): string {
    "<@" + Decimal.FormatInt(user.id) + ">"
  }

  /** The keys `run` writes into the shared map before its database call. */
  function Stores(m: map<string, string>, o: Outcome, user: User): map<string, string> {
    match o
    case DeleteLookup(code) => m["currency_code" := code]
    case ReviewTransaction(_, code, amount, _) =>
      m["transaction_code" := code]["transaction_amount" := Decimal.FormatInt(amount)]["transaction_initiator" := Mention(user)]
    case _ => m
  }

  /** What a button press asks for once its keys are read. */
  datatype Step =
    | RemoveCurrency(code: string, name: string)
    | DeclineDelete
    | ApplyTransaction(kind: TxKind, code: string, amount: int, initiator: string)
    | RecreateDatabase
    | DeclineRecreate
    | UnknownComponent

  /** The reads of a transaction confirm: initiator, amount (which must parse as a 64-bit
      integer) and code, in that order. */
  function TransactionKeys(kind: TxKind, m: map<string, string>): Result<Step, string> {
    if "transaction_initiator" !in m then Err(InvalidComponent)
    else if "transaction_amount" !in m || Decimal.ParseI64(m["transaction_amount"]).None? then Err(InvalidComponent)
    else if "transaction_code" !in m then Err(InvalidComponent)
    else Ok(ApplyTransaction(kind, m["transaction_code"], Decimal.ParseI64(m["transaction_amount"]).value,
                             m["transaction_initiator"]))
  }

  /** `handle_component` up to its database call: which button, and the keys it needs. */
  function ComponentStep(customId: string, m: map<string, string>): Result<Step, string> {
    match customId
    case "button-delete-confirm" =>
      if "currency_code" !in m || "currency_name" !in m then Err(InvalidComponent)
      else Ok(RemoveCurrency(m["currency_code"], m["currency_name"]))
    case "button-delete-cancel" => Ok(DeclineDelete)
    case "gold-transaction-confirm" => TransactionKeys(ReserveTx, m)
    case "currency-transaction-confirm" => TransactionKeys(CirculationTx, m)
    case "recreate-database-confirm" => Ok(RecreateDatabase)
    case "recreate-database-cancel" => Ok(DeclineRecreate)
    case _ => Ok(UnknownComponent)
  }

  /** A confirm pressed after a reviewed transaction reads back exactly what the review
      stored: its code, its 64-bit amount and its initiator. The kind comes from the button,
      not from the review. */
  lemma {:induction false} StoredTransactionReadsBack(m: map<string, string>, kind: TxKind, code: string, amount: int,
                                   remove: bool, user: User, pressed: TxKind)
    requires Decimal.I64Min <= amount <= Decimal.I64Max
    ensures var stored := Stores(m, ReviewTransaction(kind, code, amount, remove), user);
            var id := if pressed == ReserveTx then "gold-transaction-confirm" else "currency-transaction-confirm";
            ComponentStep(id, stored) == Ok(ApplyTransaction(pressed, code, amount, Mention(user)))
  {
    Decimal.FormatParseRoundTrip(amount);
  }

  /** A delete confirm needs the name the lookup stores as well as the code: a confirm after
      a failed lookup in a fresh map is refused. */
  lemma {:induction false} DeleteConfirmNeedsName(code: string, user: User)
    ensures ComponentStep("button-delete-confirm", Stores(map[], DeleteLookup(code), user)) == Err(InvalidComponent)
    ensures ComponentStep("button-delete-confirm", Stores(map[], DeleteLookup(code), user)["currency_name" := code]) ==
              Ok(RemoveCurrency(code, code))
  {
  }

  /** The legacy review buttons: ids of their own, styled as the handlers style theirs. */
  function LegacyButtons(kind: TxKind, remove: bool): Components {
    var prefix := if kind == ReserveTx then "gold" else "currency";
    if kind == CirculationTx && remove then
      [Button("Confirm", prefix + "-transaction-confirm", Danger), Button("Cancel", prefix + "-transaction-cancel", Primary)]
    else
      [Button("Confirm", prefix + "-transaction-confirm", Primary), Button("Cancel", prefix + "-transaction-cancel", Secondary)]
  }

  /** The reply to a reviewed transaction once its code is looked up. */
  function ReviewReply(kind: TxKind, code: string, amount: int, remove: bool,
                       lookup: Result<CurrencyData, L.DbError>): Response
  {
    match lookup
    case Ok(c) =>
      Interactive(LegacyButtons(kind, remove),
                  TransactionReview(kind, c.currencyName, c.currencyCode, c.state, amount,
                                    Transactions.Balance(kind, c) + amount, kind == CirculationTx && remove),
                  true)
    case Err(RowNotFound) =>
      Interactive([], Plain("Error: the currency code `" + code + "` was not found. Check your spelling and try again."), true)
    case Err(e) => Interactive([], Plain("Error: SQLx Error\n`" + L.Describe(e) + "`"), true)
  }

  /** The legacy review shows what the handlers' review shows: the same currency, amount,
      new balance and warning; only the button ids differ. */
  lemma {:induction false} ReviewMatchesHandlers(kind: TxKind, code: string, amount: int, remove: bool, c: CurrencyData)
    ensures var r := ReviewReply(kind, code, amount, remove, Ok(c));
            GetText(r) == GetText(Transactions.Review(kind, c, amount, !remove)) &&
            GetText(r).newBalance - Transactions.Balance(kind, c) == amount &&
            |GetInteractiveData(r)| == 2 &&
            (forall j :: 0 <= j < 2 ==>
               GetInteractiveData(r)[j].style == Transactions.ReviewButtons(kind, !remove)[j].style)
  {
  }

  /** `CurrencyHandler` with the shared map `run` and `handle_component` pass values through. */
  class CurrencyHandler {
    var customData: map<string, string>

    constructor()
      ensures customData == map[]
    {
      customData := map[];
    }

    /** `run` up to its database call, with the keys it stores on the way. */
    method Run(data: CommandInteraction, dump: string) returns (o: Outcome)
      modifies this
      ensures o == Plan(data, dump)
      ensures customData == Stores(old(customData), o, data.user)
    {
      if data.options == [] {
        return Reply(Interactive([], Plain(DumpPrefix + dump), false));
      }
      o := RunSubcommand(data.options[0], dump);
      StoreKeys(o, data.user);
    }

    /** The keys a command leaves for its button: the code of a delete, the code, amount and
        initiator of a reviewed transaction. */
    method StoreKeys(o: Outcome, user: User)
      modifies this
      ensures customData == Stores(old(customData), o, user)
      ensures !o.ReviewTransaction? && !o.DeleteLookup? ==> customData == old(customData)
    {
      if o.ReviewTransaction? {
        customData := customData["transaction_code" := o.code];
        customData := customData["transaction_amount" := Decimal.FormatInt(o.amount)];
        customData := customData["transaction_initiator" := Mention(user)];
      } else if o.DeleteLookup? {
        customData := customData["currency_code" := o.code];
      }
    }

    /** After a found delete target: its name joins the code. */
    method StoreDeleteName(name: string)
      modifies this
      ensures customData == old(customData)["currency_name" := name]
    {
      customData := customData["currency_name" := name];
    }

    /** After a currency is created: its code and name. */
    method StoreCreated(code: string, name: string)
      modifies this
      ensures customData == old(customData)["currency_code" := code]["currency_name" := name]
    {
      customData := customData["currency_code" := code];
      customData := customData["currency_name" := name];
    }
  }
}
