/** `ModifyHandler` (src/handlers/modify.rs): `/currency modify code|state|name` renames a
    currency's code, state or name and announces the change. */
module Modify {
  import opened Wrappers
  import opened Types
  import opened Options
  import opened Responses
  import opened Debug
  import L = Ledger
  import opened Schema

  /** `ModifyOptions`: each option the command may carry, None when absent. */
  datatype ModifyOptions = ModifyOptions(code: Option<string>, name: Option<string>, state: Option<string>,
                                         oldCode: Option<string>, newCode: Option<string>)

  /** `parse_options`, declaratively: the last string of each of the five options. */
  function ModifyOptionsOf(options: seq<CommandOption>): ModifyOptions {
    ModifyOptions(LastString(options, "code"), LastString(options, "name"), LastString(options, "state"),
                  LastString(options, "old_code"), LastString(options, "new_code"))
  }

  /** The parse loop; it never fails. */
  method ParseModifyOptions(options: seq<CommandOption>) returns (r: Result<ModifyOptions, string>)
    ensures r == Ok(ModifyOptionsOf(options))
  {
    var opts := ModifyOptions(None, None, None, None, None);
    for i := 0 to |options|
      invariant opts == ModifyOptionsOf(options[..i])
    {
      var option := options[i];
      LastStringStep(options[..i], option, "code");
      LastStringStep(options[..i], option, "name");
      LastStringStep(options[..i], option, "state");
      LastStringStep(options[..i], option, "old_code");
      LastStringStep(options[..i], option, "new_code");
      assert options[..i + 1] == options[..i] + [option];
      if option.resolved.Some? && option.resolved.value.StringValue? {
        var s := option.resolved.value.s;
        if option.name == "code" {
          opts := opts.(code := Some(s));
        } else if option.name == "old_code" {
          opts := opts.(oldCode := Some(s));
        } else if option.name == "new_code" {
          opts := opts.(newCode := Some(s));
        } else if option.name == "state" {
          opts := opts.(state := Some(s));
        } else if option.name == "name" {
          opts := opts.(name := Some(s));
        }
      }
    }
    assert options[..|options|] == options;
    r := Ok(opts);
  }

  /** The `modify_currency_meta` call an action makes: the code to change, the field, and the
      new value. None when the action is unknown or one of its two options is absent. */
  function MetaCall(action: string, o: ModifyOptions): (call: Option<(string, L.MetaField, string)>)
    ensures call.Some? <==> (action == "code" && o.oldCode.Some? && o.newCode.Some?) ||
                            (action == "state" && o.code.Some? && o.state.Some?) ||
                            (action == "name" && o.code.Some? && o.name.Some?)
  {
    match action
    case "code" => if o.oldCode.Some? && o.newCode.Some? then Some((o.oldCode.value, L.CodeField, o.newCode.value)) else None
    case "state" => if o.code.Some? && o.state.Some? then Some((o.code.value, L.StateField, o.state.value)) else None
    case "name" => if o.code.Some? && o.name.Some? then Some((o.code.value, L.NameField, o.name.value)) else None
    case _ => None
  }

  /** How the broadcast names the currency: by name after a code or state change, by code
      after a name change. */
  function Display(action: string, c: CurrencyData): string {
    if action == "code" || action == "state" then "**" + c.currencyName + "**"
    else "`" + c.currencyCode + "`"
  }

  /** The line describing the change, showing the field's new value. */
  function Modification(action: string, c: CurrencyData): string {
    match action
    case "code" => "Currency Code -> `" + c.currencyCode + "`"
    case "state" => "Nation/State -> *" + c.state + "*"
    case "name" => "Currency Name -> **" + c.currencyName + "**"
    case _ => ""
  }

  /** The error a command without a usable action and its options ends in: `final_data`
      starts as this error and nothing replaced it. */
  const ArgumentsError: L.DbError := L.Protocol("Error in command arguments")

  /** What the command asks for before any ledger call: the action and the call it makes
      (None when nothing is called), or the handler's error. */
  function ModifyRequest(data: CommandInteraction): Result<(string, Option<(string, L.MetaField, string)>), string> {
    match GetOptions(data.options)
    case Err(e) => Err("Error while getting options from command data: " + Quoted(e))
    case Ok(options) =>
      if data.options[0].options == [] then
        Err("Error while parsing options: Couldn't get which sub-subcommand to run")
      else
        var action := data.options[0].options[0].name;
        Ok((action, MetaCall(action, ModifyOptionsOf(options))))
  }

  /** The announcement of a change: private feedback for the user, a public broadcast. */
  function Announcement(user: User, action: string, c: CurrencyData): (r: Response)
    ensures r.interactive && !r.ephemeral
    ensures GetFeedback(r) == Plain("Successfully modified currency **" + c.currencyName + "** `" + c.currencyCode + "`")
    ensures GetText(r) == ModifyBroadcast(user, Display(action, c), Modification(action, c))
  {
    InteractiveWithFeedback([], Plain("Successfully modified currency **" + c.currencyName + "** `" + c.currencyCode + "`"),
                            ModifyBroadcast(user, Display(action, c), Modification(action, c)), false)
  }

  /** `handle_application_command`: the action's call, when it has one, changes exactly that
      field of that currency and announces the updated row; an unknown action or a missing
      option ends in the arguments error without touching the ledger. */
  method HandleCommand(data: CommandInteraction, ledger: L.Ledger) returns (r: Result<Response, string>)
    requires ledger.Valid()
    modifies ledger
    ensures ledger.Valid()
    ensures ModifyRequest(data).Err? ==> r == Err(ModifyRequest(data).error) && unchanged(ledger)
    ensures ModifyRequest(data).Ok? && ModifyRequest(data).value.1.None? ==>
              r == Err("Error while updating currency data: " + L.Describe(ArgumentsError)) && unchanged(ledger)
    ensures ModifyRequest(data).Ok? && ModifyRequest(data).value.1.Some? ==>
      var (action, call) := ModifyRequest(data).value;
      var (code, field, value) := call.value;
      (r.Ok? <==> L.HasCode(old(ledger.currencies), code) &&
                  (field != L.CodeField || value == code || !L.HasCode(old(ledger.currencies), value))) &&
      (r.Err? ==> unchanged(ledger)) &&
      (r.Ok? ==>
        var id := old(ledger.GetCurrencyData(code)).value.currencyId;
        var row := old(ledger.currencies)[id];
        ledger.currencies == old(ledger.currencies)[id := L.WithMeta(row, field, value)] &&
        ledger.transactions == old(ledger.transactions) && ledger.records == old(ledger.records) &&
        r.value == Announcement(data.user, action, ledger.Read(id)))
  {
    var options: seq<CommandOption>;
    match GetOptions(data.options) {
      case Err(e) => return Err("Error while getting options from command data: " + Quoted(e));
      case Ok(o) => options := o;
    }
    var parsed := ParseModifyOptions(options);
    var opts: ModifyOptions;
    match parsed {
      case Err(e) => return Err("Error while parsing options: " + Quoted(e));
      case Ok(o) => opts := o;
    }
    var cmd := data.options[0];
    if cmd.options == [] {
      return Err("Error while parsing options: Couldn't get which sub-subcommand to run");
    }
    var action := cmd.options[0].name;
    var finalData: Result<CurrencyData, L.DbError> := Err(ArgumentsError);
    var call := MetaCall(action, opts);
    if call.Some? {
      var (code, field, value) := call.value;
      finalData := ledger.ModifyCurrencyMeta(code, field, value);
    }
    match finalData {
      case Err(e) => return Err("Error while updating currency data: " + L.Describe(e));
      case Ok(c) => r := Ok(Announcement(data.user, action, c));
    }
  }

  /** After a successful change the row named by the command holds the value the command
      gave in the action's column and its old values everywhere else, and the broadcast, built
      from the row as read after the update, shows that value and names the currency by a
      column the action left as it was. */
  lemma {:induction false} BroadcastShowsChange(user: User, action: string, o: ModifyOptions, id: int, row: L.CurrencyRow)
    requires MetaCall(action, o).Some? && row.code == MetaCall(action, o).value.0
    ensures var (_, field, value) := MetaCall(action, o).value;
            var after := L.WithMeta(row, field, value);
            var broadcast := GetText(Announcement(user, action, Snapshot(id, after.code, after.name, after.state,
                                                                         after.circulation, after.reserves, after.owner)));
            after.circulation == row.circulation && after.reserves == row.reserves && after.owner == row.owner &&
            (action == "code" ==>
               after == row.(code := o.newCode.value) &&
               broadcast == ModifyBroadcast(user, "**" + row.name + "**", "Currency Code -> `" + o.newCode.value + "`")) &&
            (action == "state" ==>
               after == row.(state := o.state.value) &&
               broadcast == ModifyBroadcast(user, "**" + row.name + "**", "Nation/State -> *" + o.state.value + "*")) &&
            (action == "name" ==>
               after == row.(name := o.name.value) &&
               broadcast == ModifyBroadcast(user, "`" + o.code.value + "`", "Currency Name -> **" + o.name.value + "**"))
  {
  }
}
