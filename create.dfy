/** `CreateHandler` (src/handlers/create.rs): `/currency create` adds a currency owned by the
    invoking user and announces it. */
module Create {
  import opened Wrappers
  import opened Types
  import opened Options
  import opened Responses
  import opened Debug
  import L = Ledger

  /** What `parse_options` hands back: code, name, state, initial reserves and circulation. */
  datatype NewCurrency = NewCurrency(code: string, name: string, state: string, reserves: int, circulation: int)

  /** `parse_options`, declaratively: the last string `code`, `name` and `state`, each
      required and checked in that order, and the last non-negative `initial_reserve` and
      `initial_circulation` (0 when none; negative values are passed over). */
  function CreateOptions(options: seq<CommandOption>): Result<NewCurrency, string> {
    var code := LastString(options, "code");
    var name := LastString(options, "name");
    var state := LastString(options, "state");
    if code.None? then Err("Error: no currency code specified")
    else if name.None? then Err("Error: no currency name specified")
    else if state.None? then Err("Error: no currency state specified")
    else Ok(NewCurrency(code.value, name.value, state.value,
                        LastIntegerAtLeast(options, "initial_reserve", 0).GetOr(0),
                        LastIntegerAtLeast(options, "initial_circulation", 0).GetOr(0)))
  }

  /** The parse loop over five locals, then the three required-field checks. */
  method ParseCreateOptions(options: seq<CommandOption>) returns (r: Result<NewCurrency, string>)
    ensures r == CreateOptions(options)
  {
    var code: Option<string> := None;
    var name: Option<string> := None;
    var state: Option<string> := None;
    var reserves := 0;
    var circulation := 0;
    for i := 0 to |options|
      invariant code == LastString(options[..i], "code")
      invariant name == LastString(options[..i], "name")
      invariant state == LastString(options[..i], "state")
      invariant reserves == LastIntegerAtLeast(options[..i], "initial_reserve", 0).GetOr(0)
      invariant circulation == LastIntegerAtLeast(options[..i], "initial_circulation", 0).GetOr(0)
    {
      var option := options[i];
      LastStringStep(options[..i], option, "code");
      LastStringStep(options[..i], option, "name");
      LastStringStep(options[..i], option, "state");
      LastIntegerAtLeastStep(options[..i], option, "initial_reserve", 0);
      LastIntegerAtLeastStep(options[..i], option, "initial_circulation", 0);
      assert options[..i + 1] == options[..i] + [option];
      var value := option.resolved;
      if option.name == "code" {
        if value.Some? && value.value.StringValue? { code := Some(value.value.s); }
      } else if option.name == "name" {
        if value.Some? && value.value.StringValue? { name := Some(value.value.s); }
      } else if option.name == "state" {
        if value.Some? && value.value.StringValue? { state := Some(value.value.s); }
      } else if option.name == "initial_circulation" {
        if value.Some? && value.value.IntegerValue? && value.value.n >= 0 { circulation := value.value.n; }
      } else if option.name == "initial_reserve" {
        if value.Some? && value.value.IntegerValue? && value.value.n >= 0 { reserves := value.value.n; }
      }
    }
    assert options[..|options|] == options;
    if code.None? { return Err("Error: no currency code specified"); }
    if name.None? { return Err("Error: no currency name specified"); }
    if state.None? { return Err("Error: no currency state specified"); }
    r := Ok(NewCurrency(code.value, name.value, state.value, reserves, circulation));
  }

  /** The required fields are reported in the order code, name, state; a currency that
      parses has non-negative initial balances, 0 when none was given. */
  lemma {:induction false} CreateOptionsChecks(options: seq<CommandOption>)
    ensures LastString(options, "code").None? ==> CreateOptions(options) == Err("Error: no currency code specified")
    ensures LastString(options, "code").Some? && LastString(options, "name").None? ==>
              CreateOptions(options) == Err("Error: no currency name specified")
    ensures CreateOptions(options).Ok? <==>
              LastString(options, "code").Some? && LastString(options, "name").Some? && LastString(options, "state").Some?
    ensures CreateOptions(options).Ok? ==>
              var c := CreateOptions(options).value;
              c.reserves >= 0 && c.circulation >= 0 &&
              ((forall k :: 0 <= k < |options| ==> !IsInteger(options[k], "initial_reserve")) ==> c.reserves == 0) &&
              ((forall k :: 0 <= k < |options| ==> !IsInteger(options[k], "initial_circulation")) ==> c.circulation == 0)
  {
    LastIntegerAtLeastSpec(options, "initial_reserve", 0);
    LastIntegerAtLeastSpec(options, "initial_circulation", 0);
    if CreateOptions(options).Ok? {
      var c := CreateOptions(options).value;
      if forall k :: 0 <= k < |options| ==> !IsInteger(options[k], "initial_reserve") {
        assert forall k :: 0 <= k < |options| ==> !IsIntegerAtLeast(options[k], "initial_reserve", 0);
      }
      if forall k :: 0 <= k < |options| ==> !IsInteger(options[k], "initial_circulation") {
        assert forall k :: 0 <= k < |options| ==> !IsIntegerAtLeast(options[k], "initial_circulation", 0);
      }
    }
  }

  /** A negative initial value leaves the value parsed before it in place. */
  lemma {:induction false} NegativeInitialIgnored(options: seq<CommandOption>, o: CommandOption)
    requires o.name == "initial_circulation" || o.name == "initial_reserve"
    requires o.resolved.Some? && o.resolved.value.IntegerValue? && o.resolved.value.n < 0
    ensures CreateOptions(options + [o]) == CreateOptions(options)
  {
    LastStringStep(options, o, "code");
    LastStringStep(options, o, "name");
    LastStringStep(options, o, "state");
    LastIntegerAtLeastStep(options, o, "initial_reserve", 0);
    LastIntegerAtLeastStep(options, o, "initial_circulation", 0);
  }

  /** The currency a command asks for, or the handler's error for a command that does not
      parse. */
  function CreateRequest(data: CommandInteraction): Result<NewCurrency, string> {
    match GetOptions(data.options)
    case Err(e) => Err("Error while getting options from command data: " + Quoted(e))
    case Ok(options) =>
      match CreateOptions(options)
      case Err(e) => Err("Error while parsing options: " + Quoted(e))
      case Ok(c) => Ok(c)
  }

  /** The public announcement of a new currency, from the row the ledger stored. */
  function Announcement(user: User, c: CurrencyData): (r: Response)
    ensures !r.interactive && !r.ephemeral
    ensures GetText(r) == CurrencyCreated(user, c.currencyName, c.state, c.currencyCode, c.circulation, c.reserves)
  {
    TextResponse(CurrencyCreated(user, c.currencyName, c.state, c.currencyCode, c.circulation, c.reserves))
  }

  /** `handle_application_command`: a parsed command stores the currency with the invoking
      user as its owner (circulation and reserves in their own columns) and announces the
      stored row; a code already in use is refused and nothing changes. */
  method HandleCommand(data: CommandInteraction, ledger: L.Ledger) returns (r: Result<Response, string>)
    requires ledger.Valid()
    modifies ledger
    ensures ledger.Valid()
    ensures CreateRequest(data).Err? ==> r == Err(CreateRequest(data).error) && unchanged(ledger)
    ensures CreateRequest(data).Ok? ==>
      var c := CreateRequest(data).value;
      (r.Ok? <==> !L.HasCode(old(ledger.currencies), c.code) && L.InI64(c.reserves) && L.InI64(c.circulation)) &&
      (r.Err? ==> unchanged(ledger) &&
                  r.error == "Error adding currency to database: " +
                             L.Describe(if L.InI64(c.reserves) && L.InI64(c.circulation) then L.UniqueViolation
                                        else L.NumericOutOfRange)) &&
      (r.Ok? ==>
        var stored := ledger.GetCurrencyData(c.code);
        stored.Ok? && stored.value.currencyId !in old(ledger.currencies) &&
        ledger.currencies == old(ledger.currencies)[stored.value.currencyId :=
          L.CurrencyRow(c.code, c.name, c.state, c.circulation, c.reserves, data.user.name)] &&
        stored.value.owner == data.user.name &&
        r.value == Announcement(data.user, stored.value) &&
        ledger.transactions == old(ledger.transactions) && ledger.records == old(ledger.records))
  {
    var options: seq<CommandOption>;
    match GetOptions(data.options) {
      case Err(e) => return Err("Error while getting options from command data: " + Quoted(e));
      case Ok(o) => options := o;
    }
    var parsed := ParseCreateOptions(options);
    var c: NewCurrency;
    match parsed {
      case Err(e) => return Err("Error while parsing options: " + Quoted(e));
      case Ok(p) => c := p;
    }
    var added := ledger.AddCurrency(c.code, c.name, c.circulation, c.reserves, c.state, data.user.name);
    match added {
      case Err(e) => return Err("Error adding currency to database: " + L.Describe(e));
      case Ok(stored) =>
        assert ledger.currencies[stored.currencyId].code == c.code;
        assert ledger.GetCurrencyData(c.code).value.currencyId == stored.currencyId;
        r := Ok(Announcement(data.user, stored));
    }
  }
}
