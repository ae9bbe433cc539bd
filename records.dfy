/** `RecordsHandler` (src/handlers/records.rs): `/currency records` shows a currency's past
    end-of-day records, one table line per record, each labelled by its growth. */
module Records {
  import opened Wrappers
  import opened Types
  import opened Options
  import opened Responses
  import opened Debug
  import L = Ledger

  const NonPositiveNumberMessage: string := "Number cannot be less than or equal to zero"

  /** `parse_options`, declaratively: an integer `number` of zero or less anywhere is refused;
      otherwise the last integer `number` (10 when none) and the last string `code` ("" when
      none). */
  function RecordsOptions(options: seq<CommandOption>): Result<(int, string), string> {
    if SomeIntegerBelow(options, "number", 1) then Err(NonPositiveNumberMessage)
    else Ok((LastInteger(options, "number").GetOr(10), LastString(options, "code").GetOr("")))
  }

  /** The parse loop: options in order, returning at the first number that is not positive. */
  method ParseRecordsOptions(options: seq<CommandOption>) returns (r: Result<(int, string), string>)
    ensures r == RecordsOptions(options)
  {
    var number := 10;
    var code := "";
    for i := 0 to |options|
      invariant !SomeIntegerBelow(options[..i], "number", 1)
      invariant number == LastInteger(options[..i], "number").GetOr(10)
      invariant code == LastString(options[..i], "code").GetOr("")
    {
      var option := options[i];
      LastStringStep(options[..i], option, "code");
      LastIntegerStep(options[..i], option, "number");
      SomeIntegerBelowStep(options[..i], option, "number", 1);
      assert options[..i + 1] == options[..i] + [option];
      if option.name == "number" {
        if option.resolved.Some? && option.resolved.value.IntegerValue? {
          var n := option.resolved.value.n;
          if n > 0 {
            number := n;
          } else {
            SomeIntegerBelowExtends(options, i + 1, "number", 1);
            return Err(NonPositiveNumberMessage);
          }
        }
      } else if option.name == "code" {
        if option.resolved.Some? && option.resolved.value.StringValue? {
          code := option.resolved.value.s;
        }
      }
    }
    assert options[..|options|] == options;
    r := Ok((number, code));
  }

  /** Without options: ten records of the empty code. A parsed number is always positive. */
  lemma {:induction false} RecordsOptionsDefaults(options: seq<CommandOption>)
    ensures RecordsOptions([]) == Ok((10, ""))
    ensures RecordsOptions(options).Ok? ==> RecordsOptions(options).value.0 >= 1
    ensures RecordsOptions(options).Err? <==> exists k :: 0 <= k < |options| && IsInteger(options[k], "number") &&
                                                         options[k].resolved.value.n <= 0
  {
    if RecordsOptions(options).Ok? {
      LastIntegerWithoutSmaller(options, "number", 1);
      LastIntegerAtLeastSpec(options, "number", 1);
    }
  }

  /** How a record's growth is described. */
  function PerformanceOf(growth: int): Performance {
    if growth == 0 then HoldingSteady
    else if growth < 0 then InDecline
    else GainingValue
  }

  /** The colour a record's line is drawn in. */
  function ColourOf(growth: int): Colour {
    if growth == 0 then Bold
    else if growth < 0 then Red
    else Green
  }

  /** Description and colour split growth the same three ways: steady in bold, decline in
      red, gain in green. */
  lemma {:induction false} ColourMatchesPerformance(growth: int)
    ensures PerformanceOf(growth) == HoldingSteady <==> growth == 0
    ensures PerformanceOf(growth) == InDecline <==> growth < 0
    ensures PerformanceOf(growth) == GainingValue <==> growth > 0
    ensures ColourOf(growth) == match PerformanceOf(growth)
                                case HoldingSteady => Bold
                                case InDecline => Red
                                case GainingValue => Green
  {
  }

  /** One table line of a record. */
  function Line(r: RecordData): RecordLine {
    RecordLine(r.recordDate, r.openingValue, r.closingValue, r.deltaValue, PerformanceOf(r.growth), ColourOf(r.growth))
  }

  /** The loop appending one line per record, in the order the records were fetched. */
  method TableLines(records: seq<RecordData>) returns (lines: seq<RecordLine>)
    ensures |lines| == |records|
    ensures forall i :: 0 <= i < |records| ==> lines[i] == Line(records[i])
  {
    lines := [];
    for i := 0 to |records|
      invariant |lines| == i
      invariant forall j :: 0 <= j < i ==> lines[j] == Line(records[j])
    {
      var record := records[i];
      lines := lines + [Line(record)];
    }
  }

  /** The parsed request: the number of records and the code, or the handler's error. */
  function RecordsRequest(data: CommandInteraction): Result<(int, string), string> {
    match GetOptions(data.options)
    case Err(e) => Err("Error while getting options from command data: " + Quoted(e))
    case Ok(options) =>
      match RecordsOptions(options)
      case Err(e) => Err("Error while parsing options: " + Quoted(e))
      case Ok(p) => Ok(p)
  }

  /** The code a command looks up: the parsed code, or "" when parsing failed. */
  function RequestedCode(data: CommandInteraction): string {
    var req := RecordsRequest(data);
    if req.Ok? then req.value.1 else ""
  }

  /** `handle_application_command`, given the lookup of the requested code and the answer of
      `get_reports(number, code)`: a private table with one line per record. */
  function RecordsEffect(data: CommandInteraction, lookup: Result<CurrencyData, L.DbError>,
                         reports: Result<seq<RecordData>, L.DbError>): Result<Response, string>
  {
    match RecordsRequest(data)
    case Err(e) => Err(e)
    case Ok(_) =>
      match lookup
      case Err(e) => Err("Error while getting currency data: " + L.Describe(e))
      case Ok(c) =>
        match reports
        case Err(e) => Err("Error while looking up currency records: " + L.Describe(e))
        case Ok(records) =>
          Ok(Interactive([], RecordTable(c.currencyCode, c.currencyName,
                                         seq(|records|, i requires 0 <= i < |records| => Line(records[i]))), true))
  }

  method HandleCommand(data: CommandInteraction, ledger: L.Ledger, reports: Result<seq<RecordData>, L.DbError>)
    returns (r: Result<Response, string>)
    requires ledger.Valid()
    ensures r == RecordsEffect(data, ledger.GetCurrencyData(RequestedCode(data)), reports)
  {
    var options: seq<CommandOption>;
    match GetOptions(data.options) {
      case Err(e) => return Err("Error while getting options from command data: " + Quoted(e));
      case Ok(o) => options := o;
    }
    var parsed := ParseRecordsOptions(options);
    var code: string;
    match parsed {
      case Err(e) => return Err("Error while parsing options: " + Quoted(e));
      case Ok(p) => code := p.1;
    }
    var currency: CurrencyData;
    match ledger.GetCurrencyData(code) {
      case Err(e) => return Err("Error while getting currency data: " + L.Describe(e));
      case Ok(c) => currency := c;
    }
    var records: seq<RecordData>;
    match reports {
      case Err(e) => return Err("Error while looking up currency records: " + L.Describe(e));
      case Ok(rs) => records := rs;
    }
    var lines := TableLines(records);
    assert lines == seq(|records|, i requires 0 <= i < |records| => Line(records[i]));
    r := Ok(Interactive([], RecordTable(currency.currencyCode, currency.currencyName, lines), true));
  }

  /** A shown table has exactly one line per fetched record, in fetched order, each line
      carrying that record's values and the description of its growth's sign. */
  lemma {:induction false} OneLinePerRecord(data: CommandInteraction, lookup: Result<CurrencyData, L.DbError>,
                         reports: Result<seq<RecordData>, L.DbError>)
    requires RecordsEffect(data, lookup, reports).Ok?
    ensures lookup.Ok? && reports.Ok? && RecordsRequest(data).Ok? && RecordsRequest(data).value.0 >= 1
    ensures var text := GetText(RecordsEffect(data, lookup, reports).value);
            var records := reports.value;
            text.RecordTable? && text.code == lookup.value.currencyCode && |text.lines| == |records| &&
            forall i :: 0 <= i < |records| ==>
              text.lines[i].date == records[i].recordDate &&
              text.lines[i].delta == records[i].deltaValue &&
              (text.lines[i].performance == GainingValue <==> records[i].growth > 0) &&
              (text.lines[i].performance == InDecline <==> records[i].growth < 0)
  {
    RecordsOptionsDefaults(GetOptions(data.options).value);
  }
}
