/** `ListHandler` (src/handlers/list.rs): `/currency list [number] [sort]` shows a table of
    currencies, the sorted column highlighted in its header. */
module List {
  import opened Wrappers
  import opened Types
  import opened Options
  import opened Responses
  import opened Debug
  import Query

  const NonPositiveNumberMessage: string := "Can't have a negative number of currencies to return."

  /** The sort a `sort` string selects; any string outside the registered choices sorts by
      currency code. */
  function SortNamed(s: string): CurrencySort {
    match s
    case "code" => CurrencyCode
    case "name" => Name
    case "state" => State
    case "reserves" => Reserves
    case "circulation" => Circulation
    case "value" => Value
    case _ => CurrencyCode
  }

  /** The value the command registers for each sort choice. */
  function SortChoice(sort: CurrencySort): string {
    match sort
    case Name => "name"
    case State => "state"
    case CurrencyCode => "code"
    case Reserves => "reserves"
    case Circulation => "circulation"
    case Value => "value"
  }

  const SortChoices: seq<string> := ["name", "state", "code", "reserves", "circulation", "value"]

  /** Every registered choice selects its own sort, and every other string selects the
      currency-code sort. */
  lemma {:induction false} SortNamedChoices(sort: CurrencySort, s: string)
    ensures SortNamed(SortChoice(sort)) == sort
    ensures SortChoice(sort) in SortChoices
    ensures s !in SortChoices ==> SortNamed(s) == CurrencyCode
  {
  }

  /** `parse_options`, declaratively: an integer `number` of zero or less anywhere is refused;
      otherwise the last integer `number` (10 when none) and the sort of the last string
      `sort` (Name when none). A `sort` carrying no string is passed over. */
  function ListOptions(options: seq<CommandOption>): Result<(CurrencySort, int), string> {
    if SomeIntegerBelow(options, "number", 1) then Err(NonPositiveNumberMessage)
    else
      var sort := match LastString(options, "sort")
                  case Some(s) => SortNamed(s)
                  case None => Name;
      Ok((sort, LastInteger(options, "number").GetOr(10)))
  }

  /** The parse loop: options in order, returning at the first number that is not positive. */
  method ParseListOptions(options: seq<CommandOption>) returns (r: Result<(CurrencySort, int), string>)
    ensures r == ListOptions(options)
  {
    var sort := Name;
    var number := 10;
    for i := 0 to |options|
      invariant !SomeIntegerBelow(options[..i], "number", 1)
      invariant sort == match LastString(options[..i], "sort")
                        case Some(s) => SortNamed(s)
                        case None => Name
      invariant number == LastInteger(options[..i], "number").GetOr(10)
    {
      var option := options[i];
      LastStringStep(options[..i], option, "sort");
      LastIntegerStep(options[..i], option, "number");
      SomeIntegerBelowStep(options[..i], option, "number", 1);
      assert options[..i + 1] == options[..i] + [option];
      if option.name == "sort" {
        if option.resolved.Some? && option.resolved.value.StringValue? {
          sort := SortNamed(option.resolved.value.s);
        }
      } else if option.name == "number" {
        if option.resolved.Some? && option.resolved.value.IntegerValue? {
          var num := option.resolved.value.n;
          if num <= 0 {
            SomeIntegerBelowExtends(options, i + 1, "number", 1);
            return Err(NonPositiveNumberMessage);
          }
          number := num;
        }
      }
    }
    assert options[..|options|] == options;
    r := Ok((sort, number));
  }

  /** Without options the listing shows ten currencies by name; a parsed number is always
      positive, and it is the last one given. */
  lemma {:induction false} ListOptionsDefaults(options: seq<CommandOption>)
    ensures ListOptions([]) == Ok((Name, 10))
    ensures ListOptions(options).Ok? ==> ListOptions(options).value.1 >= 1
    ensures ListOptions(options).Ok? && LastInteger(options, "number").Some? ==>
              ListOptions(options).value.1 == LastInteger(options, "number").value
  {
    if ListOptions(options).Ok? {
      LastIntegerWithoutSmaller(options, "number", 1);
      LastIntegerAtLeastSpec(options, "number", 1);
    }
  }

  /** The header's columns, left to right. */
  const Columns: seq<CurrencySort> := [CurrencyCode, Name, State, Reserves, Circulation, Value]

  function Caption(column: CurrencySort): string {
    match column
    case CurrencyCode => "Code"
    case Name => "Currency Name"
    case State => "Nation/State"
    case Reserves => "Gold Reserves"
    case Circulation => "Circulation"
    case Value => "Value"
  }

  /** The table header for a sort: every column under its caption, the sorted one highlighted. */
  function Header(sort: CurrencySort): seq<HeaderCell> {
    seq(|Columns|, i requires 0 <= i < |Columns| => HeaderCell(Caption(Columns[i]), Columns[i] == sort))
  }

  /** Exactly one header column is highlighted, the one of the active sort, and each column
      keeps its caption whatever the sort. */
  lemma {:induction false} ExactlyOneHighlighted(sort: CurrencySort)
    ensures |Header(sort)| == 6
    ensures exists i :: 0 <= i < 6 && Header(sort)[i].highlighted && Columns[i] == sort &&
                        Header(sort)[i].caption == Caption(sort) &&
                        forall j :: 0 <= j < 6 && Header(sort)[j].highlighted ==> j == i
    ensures forall other: CurrencySort, j :: 0 <= j < 6 ==> Header(sort)[j].caption == Header(other)[j].caption
  {
    var i := match sort
             case CurrencyCode => 0
             case Name => 1
             case State => 2
             case Reserves => 3
             case Circulation => 4
             case Value => 5;
    assert Columns[i] == sort;
  }

  /** `handle_application_command`, given the rows the ordered query streams and the error
      (if any) the stream ends with: the private table of the listed currencies. `failure`
      stands for the `{:?}` rendering of that error, which the handler returns as it is. */
  function ListEffect(data: CommandInteraction, rows: seq<CurrencyData>, failure: Option<string>)
    : Result<Response, string>
  {
    match GetOptions(data.options)
    case Err(e) => Err("Error while parsing options: " + Quoted(e))
    case Ok(options) =>
      match ListOptions(options)
      case Err(e) => Err(e)
      case Ok((sort, number)) =>
        match Query.Listing(number, sort, rows, failure)
        case Err(e) => Err(e)
        case Ok(currencies) => Ok(Interactive([], CurrencyTable(Header(sort), currencies), true))
  }

  method HandleCommand(data: CommandInteraction, rows: seq<CurrencyData>, failure: Option<string>)
    returns (r: Result<Response, string>)
    ensures r == ListEffect(data, rows, failure)
  {
    var options: seq<CommandOption>;
    match GetOptions(data.options) {
      case Err(e) => return Err("Error while parsing options: " + Quoted(e));
      case Ok(o) => options := o;
    }
    var parsed := ParseListOptions(options);
    if parsed.Err? {
      return Err(parsed.error);
    }
    var (sort, number) := parsed.value;
    var listed := Query.ListCurrencies(number, sort, rows, failure);
    if listed.Err? {
      return Err(listed.error);
    }
    r := Ok(Interactive([], CurrencyTable(Header(sort), listed.value), true));
  }

  /** A listing shows one row per listed currency in listed order, at most the requested
      number, all taken from the start of the stream, and highlights the requested sort. */
  lemma {:induction false} ListEffectShowsListing(data: CommandInteraction, rows: seq<CurrencyData>, failure: Option<string>)
    requires ListEffect(data, rows, failure).Ok?
    ensures GetOptions(data.options).Ok? && ListOptions(GetOptions(data.options).value).Ok?
    ensures var (sort, number) := ListOptions(GetOptions(data.options).value).value;
            var r := ListEffect(data, rows, failure).value;
            var text := GetText(r);
            r.interactive && r.ephemeral &&
            text.CurrencyTable? && text.header == Header(sort) &&
            Query.Listing(number, sort, rows, failure) == Ok(text.rows) &&
            |text.rows| <= number &&
            multiset(text.rows) == multiset(rows[..Query.Cutoff(number, |rows|)])
  {
    var options := GetOptions(data.options).value;
    var (sort, number) := ListOptions(options).value;
    ListOptionsDefaults(options);
    Query.ListingBound(number, sort, rows, failure);
    Query.ListingIsPermutedPrefix(number, sort, rows, failure);
  }
}
