/** `ViewHandler` (src/handlers/view.rs): `/currency view` shows a currency's details in an
    embed, with the chart of its latest record when there is one. */
module View {
  import opened Wrappers
  import opened Types
  import opened Options
  import opened Responses
  import opened Debug
  import L = Ledger
  import Decimal

  const ImageServer: string := "https://economist-image-server.shuttleapp.rs/"

  /** The number of records the handler asks `get_reports` for. */
  const ReportLimit: int := 1

  /** `parse_options`, declaratively: the last string `code`, which is required. */
  function ViewOptions(options: seq<CommandOption>): (r: Result<string, string>)
    ensures r.Err? <==> forall k :: 0 <= k < |options| ==> !IsString(options[k], "code")
  {
    LastStringSpec(options, "code");
    match LastString(options, "code")
    case None => Err("Couldn't get code from options")
    case Some(code) => Ok(code)
  }

  method ParseViewOptions(options: seq<CommandOption>) returns (r: Result<string, string>)
    ensures r == ViewOptions(options)
  {
    var code: Option<string> := None;
    for i := 0 to |options|
      invariant code == LastString(options[..i], "code")
    {
      var option := options[i];
      LastStringStep(options[..i], option, "code");
      assert options[..i + 1] == options[..i] + [option];
      if option.name == "code" {
        if option.resolved.Some? && option.resolved.value.StringValue? {
          code := Some(option.resolved.value.s);
        }
      }
    }
    assert options[..|options|] == options;
    match code {
      case None => r := Err("Couldn't get code from options");
      case Some(c) => r := Ok(c);
    }
  }

  /** The chart of one record: the currency id and the record id, each printed `{:05}`. */
  function ImagePath(currencyId: int, recordId: int): string {
    ImageServer + ChartKey(currencyId, recordId)
  }

  function ChartKey(currencyId: int, recordId: int): string {
    Decimal.Pad5(currencyId) + "/" + Decimal.Pad5(recordId)
  }

  /** `{:05}` never prints a slash. */
  lemma {:induction false} Pad5HasNoSlash(n: int)
    ensures forall i :: 0 <= i < |Decimal.Pad5(n)| ==> Decimal.Pad5(n)[i] != '/'
  {
    var s := Decimal.Pad5(n);
    if n < 0 {
      assert s == "-" + Decimal.ZeroPad(Decimal.Digits(-n), 4);
      forall i | 0 <= i < |s| ensures s[i] != '/' {
        if i > 0 {
          assert s[i] == Decimal.ZeroPad(Decimal.Digits(-n), 4)[i - 1];
        }
      }
    }
  }

  /** Two strings split at a first slash that neither head contains split the same way. */
  lemma {:induction false} SplitAtSlash(pa: string, pb: string, pc: string, pd: string)
    requires forall i :: 0 <= i < |pa| ==> pa[i] != '/'
    requires forall i :: 0 <= i < |pc| ==> pc[i] != '/'
    requires pa + "/" + pb == pc + "/" + pd
    ensures pa == pc && pb == pd
  {
    var left, right := pa + "/" + pb, pc + "/" + pd;
    SlashAfter(pa, pb);
    SlashAfter(pc, pd);
    if |pa| < |pc| {
      assert false;
    } else if |pc| < |pa| {
      assert false;
    }
    assert pa == left[..|pa|] && pc == right[..|pc|];
    assert pb == left[|pa| + 1..] && pd == right[|pc| + 1..];
  }

  lemma {:induction false} SlashAfter(p: string, q: string)
    ensures (p + "/" + q)[|p|] == '/'
    ensures forall k :: 0 <= k < |p| ==> (p + "/" + q)[k] == p[k]
  {
  }

  /** A common prefix can be dropped. */
  lemma {:induction false} DropPrefix(p: string, x: string, y: string)
    requires p + x == p + y
    ensures x == y
  {
    assert x == (p + x)[|p|..];
    assert y == (p + y)[|p|..];
  }

  /** Equal image paths print equal ids. */
  lemma {:induction false} ImagePathSplits(a: int, b: int, c: int, d: int)
    requires ImagePath(a, b) == ImagePath(c, d)
    ensures Decimal.Pad5(a) == Decimal.Pad5(c) && Decimal.Pad5(b) == Decimal.Pad5(d)
  {
    DropPrefix(ImageServer, ChartKey(a, b), ChartKey(c, d));
    Pad5HasNoSlash(a);
    Pad5HasNoSlash(c);
    SplitAtSlash(Decimal.Pad5(a), Decimal.Pad5(b), Decimal.Pad5(c), Decimal.Pad5(d));
  }

  /** Distinct (currency, record) pairs of 64-bit ids get distinct image paths: the path
      names both ids, and they can be read back from it. */
  lemma {:induction false} ImagePathInjective(a: int, b: int, c: int, d: int)
    requires Decimal.I64Min <= a <= Decimal.I64Max && Decimal.I64Min <= b <= Decimal.I64Max
    requires Decimal.I64Min <= c <= Decimal.I64Max && Decimal.I64Min <= d <= Decimal.I64Max
    ensures ImagePath(a, b) == ImagePath(c, d) <==> a == c && b == d
  {
    if ImagePath(a, b) == ImagePath(c, d) {
      ImagePathSplits(a, b, c, d);
      Decimal.Pad5RoundTrip(a);
      Decimal.Pad5RoundTrip(b);
      Decimal.Pad5RoundTrip(c);
      Decimal.Pad5RoundTrip(d);
    }
  }

  /** The embed for a currency and the records `get_reports` returned: the details always,
      the chart of the first record when there is one, and a warning in place of it when
      there is none. */
  function Details(c: CurrencyData, records: seq<RecordData>): Embed {
    Embed(c.currencyName,
          CurrencyDetails(c.state, c.reserves, c.circulation, c.currencyCode, c.value, records == []),
          if records == [] then None else Some(ImagePath(c.currencyId, records[0].recordId)))
  }

  /** The code a command looks up, or "" when parsing failed. */
  function RequestedCode(data: CommandInteraction): string {
    match GetOptions(data.options)
    case Err(_) => ""
    case Ok(options) => if ViewOptions(options).Ok? then ViewOptions(options).value else ""
  }

  /** `handle_application_command`, given the lookup of the requested code and the answer of
      `get_reports(ReportLimit, code)`. */
  function ViewEffect(data: CommandInteraction, lookup: Result<CurrencyData, L.DbError>,
                      reports: Result<seq<RecordData>, L.DbError>): Result<Response, string>
  {
    match GetOptions(data.options)
    case Err(e) => Err("Error while parsing options: " + Quoted(e))
    case Ok(options) =>
      match ViewOptions(options)
      case Err(e) => Err(e)
      case Ok(_) =>
        match lookup
        case Err(e) => Err("Error getting currency data: " + L.Describe(e))
        case Ok(c) =>
          match reports
          case Err(e) => Err("Error getting records: " + L.Describe(e))
          case Ok(records) => Ok(EmbedResponse(Details(c, records)))
  }

  method HandleCommand(data: CommandInteraction, ledger: L.Ledger, reports: Result<seq<RecordData>, L.DbError>)
    returns (r: Result<Response, string>)
    requires ledger.Valid()
    ensures r == ViewEffect(data, ledger.GetCurrencyData(RequestedCode(data)), reports)
  {
    var options: seq<CommandOption>;
    match GetOptions(data.options) {
      case Err(e) => return Err("Error while parsing options: " + Quoted(e));
      case Ok(o) => options := o;
    }
    var parsed := ParseViewOptions(options);
    var code: string;
    match parsed {
      case Err(e) => return Err(e);
      case Ok(c) => code := c;
    }
    var currency: CurrencyData;
    match ledger.GetCurrencyData(code) {
      case Err(e) => return Err("Error getting currency data: " + L.Describe(e));
      case Ok(c) => currency := c;
    }
    var records: seq<RecordData>;
    match reports {
      case Err(e) => return Err("Error getting records: " + L.Describe(e));
      case Ok(rs) => records := rs;
    }
    var image: Option<string> := None;
    var warning := false;
    if records != [] {
      image := Some(ImagePath(currency.currencyId, records[0].recordId));
    } else {
      warning := true;
    }
    var description := CurrencyDetails(currency.state, currency.reserves, currency.circulation,
                                       currency.currencyCode, currency.value, warning);
    r := Ok(EmbedResponse(Embed(currency.currencyName, description, image)));
  }

  /** A successful view is always a public embed of the looked-up currency; it carries an
      image exactly when a record exists, that image names the currency and the first
      record, and the no-records warning appears exactly when there is no image. */
  lemma {:induction false} ViewIsEmbed(data: CommandInteraction, lookup: Result<CurrencyData, L.DbError>,
                    reports: Result<seq<RecordData>, L.DbError>)
    requires ViewEffect(data, lookup, reports).Ok?
    ensures lookup.Ok? && reports.Ok?
    ensures var r := ViewEffect(data, lookup, reports).value;
            var c := lookup.value;
            r.embed.Some? && !r.interactive && !r.ephemeral &&
            r.embed.value.title == c.currencyName &&
            r.embed.value.description.CurrencyDetails? &&
            r.embed.value.description.code == c.currencyCode &&
            (r.embed.value.image.Some? <==> reports.value != []) &&
            (r.embed.value.description.noRecordsWarning <==> r.embed.value.image.None?) &&
            (reports.value != [] ==> r.embed.value.image == Some(ImagePath(c.currencyId, reports.value[0].recordId)))
  {
  }
}
