/** `list_currencies` (src/commands/query.rs:49-80): at most `number` rows of an ordered
    query, reversed for the numeric sorts. The database stream is given as the rows it
    yields, in order, and the error (if any) it raises once those rows are exhausted. */
module Query {
  import opened Wrappers
  import opened Types

  /** The column a sort orders the query by. */
  function OrderColumn(sort: CurrencySort): string {
    match sort
    case Name => "currency_name"
    case CurrencyCode => "currency_code"
    case State => "state"
    case Reserves => "reserves"
    case Circulation => "circulation"
    case Value => "value"
  }

  /** Every sort orders by its own column. */
  lemma {:induction false} OrderColumnInjective(a: CurrencySort, b: CurrencySort)
    ensures OrderColumn(a) == OrderColumn(b) <==> a == b
  {
  }

  /** The numeric sorts insert each row at the front of the result. */
  predicate FrontInserted(sort: CurrencySort) {
    sort == Reserves || sort == Circulation || sort == Value
  }

  function Reverse<T>(s: seq<T>): (r: seq<T>)
    ensures |r| == |s|
  {
    if s == [] then [] else Reverse(s[1..]) + [s[0]]
  }

  /** The fetched rows as the loop leaves them: reversed for numeric sorts, as fetched otherwise. */
  function Arranged(sort: CurrencySort, rows: seq<CurrencyData>): (r: seq<CurrencyData>)
    ensures |r| == |rows|
  {
    if FrontInserted(sort) then Reverse(rows) else rows
  }

  /** What a listing returns: the first `number` rows when the stream holds more than
      `number`; otherwise the stream's error if it raises one, or all its rows. */
  function Listing(number: int, sort: CurrencySort, rows: seq<CurrencyData>, failure: Option<string>)
    : Result<seq<CurrencyData>, string>
  {
    if 0 <= number < |rows| then Ok(Arranged(sort, rows[..number]))
    else if failure.Some? then Err(failure.value)
    else Ok(Arranged(sort, rows))
  }

  /** How many fetched rows a listing keeps. */
  function Cutoff(number: int, available: nat): (k: nat)
    ensures k <= available
    ensures 0 <= number ==> k <= number
  {
    if 0 <= number < available then number else available
  }

  /** The fetch loop: rows are pulled one by one, the counter stops the loop once `number`
      rows are kept and a further row arrives, and a stream error ends it with that error. */
  method ListCurrencies(number: int, sort: CurrencySort, rows: seq<CurrencyData>, failure: Option<string>)
    returns (r: Result<seq<CurrencyData>, string>)
    ensures r == Listing(number, sort, rows, failure)
  {
    var currencies: seq<CurrencyData> := [];
    var i := 0;
    var next := 0;
    while true
      invariant 0 <= next <= |rows| && i == next
      invariant 0 <= number ==> i <= number
      invariant currencies == Arranged(sort, rows[..next])
      decreases |rows| - next
    {
      if next == |rows| {
        if failure.Some? {
          return Err(failure.value);
        }
        break;
      }
      var data := rows[next];
      next := next + 1;
      if i == number {
        assert rows[..number] == rows[..next - 1];
        return Ok(currencies);
      }
      if FrontInserted(sort) {
        ReverseSnoc(rows[..next - 1], data);
        currencies := [data] + currencies;
      } else {
        currencies := currencies + [data];
      }
      assert rows[..next] == rows[..next - 1] + [data];
      i := i + 1;
    }
    assert rows[..next] == rows;
    return Ok(currencies);
  }

  lemma {:induction false} ReverseSnoc<T>(s: seq<T>, x: T)
    ensures Reverse(s + [x]) == [x] + Reverse(s)
  {
    if s != [] {
      assert (s + [x])[1..] == s[1..] + [x];
      ReverseSnoc(s[1..], x);
    }
  }

  lemma {:induction false} ReverseIndex<T>(s: seq<T>)
    ensures forall j :: 0 <= j < |s| ==> Reverse(s)[j] == s[|s| - 1 - j]
  {
    if s != [] {
      ReverseIndex(s[1..]);
    }
  }

  lemma {:induction false} ReverseMultiset<T>(s: seq<T>)
    ensures multiset(Reverse(s)) == multiset(s)
  {
    if s != [] {
      ReverseMultiset(s[1..]);
      assert s == [s[0]] + s[1..];
    }
  }

  /** A successful listing keeps at most `number` rows when `number` is not negative, and
      every row of the stream when it is. */
  lemma {:induction false} ListingBound(number: int, sort: CurrencySort, rows: seq<CurrencyData>, failure: Option<string>)
    ensures Listing(number, sort, rows, failure).Ok? ==>
              |Listing(number, sort, rows, failure).value| == Cutoff(number, |rows|)
    ensures 0 <= number && Listing(number, sort, rows, failure).Ok? ==>
              |Listing(number, sort, rows, failure).value| <= number
    ensures number < 0 && failure.None? ==> Listing(number, sort, rows, failure) == Ok(Arranged(sort, rows))
  {
  }

  /** A successful listing is a permutation of a prefix of the fetched rows: nothing is
      duplicated and nothing before the cutoff is lost. */
  lemma {:induction false} ListingIsPermutedPrefix(number: int, sort: CurrencySort, rows: seq<CurrencyData>, failure: Option<string>)
    requires Listing(number, sort, rows, failure).Ok?
    ensures multiset(Listing(number, sort, rows, failure).value) == multiset(rows[..Cutoff(number, |rows|)])
  {
    var prefix := rows[..Cutoff(number, |rows|)];
    assert Listing(number, sort, rows, failure).value == Arranged(sort, prefix) by {
      assert rows[..|rows|] == rows;
    }
    if FrontInserted(sort) {
      ReverseMultiset(prefix);
    }
  }

  /** Numeric sorts return the kept rows last-fetched first; the other sorts keep fetch order. */
  lemma {:induction false} ListingOrder(number: int, sort: CurrencySort, rows: seq<CurrencyData>, failure: Option<string>)
    requires Listing(number, sort, rows, failure).Ok?
    ensures var r := Listing(number, sort, rows, failure).value;
            var k := Cutoff(number, |rows|);
            (FrontInserted(sort) ==> forall j :: 0 <= j < k ==> r[j] == rows[k - 1 - j]) &&
            (!FrontInserted(sort) ==> r == rows[..k])
  {
    var k := Cutoff(number, |rows|);
    assert rows[..|rows|] == rows;
    ReverseIndex(rows[..k]);
  }

  /** The numeric key the database orders a numeric sort by. */
  function NumericKey(sort: CurrencySort, c: CurrencyData): real
    requires FrontInserted(sort)
  {
    match sort
    case Reserves => c.reserves as real
    case Circulation => c.circulation as real
    case Value => c.value
  }

  predicate Ascending(sort: CurrencySort, rows: seq<CurrencyData>)
    requires FrontInserted(sort)
  {
    forall i, j :: 0 <= i < j < |rows| ==> NumericKey(sort, rows[i]) <= NumericKey(sort, rows[j])
  }

  predicate Descending(sort: CurrencySort, rows: seq<CurrencyData>)
    requires FrontInserted(sort)
  {
    forall i, j :: 0 <= i < j < |rows| ==> NumericKey(sort, rows[i]) >= NumericKey(sort, rows[j])
  }

  /** Fed the ascending order the query asks the database for, a numeric sort lists the
      first `number` currencies of that order from largest to smallest. */
  lemma {:induction false} NumericListingDescends(number: int, sort: CurrencySort, rows: seq<CurrencyData>, failure: Option<string>)
    requires FrontInserted(sort) && Ascending(sort, rows)
    requires Listing(number, sort, rows, failure).Ok?
    ensures Descending(sort, Listing(number, sort, rows, failure).value)
  {
    var r := Listing(number, sort, rows, failure).value;
    var k := Cutoff(number, |rows|);
    ListingOrder(number, sort, rows, failure);
    forall i, j | 0 <= i < j < |r|
      ensures NumericKey(sort, r[i]) >= NumericKey(sort, r[j])
    {
      assert r[i] == rows[k - 1 - i] && r[j] == rows[k - 1 - j];
    }
  }

  /** A stream error raised before the cutoff is reached aborts the listing with that error. */
  lemma {:induction false} StreamErrorAborts(number: int, sort: CurrencySort, rows: seq<CurrencyData>, e: string)
    ensures Listing(number, sort, rows, Some(e)) == Err(e) <==> number < 0 || |rows| <= number
  {
  }
}
