/** The end-of-day valuation worker (src/workers/records.rs:12-99).
    One pass of its endless loop is `RecordWorker.Tick`; `Step` is the same pass as a function
    of the worker's state, and the lemmas below are about `Step`. The clock reading, the halt
    message, the currency stream and the outcome of each record insert are inputs. */
module Worker {
  import opened Wrappers
  import opened Types
  import Query

  const NanosPerSecond: nat := 1_000_000_000
  /** Times are nanoseconds since midnight (UTC), the resolution of the clock the loop reads. */
  const DayLength: nat := 24 * 3600 * NanosPerSecond
  const OpeningTime: nat := 6 * 3600 * NanosPerSecond
  const ClosingTime: nat := 18 * 3600 * NanosPerSecond
  /** How many currencies one snapshot asks the database for. */
  const SnapshotLimit: int := 200

  /** The arguments of one `insert_record` call. */
  datatype RecordInsert = RecordInsert(currencyId: int, opening: real, closing: real)

  /** How one pass of the loop ends. `OpeningFetchFailed` and `ClosingFetchFailed` go back to the
      top of the loop without sleeping; `Slept` reports the inserts attempted and those that
      succeeded (both empty unless the market closed on this pass). */
  datatype TickOutcome =
    | Halted
    | OpeningFetchFailed(error: string)
    | ClosingFetchFailed(error: string)
    | Slept(attempted: set<int>, inserted: map<int, RecordInsert>)

  datatype WorkerState = WorkerState(open: bool, opening: map<int, CurrencyData>,
                                     closing: map<int, CurrencyData>, halted: bool)

  /** Every snapshot is stored under its own currency id. */
  predicate Keyed(m: map<int, CurrencyData>) {
    forall id :: id in m ==> m[id].currencyId == id
  }

  /** The snapshot map after storing `rows` in order: each row under its currency id, a later
      row replacing an earlier entry with the same id. */
  function Absorb(m: map<int, CurrencyData>, rows: seq<CurrencyData>): (r: map<int, CurrencyData>)
    ensures Keyed(m) ==> Keyed(r)
    ensures m.Keys <= r.Keys
  {
    if rows == [] then m
    else
      var last := rows[|rows| - 1];
      Absorb(m, rows[..|rows| - 1])[last.currencyId := last]
  }

  /** The inserts a close performs: one per currency id present in both maps whose insert does
      not fail, from the opening snapshot's value to the closing snapshot's value. */
  function Records(opening: map<int, CurrencyData>, closing: map<int, CurrencyData>, failing: set<int>)
    : map<int, RecordInsert>
  {
    RecordsOver(opening.Keys, opening, closing, failing)
  }

  /** The inserts performed for the opening snapshots whose ids are in `ids`. */
  function RecordsOver(ids: set<int>, opening: map<int, CurrencyData>, closing: map<int, CurrencyData>,
                       failing: set<int>): map<int, RecordInsert>
  {
    map id | id in ids && id in opening && id in closing && id !in failing ::
      RecordInsert(id, opening[id].value, closing[id].value)
  }

  /** Visiting one more opening snapshot attempts its id when the closing map has it, and adds
      its insert when that does not fail either. */
  lemma {:induction false} RecordsOverVisit(ids: set<int>, id: int, opening: map<int, CurrencyData>,
                         closing: map<int, CurrencyData>, failing: set<int>)
    requires id in opening
    ensures (ids + {id}) * closing.Keys == if id in closing then ids * closing.Keys + {id} else ids * closing.Keys
    ensures RecordsOver(ids + {id}, opening, closing, failing) ==
            if id in closing && id !in failing
            then RecordsOver(ids, opening, closing, failing)[id := RecordInsert(id, opening[id].value, closing[id].value)]
            else RecordsOver(ids, opening, closing, failing)
  {
  }

  /** The snapshot one fetch yields: the first `SnapshotLimit` currencies in code order. */
  function Fetch(stream: seq<CurrencyData>, streamError: Option<string>): Result<seq<CurrencyData>, string> {
    Query.Listing(SnapshotLimit, CurrencyCode, stream, streamError)
  }

  /** One pass of the loop as a function of the state before it. */
  function Step(s: WorkerState, now: nat, haltPending: bool,
                stream: seq<CurrencyData>, streamError: Option<string>, failing: set<int>)
    : (TickOutcome, WorkerState)
  {
    if haltPending then (Halted, s.(halted := true))
    else if OpeningTime < now < ClosingTime && !s.open then
      match Fetch(stream, streamError)
      case Err(e) => (OpeningFetchFailed(e), s.(open := true))
      case Ok(rows) => (Slept({}, map[]), s.(open := true, opening := Absorb(s.opening, rows)))
    else if now > ClosingTime && s.open then
      match Fetch(stream, streamError)
      case Err(e) => (ClosingFetchFailed(e), s.(open := false))
      case Ok(rows) =>
        var closing := Absorb(s.closing, rows);
        (Slept(s.opening.Keys * closing.Keys, Records(s.opening, closing, failing)),
         s.(open := false, closing := closing))
    else (Slept({}, map[]), s)
  }

  /** Stores fetched rows into a snapshot map, one insert per row. */
  method StoreSnapshot(m: map<int, CurrencyData>, rows: seq<CurrencyData>) returns (r: map<int, CurrencyData>)
    ensures r == Absorb(m, rows)
  {
    r := m;
    for i := 0 to |rows|
      invariant r == Absorb(m, rows[..i])
    {
      assert rows[..i + 1][..i] == rows[..i];
      r := r[rows[i].currencyId := rows[i]];
    }
    assert rows[..|rows|] == rows;
  }

  /** The close's record loop. The opening map is walked in `order`, the order the hash map
      happens to yield its keys: each snapshot is skipped when the closing map has no entry for
      its currency, otherwise a record is inserted; a failed insert is skipped too. */
  method Materialise(opening: map<int, CurrencyData>, closing: map<int, CurrencyData>, failing: set<int>,
                     order: seq<int>)
    returns (attempted: set<int>, inserted: map<int, RecordInsert>)
    requires Keyed(opening)
    requires forall i :: 0 <= i < |order| ==> order[i] in opening
    requires forall id :: id in opening ==> id in order
    ensures attempted == opening.Keys * closing.Keys
    ensures inserted == Records(opening, closing, failing)
  {
    attempted := {};
    inserted := map[];
    ghost var visited: set<int> := {};
    for i := 0 to |order|
      invariant visited == set j | 0 <= j < i :: order[j]
      invariant visited <= opening.Keys
      invariant attempted == visited * closing.Keys
      invariant inserted == RecordsOver(visited, opening, closing, failing)
    {
      var currency := opening[order[i]];
      RecordsOverVisit(visited, order[i], opening, closing, failing);
      visited := visited + {order[i]};
      if currency.currencyId !in closing {
        continue;
      }
      attempted := attempted + {currency.currencyId};
      if currency.currencyId in failing {
        continue;
      }
      inserted := inserted[currency.currencyId :=
        RecordInsert(currency.currencyId, currency.value, closing[currency.currencyId].value)];
    }
    assert visited == opening.Keys by {
      forall id | id in opening ensures id in visited {
        var j :| 0 <= j < |order| && order[j] == id;
      }
    }
  }

  class RecordWorker {
    var open: bool
    var openingData: map<int, CurrencyData>
    var closingData: map<int, CurrencyData>
    /** The receiver was closed and the worker returned. */
    var halted: bool

    ghost predicate Valid()
      reads this
    {
      Keyed(openingData) && Keyed(closingData)
    }

    function State(): WorkerState
      reads this
    {
      WorkerState(open, openingData, closingData, halted)
    }

    /** A new worker: market closed, both maps empty. */
    constructor()
      ensures Valid() && State() == WorkerState(false, map[], map[], false)
    {
      open := false;
      openingData := map[];
      closingData := map[];
      halted := false;
    }

    /** One pass of the loop at time of day `now`; `order` is the order the opening map yields
        its keys in, and the outcome does not depend on it. */
    method Tick(now: nat, haltPending: bool, stream: seq<CurrencyData>, streamError: Option<string>,
                failing: set<int>, order: seq<int>)
      returns (outcome: TickOutcome)
      requires Valid() && !halted && now < DayLength
      requires forall i :: 0 <= i < |order| ==> order[i] in openingData
      requires forall id :: id in openingData ==> id in order
      modifies this
      ensures Valid()
      ensures (outcome, State()) == Step(old(State()), now, haltPending, stream, streamError, failing)
    {
      if haltPending {
        halted := true;
        return Halted;
      }
      if now > OpeningTime && now < ClosingTime && !open {
        open := true;
        var fetched := Query.ListCurrencies(SnapshotLimit, CurrencyCode, stream, streamError);
        match fetched {
          case Err(e) =>
            return OpeningFetchFailed(e);
          case Ok(rows) =>
            openingData := StoreSnapshot(openingData, rows);
        }
      }
      var attempted: set<int> := {};
      var inserted: map<int, RecordInsert> := map[];
      if now > ClosingTime && open {
        open := false;
        var fetched := Query.ListCurrencies(SnapshotLimit, CurrencyCode, stream, streamError);
        match fetched {
          case Err(e) =>
            return ClosingFetchFailed(e);
          case Ok(rows) =>
            closingData := StoreSnapshot(closingData, rows);
        }
        attempted, inserted := Materialise(openingData, closingData, failing, order);
      }
      return Slept(attempted, inserted);
    }
  }
}

/** Properties of the worker, stated over `Worker.Step`. */
module WorkerFacts {
  import opened Wrappers
  import opened Types
  import opened Worker
  import Query
  import Schema

  /** A snapshot map gains the id of every stored row and loses nothing: maps are never cleared,
      so entries from earlier days stay. */
  lemma {:induction false} AbsorbKeys(m: map<int, CurrencyData>, rows: seq<CurrencyData>)
    ensures forall id :: id in Absorb(m, rows) <==>
              id in m || exists k :: 0 <= k < |rows| && rows[k].currencyId == id
  {
    if rows != [] {
      var init := rows[..|rows| - 1];
      AbsorbKeys(m, init);
      forall id ensures id in Absorb(m, rows) <==> id in m || exists k :: 0 <= k < |rows| && rows[k].currencyId == id
      {
        if exists k :: 0 <= k < |init| && init[k].currencyId == id {
          var k :| 0 <= k < |init| && init[k].currencyId == id;
          assert rows[k].currencyId == id;
        }
        if exists k :: 0 <= k < |rows| && rows[k].currencyId == id {
          var k :| 0 <= k < |rows| && rows[k].currencyId == id;
          if k < |init| { assert init[k].currencyId == id; }
        }
      }
    }
  }

  /** The entry for an id is the last stored row with that id, or the earlier entry when no
      row carries it. */
  lemma {:induction false} AbsorbLastWins(m: map<int, CurrencyData>, rows: seq<CurrencyData>, id: int)
    ensures (exists k :: 0 <= k < |rows| && rows[k].currencyId == id) ==>
              id in Absorb(m, rows) &&
              exists k :: 0 <= k < |rows| && rows[k].currencyId == id && Absorb(m, rows)[id] == rows[k] &&
                forall j :: k < j < |rows| ==> rows[j].currencyId != id
    ensures id in m && (forall k :: 0 <= k < |rows| ==> rows[k].currencyId != id) ==>
              id in Absorb(m, rows) && Absorb(m, rows)[id] == m[id]
  {
    if rows != [] {
      var init := rows[..|rows| - 1];
      var last := rows[|rows| - 1];
      AbsorbLastWins(m, init, id);
      AbsorbKeys(m, init);
      AbsorbKeys(m, rows);
      if last.currencyId != id {
        if exists k :: 0 <= k < |rows| && rows[k].currencyId == id {
          var k0 :| 0 <= k0 < |rows| && rows[k0].currencyId == id;
          assert init[k0].currencyId == id;
          var k :| 0 <= k < |init| && init[k].currencyId == id && Absorb(m, init)[id] == init[k] &&
                   forall j :: k < j < |init| ==> init[j].currencyId != id;
          assert rows[k] == init[k];
          assert forall j :: k < j < |rows| ==> rows[j].currencyId != id by {
            forall j | k < j < |rows| ensures rows[j].currencyId != id {
              if j < |init| { assert rows[j] == init[j]; }
            }
          }
        }
        if forall k :: 0 <= k < |rows| ==> rows[k].currencyId != id {
          assert forall k :: 0 <= k < |init| ==> init[k].currencyId != id by {
            forall k | 0 <= k < |init| ensures init[k].currencyId != id { assert init[k] == rows[k]; }
          }
        }
      }
    }
  }

  /** A fetch that succeeds yields at most `SnapshotLimit` currencies, the first ones in code
      order, and an error raised after that many rows is never seen. */
  lemma {:induction false} FetchBound(stream: seq<CurrencyData>, streamError: Option<string>)
    ensures Fetch(stream, streamError).Ok? ==> |Fetch(stream, streamError).value| <= SnapshotLimit
    ensures Fetch(stream, streamError).Ok? ==> Fetch(stream, streamError).value == stream[..Query.Cutoff(SnapshotLimit, |stream|)]
    ensures |stream| > SnapshotLimit ==> Fetch(stream, streamError).Ok?
  {
    Query.ListingBound(SnapshotLimit, CurrencyCode, stream, streamError);
    if Fetch(stream, streamError).Ok? {
      Query.ListingOrder(SnapshotLimit, CurrencyCode, stream, streamError);
    }
  }

  /** A pending halt ends the worker before the clock is read: nothing else changes. */
  lemma {:induction false} HaltComesFirst(s: WorkerState, now: nat, stream: seq<CurrencyData>, streamError: Option<string>, failing: set<int>)
    ensures Step(s, now, true, stream, streamError, failing) == (Halted, s.(halted := true))
  {
  }

  /** At exactly 06:00 or 18:00 a pass changes nothing and fetches nothing. */
  lemma {:induction false} BoundaryTicksChangeNothing(s: WorkerState, now: nat, stream: seq<CurrencyData>, streamError: Option<string>, failing: set<int>)
    requires now == OpeningTime || now == ClosingTime
    ensures Step(s, now, false, stream, streamError, failing) == (Slept({}, map[]), s)
  {
  }

  /** The market opens exactly on a pass strictly between 06:00 and 18:00 while it is closed,
      whether or not the opening fetch succeeds. */
  lemma {:induction false} OpensOnlyDuringTheDay(s: WorkerState, now: nat, stream: seq<CurrencyData>, streamError: Option<string>, failing: set<int>)
    requires now < DayLength
    ensures (!s.open && Step(s, now, false, stream, streamError, failing).1.open) <==>
            (!s.open && OpeningTime < now < ClosingTime)
  {
  }

  /** The market closes exactly on a pass after 18:00 while it is open, whether or not the
      closing fetch succeeds. */
  lemma {:induction false} ClosesOnlyInTheEvening(s: WorkerState, now: nat, stream: seq<CurrencyData>, streamError: Option<string>, failing: set<int>)
    requires now < DayLength
    ensures (s.open && !Step(s, now, false, stream, streamError, failing).1.open) <==>
            (s.open && now > ClosingTime)
  {
  }

  /** The flag is set before the opening fetch: when that fetch fails, every later pass of the
      same day (before 18:00) changes nothing and fetches nothing, so it is not retried. */
  lemma {:induction false} FailedOpeningNotRetried(s: WorkerState, now: nat, later: nat, stream: seq<CurrencyData>, e: string,
                                stream2: seq<CurrencyData>, streamError2: Option<string>, failing: set<int>)
    requires !s.open && OpeningTime < now < ClosingTime && now <= later < ClosingTime
    requires |stream| <= SnapshotLimit
    ensures var (out, s1) := Step(s, now, false, stream, Some(e), failing);
            out == OpeningFetchFailed(e) && s1 == s.(open := true) && s1.opening == s.opening &&
            Step(s1, later, false, stream2, streamError2, failing) == (Slept({}, map[]), s1)
  {
  }

  /** The snapshot maps only grow: every pass keeps every id they held. */
  lemma {:induction false} SnapshotsPersist(s: WorkerState, now: nat, halt: bool, stream: seq<CurrencyData>, streamError: Option<string>, failing: set<int>)
    ensures var s1 := Step(s, now, halt, stream, streamError, failing).1;
            s.opening.Keys <= s1.opening.Keys && s.closing.Keys <= s1.closing.Keys
  {
    if Fetch(stream, streamError).Ok? {
      var rows := Fetch(stream, streamError).value;
      AbsorbKeys(s.opening, rows);
      AbsorbKeys(s.closing, rows);
    }
  }

  /** A successful close attempts an insert for exactly the ids in both maps, inserts all of
      them but the failing ones, and each record runs from the opening snapshot's value to the
      closing snapshot's value. */
  lemma {:induction false} CloseInsertsMatchedIds(s: WorkerState, now: nat, stream: seq<CurrencyData>, failing: set<int>)
    requires s.open && ClosingTime < now
    ensures var (out, s1) := Step(s, now, false, stream, None, failing);
            out.Slept? && !s1.open &&
            out.attempted == s.opening.Keys * s1.closing.Keys &&
            out.inserted.Keys == out.attempted - failing &&
            forall id :: id in out.inserted ==>
              out.inserted[id] == RecordInsert(id, s.opening[id].value, s1.closing[id].value)
  {
  }

  /** An opening snapshot is matched by a closing one for the same id from any earlier day:
      a currency missing from today's closing fetch still gets a record when it was fetched at
      some earlier close. */
  lemma {:induction false} StaleClosingSnapshotIsUsed(s: WorkerState, now: nat, stream: seq<CurrencyData>, id: int)
    requires s.open && ClosingTime < now
    requires id in s.opening && id in s.closing
    requires forall k :: 0 <= k < |stream| ==> stream[k].currencyId != id
    ensures var (out, _) := Step(s, now, false, stream, None, {});
            id in out.inserted && out.inserted[id].closing == s.closing[id].value
  {
    var rows := Fetch(stream, None).value;
    FetchBound(stream, None);
    assert forall k :: 0 <= k < |rows| ==> rows[k].currencyId != id by {
      forall k | 0 <= k < |rows| ensures rows[k].currencyId != id { assert rows[k] == stream[k]; }
    }
    AbsorbLastWins(s.closing, rows, id);
  }

  /** A two-currency day: A (100 ingots, 50 in circulation) gains 50 ingots during the day,
      B (no ingots, 10 in circulation) is untouched; the close inserts A from 2 to 3 and B from
      0 to 0, and the market ends closed. */
  lemma {:induction false} TwoCurrencyDay()
    ensures var a0 := Schema.Snapshot(1, "AAA", "Alpha", "North", 50, 100, "ann");
            var b := Schema.Snapshot(2, "BBB", "Beta", "South", 10, 0, "bob");
            var a1 := Schema.Snapshot(1, "AAA", "Alpha", "North", 50, 150, "ann");
            var s0 := WorkerState(false, map[], map[], false);
            var (o1, s1) := Step(s0, 7 * 3600 * NanosPerSecond, false, [a0, b], None, {});
            var (o2, s2) := Step(s1, 19 * 3600 * NanosPerSecond, false, [a1, b], None, {});
            o1 == Slept({}, map[]) && s1.open &&
            o2 == Slept({1, 2}, map[1 := RecordInsert(1, 2.0, 3.0), 2 := RecordInsert(2, 0.0, 0.0)]) &&
            !s2.open
  {
    var a0 := Schema.Snapshot(1, "AAA", "Alpha", "North", 50, 100, "ann");
    var b := Schema.Snapshot(2, "BBB", "Beta", "South", 10, 0, "bob");
    var a1 := Schema.Snapshot(1, "AAA", "Alpha", "North", 50, 150, "ann");
    assert [a0, b][..2] == [a0, b] && [a1, b][..2] == [a1, b];
    assert Fetch([a0, b], None) == Ok([a0, b]);
    assert Fetch([a1, b], None) == Ok([a1, b]);
    assert [a0, b][..1] == [a0] && [a1, b][..1] == [a1];
    assert [a0][..0] == [] && [a1][..0] == [];
    assert Absorb(map[], [a0]) == map[1 := a0];
    assert Absorb(map[], [a1]) == map[1 := a1];
    var opening := Absorb(map[], [a0, b]);
    assert opening == map[1 := a0, 2 := b];
    var closing := Absorb(map[], [a1, b]);
    assert closing == map[1 := a1, 2 := b];
    assert opening.Keys * closing.Keys == {1, 2};
    assert Records(opening, closing, {}) == map[1 := RecordInsert(1, 2.0, 3.0), 2 := RecordInsert(2, 0.0, 0.0)];
  }
}
