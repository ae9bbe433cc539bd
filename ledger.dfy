/** The ledger repository: the three tables of the schema (src/main.rs:552-596) held as maps
    from generated id to row, with the writes and the point lookup the bot performs.
    The SQL bodies are not part of this model; each method follows the schema's constraints:
    unique currency codes, foreign keys that cascade on delete, generated value, delta and
    growth columns, BIGSERIAL ids and BIGINT columns. */
module Ledger {
  import opened Wrappers
  import opened Types
  import opened Schema
  import Decimal
  import Debug

  /** The errors the database reports to the bot. */
  datatype DbError =
    | RowNotFound
    | UniqueViolation        // SQLSTATE 23505
    | ForeignKeyViolation
    | NumericOutOfRange
    | Protocol(message: string)

  /** The `{:?}` rendering of an error as it appears in the bot's messages. */
  function Describe(e: DbError): string {
    match e
    case RowNotFound => "RowNotFound"
    case UniqueViolation => "Database(unique_violation)"
    case ForeignKeyViolation => "Database(foreign_key_violation)"
    case NumericOutOfRange => "Database(numeric_value_out_of_range)"
    case Protocol(m) => "Protocol(" + Debug.Quoted(m) + ")"
  }

  /** A stored `currencies` row; `value` is generated on read. */
  datatype CurrencyRow = CurrencyRow(code: string, name: string, state: string,
                                     circulation: int, reserves: int, owner: string)

  /** A row after `modify_currency_meta`: the field's column holds the new value and every
      other column keeps its old one. */
  function WithMeta(row: CurrencyRow, field: MetaField, value: string): (r: CurrencyRow)
    ensures r.code == (if field == CodeField then value else row.code)
    ensures r.state == (if field == StateField then value else row.state)
    ensures r.name == (if field == NameField then value else row.name)
    ensures r.circulation == row.circulation && r.reserves == row.reserves && r.owner == row.owner
  {
    match field
    case CodeField => row.(code := value)
    case StateField => row.(state := value)
    case NameField => row.(name := value)
  }

  /** A stored `transactions` row. */
  datatype TransactionRow = TransactionRow(date: int, currencyId: int, deltaCirculation: Option<int>,
                                           deltaReserves: Option<int>, initiator: string)

  /** The metadata column a rename touches (ModifyMetaType). */
  datatype MetaField = CodeField | StateField | NameField

  predicate InI64(n: int) {
    Decimal.I64Min <= n <= Decimal.I64Max
  }

  /** No two currencies share a code (`currency_code TEXT NOT NULL UNIQUE`). */
  ghost predicate UniqueCodes(cs: map<int, CurrencyRow>) {
    forall a, b :: a in cs && b in cs && cs[a].code == cs[b].code ==> a == b
  }

  /** The currency-row id whose code is `code`, if any. */
  ghost predicate HasCode(cs: map<int, CurrencyRow>, code: string) {
    exists id :: id in cs && cs[id].code == code
  }

  /** The transactions kept when currency `id` is deleted (ON DELETE CASCADE). */
  function TransactionsWithout(ts: map<int, TransactionRow>, id: int): map<int, TransactionRow> {
    map t | t in ts && ts[t].currencyId != id :: ts[t]
  }

  /** The records kept when currency `id` is deleted (ON DELETE CASCADE). */
  function RecordsWithout(rs: map<int, RecordData>, id: int): map<int, RecordData> {
    map r | r in rs && rs[r].currencyId != id :: rs[r]
  }

  /** A transaction sets exactly one of its two deltas. */
  predicate OneDelta(t: TransactionRow) {
    t.deltaCirculation.Some? != t.deltaReserves.Some?
  }

  class Ledger {
    var currencies: map<int, CurrencyRow>
    var transactions: map<int, TransactionRow>
    var records: map<int, RecordData>
    // the three BIGSERIAL sequences
    var nextCurrencyId: int
    var nextTransactionId: int
    var nextRecordId: int

    ghost predicate Valid()
      reads this
    {
      UniqueCodes(currencies) &&
      1 <= nextCurrencyId && 1 <= nextTransactionId && 1 <= nextRecordId &&
      (forall id :: id in currencies ==> 1 <= id < nextCurrencyId) &&
      (forall t :: t in transactions ==> 1 <= t < nextTransactionId) &&
      (forall r :: r in records ==> 1 <= r < nextRecordId) &&
      (forall t :: t in transactions ==> transactions[t].currencyId in currencies && OneDelta(transactions[t])) &&
      (forall r :: r in records ==> records[r].currencyId in currencies && records[r].recordId == r && RecordDerived(records[r])) &&
      (forall id :: id in currencies ==> InI64(currencies[id].circulation) && InI64(currencies[id].reserves))
    }

    constructor ()
      ensures Valid()
      ensures currencies == map[] && transactions == map[] && records == map[]
    {
      currencies, transactions, records := map[], map[], map[];
      nextCurrencyId, nextTransactionId, nextRecordId := 1, 1, 1;
    }

    /** The row `SELECT * FROM currencies` yields for id, with its generated value. */
    function Read(id: int): (c: CurrencyData)
      reads this
      requires id in currencies
      ensures c.currencyId == id && c.currencyCode == currencies[id].code
      ensures c.value == CurrencyValue(currencies[id].reserves, currencies[id].circulation)
    {
      var row := currencies[id];
      Snapshot(id, row.code, row.name, row.state, row.circulation, row.reserves, row.owner)
    }

    /** `get_currency_data`: the one row whose code matches, or RowNotFound. */
    function GetCurrencyData(code: string): (r: Result<CurrencyData, DbError>)
      reads this
      requires Valid()
      ensures r.Ok? <==> HasCode(currencies, code)
      ensures r.Ok? ==> r.value.currencyId in currencies && currencies[r.value.currencyId].code == code &&
                        r.value == Read(r.value.currencyId)
      ensures r.Err? ==> r.error == RowNotFound
    {
      if exists id :: id in currencies && currencies[id].code == code then
        var id :| id in currencies && currencies[id].code == code;
        Ok(Read(id))
      else
        Err(RowNotFound)
    }

    /** `add_currency`: insert a new currency; a balance outside BIGINT or a code already in
        use is refused and nothing is stored. */
    method AddCurrency(code: string, name: string, circulation: int, reserves: int,
                       state: string, owner: string) returns (r: Result<CurrencyData, DbError>)
      requires Valid()
      modifies this
      ensures Valid()
      ensures !(InI64(circulation) && InI64(reserves)) ==> r == Err(NumericOutOfRange) && unchanged(this)
      ensures InI64(circulation) && InI64(reserves) && HasCode(old(currencies), code) ==>
                r == Err(UniqueViolation) && unchanged(this)
      ensures InI64(circulation) && InI64(reserves) && !HasCode(old(currencies), code) ==>
                r.Ok? && r.value.currencyId !in old(currencies) &&
                currencies == old(currencies)[r.value.currencyId := CurrencyRow(code, name, state, circulation, reserves, owner)] &&
                r.value == Read(r.value.currencyId) &&
                transactions == old(transactions) && records == old(records)
    {
      if !(InI64(circulation) && InI64(reserves)) {
        return Err(NumericOutOfRange);
      }
      if exists id :: id in currencies && currencies[id].code == code {
        return Err(UniqueViolation);
      }
      var id := nextCurrencyId;
      currencies := currencies[id := CurrencyRow(code, name, state, circulation, reserves, owner)];
      nextCurrencyId := nextCurrencyId + 1;
      r := Ok(Read(id));
    }

    /** `remove_currency`: `DELETE ... WHERE currency_code = $1`. Deleting an unknown code
        affects no row and still succeeds; deleting a currency deletes its transactions
        and records with it. */
    method RemoveCurrency(code: string) returns (r: Result<(), DbError>)
      requires Valid()
      modifies this
      ensures Valid() && r == Ok(())
      ensures !HasCode(old(currencies), code) ==> unchanged(this)
      ensures forall id :: id in old(currencies) && old(currencies)[id].code == code ==>
                currencies == old(currencies) - {id} &&
                transactions == TransactionsWithout(old(transactions), id) &&
                records == RecordsWithout(old(records), id)
      ensures !HasCode(currencies, code)
    {
      r := Ok(());
      if exists id :: id in currencies && currencies[id].code == code {
        var id :| id in currencies && currencies[id].code == code;
        currencies := currencies - {id};
        transactions := TransactionsWithout(transactions, id);
        records := RecordsWithout(records, id);
      }
    }

    /** `reserve_modify`: log a reserve transaction and move the currency's reserves by
        `amount`. The currency must exist and the new balance must fit its BIGINT column. */
    method ReserveModify(code: string, amount: int, initiator: string, now: int)
      returns (r: Result<TransactionData, DbError>)
      requires Valid()
      modifies this
      ensures Valid()
      ensures r.Err? ==> unchanged(this)
      ensures !HasCode(old(currencies), code) ==> r == Err(RowNotFound)
      ensures r.Ok? ==>
        var id := old(GetCurrencyData(code)).value.currencyId;
        var row := old(currencies)[id];
        r.value.transactionId !in old(transactions) &&
        r.value.currencyCode == code && r.value.deltaReserves == Some(amount) && r.value.deltaCirculation == None &&
        currencies == old(currencies)[id := row.(reserves := row.reserves + amount)] &&
        transactions == old(transactions)[r.value.transactionId := TransactionRow(now, id, None, Some(amount), initiator)] &&
        records == old(records)
      ensures HasCode(old(currencies), code) ==>
        (r.Ok? <==> InI64(old(GetCurrencyData(code)).value.reserves + amount))
      ensures r.Ok? ==> (GetCurrencyData(code).Ok? &&
                         GetCurrencyData(code).value == Read(old(GetCurrencyData(code)).value.currencyId))
    {
      var found := GetCurrencyData(code);
      if found.Err? {
        return Err(found.error);
      }
      var id := found.value.currencyId;
      var row := currencies[id];
      if !InI64(row.reserves + amount) {
        return Err(NumericOutOfRange);
      }
      var tid := nextTransactionId;
      currencies := currencies[id := row.(reserves := row.reserves + amount)];
      transactions := transactions[tid := TransactionRow(now, id, None, Some(amount), initiator)];
      nextTransactionId := nextTransactionId + 1;
      r := Ok(TransactionData(tid, now, code, Some(amount), None));
      assert currencies[id].code == code;
      assert GetCurrencyData(code).value.currencyId == id;
    }

    /** `circulation_modify`: log a circulation transaction and move the currency's
        circulation by `amount`, under the same conditions as ReserveModify. */
    method CirculationModify(code: string, amount: int, initiator: string, now: int)
      returns (r: Result<TransactionData, DbError>)
      requires Valid()
      modifies this
      ensures Valid()
      ensures r.Err? ==> unchanged(this)
      ensures !HasCode(old(currencies), code) ==> r == Err(RowNotFound)
      ensures r.Ok? ==>
        var id := old(GetCurrencyData(code)).value.currencyId;
        var row := old(currencies)[id];
        r.value.transactionId !in old(transactions) &&
        r.value.currencyCode == code && r.value.deltaCirculation == Some(amount) && r.value.deltaReserves == None &&
        currencies == old(currencies)[id := row.(circulation := row.circulation + amount)] &&
        transactions == old(transactions)[r.value.transactionId := TransactionRow(now, id, Some(amount), None, initiator)] &&
        records == old(records)
      ensures HasCode(old(currencies), code) ==>
        (r.Ok? <==> InI64(old(GetCurrencyData(code)).value.circulation + amount))
      ensures r.Ok? ==> (GetCurrencyData(code).Ok? &&
                         GetCurrencyData(code).value == Read(old(GetCurrencyData(code)).value.currencyId))
    {
      var found := GetCurrencyData(code);
      if found.Err? {
        return Err(found.error);
      }
      var id := found.value.currencyId;
      var row := currencies[id];
      if !InI64(row.circulation + amount) {
        return Err(NumericOutOfRange);
      }
      var tid := nextTransactionId;
      currencies := currencies[id := row.(circulation := row.circulation + amount)];
      transactions := transactions[tid := TransactionRow(now, id, Some(amount), None, initiator)];
      nextTransactionId := nextTransactionId + 1;
      r := Ok(TransactionData(tid, now, code, None, Some(amount)));
      assert currencies[id].code == code;
      assert GetCurrencyData(code).value.currencyId == id;
    }

    /** `modify_currency_meta`: rewrite one metadata column of the currency with code
        `code` and return the updated row. A new code that another currency holds
        violates the unique constraint. */
    method ModifyCurrencyMeta(code: string, field: MetaField, newValue: string)
      returns (r: Result<CurrencyData, DbError>)
      requires Valid()
      modifies this
      ensures Valid()
      ensures r.Err? ==> unchanged(this)
      ensures !HasCode(old(currencies), code) ==> r == Err(RowNotFound)
      ensures HasCode(old(currencies), code) && field == CodeField && newValue != code && HasCode(old(currencies), newValue) ==>
                r == Err(UniqueViolation)
      ensures r.Ok? ==>
        var id := old(GetCurrencyData(code)).value.currencyId;
        var row := old(currencies)[id];
        currencies == old(currencies)[id := WithMeta(row, field, newValue)] &&
        r.value == Read(id) &&
        transactions == old(transactions) && records == old(records)
      ensures HasCode(old(currencies), code) && (field != CodeField || newValue == code || !HasCode(old(currencies), newValue)) ==> r.Ok?
    {
      var found := GetCurrencyData(code);
      if found.Err? {
        return Err(found.error);
      }
      var id := found.value.currencyId;
      var row := currencies[id];
      match field {
        case CodeField =>
          if newValue != code && exists other :: other in currencies && currencies[other].code == newValue {
            return Err(UniqueViolation);
          }
          currencies := currencies[id := row.(code := newValue)];
        case StateField =>
          currencies := currencies[id := row.(state := newValue)];
        case NameField =>
          currencies := currencies[id := row.(name := newValue)];
      }
      r := Ok(Read(id));
    }

    /** `insert_record`: store one end-of-day valuation; delta and growth are generated.
        A currency that no longer exists violates the foreign key. */
    method InsertRecord(currencyId: int, opening: real, closing: real, today: int)
      returns (r: Result<RecordData, DbError>)
      requires Valid()
      modifies this
      ensures Valid()
      ensures currencyId !in old(currencies) ==> r == Err(ForeignKeyViolation) && unchanged(this)
      ensures currencyId in old(currencies) ==>
                r.Ok? && r.value.recordId !in old(records) &&
                r.value == NewRecord(r.value.recordId, today, currencyId, opening, closing) &&
                records == old(records)[r.value.recordId := r.value] &&
                currencies == old(currencies) && transactions == old(transactions)
    {
      if currencyId !in currencies {
        return Err(ForeignKeyViolation);
      }
      var rid := nextRecordId;
      var rec := NewRecord(rid, today, currencyId, opening, closing);
      records := records[rid := rec];
      nextRecordId := nextRecordId + 1;
      r := Ok(rec);
    }

    /** Drop and recreate every table: all currencies, transactions and records are gone. */
    method Recreate() returns (r: Result<(), DbError>)
      requires Valid()
      modifies this
      ensures Valid() && r == Ok(())
      ensures currencies == map[] && transactions == map[] && records == map[]
    {
      currencies, transactions, records := map[], map[], map[];
      r := Ok(());
    }
  }

  /** After a cascade no kept transaction refers to the deleted currency, and every
      transaction of another currency is kept unchanged. */
  lemma {:induction false} CascadeKeepsOthers(ts: map<int, TransactionRow>, rs: map<int, RecordData>, id: int)
    ensures forall t :: t in TransactionsWithout(ts, id) ==> TransactionsWithout(ts, id)[t].currencyId != id
    ensures forall t :: t in ts && ts[t].currencyId != id ==> t in TransactionsWithout(ts, id) && TransactionsWithout(ts, id)[t] == ts[t]
    ensures forall r :: r in RecordsWithout(rs, id) ==> RecordsWithout(rs, id)[r].currencyId != id
    ensures forall r :: r in rs && rs[r].currencyId != id ==> r in RecordsWithout(rs, id) && RecordsWithout(rs, id)[r] == rs[r]
  {
  }
}
