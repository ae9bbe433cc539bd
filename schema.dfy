/** The derived-column rules of the database schema (src/main.rs:552-596).
    Values are reals: the double-precision columns are modelled by exact ratios. */
module Schema {
  import opened Types

  /** Generated column `currencies.value`: 0 when reserves or circulation is not positive,
      otherwise the ratio reserves / circulation. */
  function CurrencyValue(reserves: int, circulation: int): (v: real)
    ensures reserves <= 0 || circulation <= 0 ==> v == 0.0
    ensures reserves > 0 && circulation > 0 ==> v > 0.0 && v * circulation as real == reserves as real
    ensures v >= 0.0
  {
    if reserves <= 0 then 0.0
    else if circulation <= 0 then 0.0
    else reserves as real / circulation as real
  }

  /** Generated column `records.delta_value`. */
  function DeltaValue(opening: real, closing: real): (d: real)
    ensures opening + d == closing
  {
    closing - opening
  }

  /** The sign of a real: -1, 0 or 1. */
  function Sign(x: real): (s: int)
    ensures s == 0 <==> x == 0.0
    ensures s == 1 <==> x > 0.0
    ensures s == -1 <==> x < 0.0
  {
    if x == 0.0 then 0 else if x > 0.0 then 1 else -1
  }

  /** Generated column `records.growth`, computed from `closing - opening` in three cases. */
  function Growth(opening: real, closing: real): (g: int)
    ensures -1 <= g <= 1
    ensures g == 0 <==> opening == closing
    ensures g == 1 <==> closing > opening
    ensures g == -1 <==> closing < opening
  {
    var d := closing - opening;
    if d == 0.0 then 0
    else if d > 0.0 then 1
    else -1
  }

  /** A `currencies` row with its generated value read back. */
  function Snapshot(id: int, code: string, name: string, state: string,
                    circulation: int, reserves: int, owner: string): (c: CurrencyData)
    ensures c.value == CurrencyValue(reserves, circulation)
    ensures c.currencyId == id && c.currencyCode == code && c.owner == owner
    ensures c.circulation == circulation && c.reserves == reserves
  {
    CurrencyData(id, name, code, circulation, reserves, owner, CurrencyValue(reserves, circulation), state)
  }

  /** A stored record obeys the generated-column rules. */
  predicate RecordDerived(r: RecordData) {
    r.deltaValue == DeltaValue(r.openingValue, r.closingValue) &&
    r.growth == Growth(r.openingValue, r.closingValue)
  }

  /** The row `insert_record` stores for a pair of opening and closing values. */
  function NewRecord(recordId: int, date: int, currencyId: int, opening: real, closing: real): (r: RecordData)
    ensures RecordDerived(r)
    ensures r.recordId == recordId && r.recordDate == date && r.currencyId == currencyId
    ensures r.openingValue == opening && r.closingValue == closing
  {
    RecordData(recordId, date, currencyId, opening, closing, DeltaValue(opening, closing), Growth(opening, closing))
  }

  /** In every stored record the growth is the sign of the delta, so it is -1, 0 or 1. */
  lemma {:induction false} GrowthIsSignOfDelta(r: RecordData)
    requires RecordDerived(r)
    ensures r.growth == Sign(r.deltaValue)
    ensures r.growth in {-1, 0, 1}
  {
  }

  /** A two-currency day: A (100 ingots, 50 in circulation) gains
      50 ingots during the day, B (no reserves, 10 in circulation) is untouched. */
  lemma {:induction false} TwoCurrencyDay()
    ensures CurrencyValue(100, 50) == 2.0 && CurrencyValue(150, 50) == 3.0
    ensures CurrencyValue(0, 10) == 0.0
    ensures NewRecord(1, 0, 1, 2.0, 3.0).deltaValue == 1.0 && NewRecord(1, 0, 1, 2.0, 3.0).growth == 1
    ensures NewRecord(2, 0, 2, 0.0, 0.0).deltaValue == 0.0 && NewRecord(2, 0, 2, 0.0, 0.0).growth == 0
  {
  }
}
