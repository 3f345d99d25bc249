/**
 * The three-row table of tests/conftest.py and the parametrised cases of
 * tests/test_api.py, as concrete instances of the model's lemmas.
 *
 * Dates are ordinals: 738529 is 2023-01-09, 738602 is 2023-03-23,
 * 738619 is 2023-04-09, 739160 is 2024-10-01 and 739333 is 2025-03-23.
 */
module Fixtures {
  import opened Base
  import opened Schemas
  import opened Routers
  import opened Cache

  const Jan9th2023: Date := 738529
  const Mar23rd2023: Date := 738602
  const Apr9th2023: Date := 738619
  const Oct1st2024: Date := 739160
  const Mar23rd2025: Date := 739333

  const Row1 := TradingResult("A592AKR060F", "Бензин (АИ-92-К5) по ГОСТ, ст. Аксарайская II (ст. отправления)",
                              "A592", "AKR", "ст. Аксарайская II", "F", 1440, 52917120, 19, Jan9th2023)
  const Row2 := TradingResult("A925KIT025A", "Бензин Регуляр-92 (АИ-92-К5), КИНЕФ (самовывоз автотранспортом)",
                              "A925", "KIT", "КИНЕФ", "A", 650, 25165000, 11, Oct1st2024)
  const Row3 := TradingResult("DSC5NVL005A", "ДТ ЕВРО сорт C (ДТ-Л-К5) минус 5, ЛПДС Невская (самовывоз автотранспортом)",
                              "DSC5", "NVL", "ЛПДС Невская", "A", 115, 5819000, 4, Mar23rd2025)
  const Table := [Row1, Row2, Row3]

  /** A dynamics request over the whole fixture range with the given identifiers. */
  function WholeRange(oil_id: Option<string>, delivery_type_id: Option<string>,
                      delivery_basis_id: Option<string>): Query
  {
    Query(oil_id, delivery_type_id, delivery_basis_id, Some(Jan9th2023), Some(Mar23rd2025))
  }

  lemma TableDates()
    ensures TradingDates(Table) == {Jan9th2023, Oct1st2024, Mar23rd2025}
  {
    assert Row1 in Table && Row2 in Table && Row3 in Table;
  }

  /** Limits 1, 2, 3 and 5 give 1, 2, 3 and 3 dates; so does the default limit of 5. */
  lemma LastDatesCounts()
    ensures GetLastTradingDates(Table, Some(1)) == Ok([Mar23rd2025])
    ensures GetLastTradingDates(Table, Some(2)) == Ok([Mar23rd2025, Oct1st2024])
    ensures GetLastTradingDates(Table, Some(3)) == Ok([Mar23rd2025, Oct1st2024, Jan9th2023])
    ensures GetLastTradingDates(Table, Some(5)) == Ok([Mar23rd2025, Oct1st2024, Jan9th2023])
    ensures GetLastTradingDates(Table, None) == Ok([Mar23rd2025, Oct1st2024, Jan9th2023])
  {
    assert Table[1..] == [Row2, Row3] && [Row2, Row3][1..] == [Row3] && [Row3][1..] == [];
    assert DistinctDatesDescending([Row3]) == [Mar23rd2025];
    assert InsertDescending([Mar23rd2025], Oct1st2024) == [Mar23rd2025] + InsertDescending([], Oct1st2024);
    assert DistinctDatesDescending([Row2, Row3]) == [Mar23rd2025, Oct1st2024];
    var two := [Mar23rd2025, Oct1st2024];
    assert two[1..] == [Oct1st2024];
    assert InsertDescending([Oct1st2024], Jan9th2023) == [Oct1st2024] + InsertDescending([], Jan9th2023);
    assert InsertDescending(two, Jan9th2023) == [Mar23rd2025] + InsertDescending([Oct1st2024], Jan9th2023);
    var all := [Mar23rd2025, Oct1st2024, Jan9th2023];
    assert DistinctDatesDescending(Table) == all;
    assert all[..1] == [Mar23rd2025] && all[..2] == two && all[..3] == all;
  }

  /** Over the fixture, the model's selection keeps the rows that satisfy the filter, listed in table order. */
  lemma DynamicsOverTable(f: TradingDateFilter)
    ensures GetDynamics(Table, f) ==
      (if Where(f, Row1) then [Row1] else []) + (if Where(f, Row2) then [Row2] else [])
      + (if Where(f, Row3) then [Row3] else [])
  {
    var last := if Where(f, Row3) then [Row3] else [];
    assert [Row3][1..] == [];
    assert GetDynamics([Row3], f) == last + GetDynamics([], f);
    assert [Row2, Row3][1..] == [Row3];
    assert GetDynamics([Row2, Row3], f) == (if Where(f, Row2) then [Row2] else []) + last;
    assert Table[1..] == [Row2, Row3];
  }

  /** With no identifier, the whole fixture range selects all three rows. */
  lemma DynamicsWholeRange(today: Date)
    requires today >= Mar23rd2025
    ensures ValidateTradingDate(WholeRange(None, None, None), today).Ok?
    ensures GetDynamics(Table, ValidateTradingDate(WholeRange(None, None, None), today).value) == Table
  {
    DynamicsOverTable(ValidateTradingDate(WholeRange(None, None, None), today).value);
  }

  /** Ending the range at 2023-03-23 keeps only the row of 2023-01-09. */
  lemma DynamicsShortRange(today: Date)
    requires today >= Mar23rd2025
    ensures var q := Query(None, None, None, Some(Jan9th2023), Some(Mar23rd2023));
      ValidateTradingDate(q, today).Ok? && GetDynamics(Table, ValidateTradingDate(q, today).value) == [Row1]
  {
    var q := Query(None, None, None, Some(Jan9th2023), Some(Mar23rd2023));
    DynamicsOverTable(ValidateTradingDate(q, today).value);
  }

  /** `oil_id` "A592" narrows the whole range to the row that carries it. */
  lemma DynamicsByOilId(today: Date)
    requires today >= Mar23rd2025
    ensures ValidateTradingDate(WholeRange(Some("A592"), None, None), today).Ok?
    ensures GetDynamics(Table, ValidateTradingDate(WholeRange(Some("A592"), None, None), today).value) == [Row1]
  {
    assert ValidOilId("A592");
    DynamicsOverTable(ValidateTradingDate(WholeRange(Some("A592"), None, None), today).value);
  }

  /** `delivery_type_id` "A" narrows the whole range to the two rows that carry it. */
  lemma DynamicsByDeliveryType(today: Date)
    requires today >= Mar23rd2025
    ensures ValidateTradingDate(WholeRange(None, Some("A"), None), today).Ok?
    ensures GetDynamics(Table, ValidateTradingDate(WholeRange(None, Some("A"), None), today).value) == [Row2, Row3]
  {
    assert ValidDeliveryTypeId("A");
    DynamicsOverTable(ValidateTradingDate(WholeRange(None, Some("A"), None), today).value);
  }

  /** `delivery_basis_id` "AKR" narrows the whole range to the row that carries it. */
  lemma DynamicsByDeliveryBasis(today: Date)
    requires today >= Mar23rd2025
    ensures ValidateTradingDate(WholeRange(None, None, Some("AKR")), today).Ok?
    ensures GetDynamics(Table, ValidateTradingDate(WholeRange(None, None, Some("AKR")), today).value) == [Row1]
  {
    assert ValidDeliveryBasisId("AKR");
    DynamicsOverTable(ValidateTradingDate(WholeRange(None, None, Some("AKR")), today).value);
  }

  /** The rejected dynamics requests: a reversed range and identifiers that break their patterns. */
  lemma RejectedRequests(today: Date)
    requires today >= Mar23rd2025
    ensures ValidateTradingDate(Query(None, None, None, Some(Apr9th2023), Some(Mar23rd2023)), today) == Err(RangeError)
    ensures ValidateTradingDate(WholeRange(Some("A5922"), None, None), today).Err?
    ensures ValidateTradingDate(WholeRange(None, Some("1"), None), today).Err?
    ensures ValidateTradingDate(WholeRange(None, None, Some("AK1R")), today).Err?
  {
    assert !ValidDeliveryTypeId("1");
  }

  /** The identifier filters of the trading-results cases: each valid one is accepted, each malformed one rejected. */
  lemma TradingFilterCases()
    ensures ValidateTrading(Some("A592"), None, None).Ok?
    ensures ValidateTrading(Some("A5922"), None, None).Err?
    ensures ValidateTrading(None, Some("A"), None).Ok?
    ensures ValidateTrading(None, Some("Aa"), None).Err?
    ensures ValidateTrading(None, None, Some("NVL")).Ok?
    ensures ValidateTrading(None, None, Some("NVAL")).Err?
  {
    assert ValidOilId("A592");
    assert ValidDeliveryTypeId("A");
    assert ValidDeliveryBasisId("NVL");
  }

  /** A row with columns oil_id = "A592" and volume = 1440 survives the cache as that dictionary. */
  lemma RowRoundTrip(json: JsonLibrary)
    requires Faithful(json)
    ensures var row := PyRow([Column("oil_id", PyStr("A592")), Column("volume", PyInt(1440))]);
      var dict := PyDict([("oil_id", PyStr("A592")), ("volume", PyInt(1440))]);
      && Decode(json, PyBytes(Encode(json, row))) == Ok(dict)
      && Decode(json, PyBytes(Encode(json, PyList([row, row])))) == Ok(PyList([dict, dict]))
  {
    var row := PyRow([Column("oil_id", PyStr("A592")), Column("volume", PyInt(1440))]);
    var dict := PyDict([("oil_id", PyStr("A592")), ("volume", PyInt(1440))]);
    assert Flatten(row) == dict;
    assert DistinctKeys(dict) && JsonNative(dict);
    RoundTripNative(json, row);
    assert Flatten(PyList([row, row])) == PyList([dict, dict]);
    assert DistinctKeys(PyList([dict, dict])) && JsonNative(PyList([dict, dict]));
    RoundTripNative(json, PyList([row, row]));
  }
}
