/**
 * Validation of the trading-results search filter (schemas.py).
 *
 * `SearchFilterTrading` holds three optional identifiers, each checked
 * against an anchored fixed-length character-class pattern.
 * `SearchFilterTradingDate` extends it with two required dates bounded
 * above by a "today" fixed when the class is defined, and an after-mode
 * model validator that rejects `start_date > end_date`.
 */
module Schemas {
  import opened Base

  // ---------------------------------------------------------------------
  // Anchored patterns of the form ^[class]{n}$
  // ---------------------------------------------------------------------

  /** One range `lo-hi` inside a bracketed character class (`-` alone is `Range('-', '-')`). */
  datatype ClassRange = Range(lo: char, hi: char)

  /** The regular expression `^[ranges]{count}$`. */
  datatype Pattern = Pattern(ranges: seq<ClassRange>, count: nat)

  /** `^[A-Z0-9\-]{4}$` (schemas.py:11) */
  const OilIdPattern := Pattern([Range('A', 'Z'), Range('0', '9'), Range('-', '-')], 4)
  /** `^[A-Z]{1}$` (schemas.py:14) */
  const DeliveryTypePattern := Pattern([Range('A', 'Z')], 1)
  /** `^[A-Z]{3}$` (schemas.py:17) */
  const DeliveryBasisPattern := Pattern([Range('A', 'Z')], 3)

  /** Whether `c` falls in one of the ranges of a character class. */
  function InClass(ranges: seq<ClassRange>, c: char): bool
  {
    if ranges == [] then false
    else (ranges[0].lo <= c <= ranges[0].hi) || InClass(ranges[1..], c)
  }

  /** Whether `s` is exactly `n` characters of the class (the anchored `[class]{n}`). */
  function MatchRepeat(ranges: seq<ClassRange>, n: nat, s: string): bool
  {
    if n == 0 then s == []
    else |s| > 0 && InClass(ranges, s[0]) && MatchRepeat(ranges, n - 1, s[1..])
  }

  /** Whether the whole of `s` matches the pattern. */
  function FullMatch(p: Pattern, s: string): bool
  {
    MatchRepeat(p.ranges, p.count, s)
  }

  /** An anchored class repetition accepts exactly the strings of the right length made of class characters. */
  lemma {:induction false} MatchRepeatIff(ranges: seq<ClassRange>, n: nat, s: string)
    ensures MatchRepeat(ranges, n, s) <==> |s| == n && forall i :: 0 <= i < |s| ==> InClass(ranges, s[i])
    decreases n
  {
    if n > 0 && |s| > 0 {
      MatchRepeatIff(ranges, n - 1, s[1..]);
      if |s| == n && forall i :: 0 <= i < |s| ==> InClass(ranges, s[i]) {
        assert forall i :: 0 <= i < |s[1..]| ==> InClass(ranges, s[1..][i]) by {
          forall i | 0 <= i < |s[1..]| ensures InClass(ranges, s[1..][i]) {
            assert s[1..][i] == s[i + 1];
          }
        }
      }
    }
  }

  // ---------------------------------------------------------------------
  // The identifier rules stated directly, character by character
  // ---------------------------------------------------------------------

  predicate IsUpper(c: char) { 'A' <= c <= 'Z' }
  predicate IsDigit(c: char) { '0' <= c <= '9' }

  /** An oil identifier: four characters, each an upper-case letter, a digit or `-`. */
  predicate ValidOilId(s: string)
  {
    |s| == 4 && forall i :: 0 <= i < |s| ==> IsUpper(s[i]) || IsDigit(s[i]) || s[i] == '-'
  }

  /** A delivery type identifier: exactly one upper-case letter. */
  predicate ValidDeliveryTypeId(s: string)
  {
    |s| == 1 && IsUpper(s[0])
  }

  /** A delivery basis identifier: exactly three upper-case letters. */
  predicate ValidDeliveryBasisId(s: string)
  {
    |s| == 3 && forall i :: 0 <= i < |s| ==> IsUpper(s[i])
  }

  lemma OilIdPatternIff(s: string)
    ensures FullMatch(OilIdPattern, s) <==> ValidOilId(s)
  {
    var ranges := OilIdPattern.ranges;
    forall c: char ensures InClass(ranges, c) <==> IsUpper(c) || IsDigit(c) || c == '-' {
      var rest := [Range('0', '9'), Range('-', '-')];
      assert ranges[1..] == rest && rest[1..] == [Range('-', '-')];
      assert InClass([Range('-', '-')], c) == (c == '-');
      assert InClass(rest, c) == (IsDigit(c) || c == '-');
    }
    MatchRepeatIff(ranges, 4, s);
  }

  lemma DeliveryTypePatternIff(s: string)
    ensures FullMatch(DeliveryTypePattern, s) <==> ValidDeliveryTypeId(s)
  {
    MatchRepeatIff(DeliveryTypePattern.ranges, 1, s);
  }

  lemma DeliveryBasisPatternIff(s: string)
    ensures FullMatch(DeliveryBasisPattern, s) <==> ValidDeliveryBasisId(s)
  {
    MatchRepeatIff(DeliveryBasisPattern.ranges, 3, s);
  }

  // ---------------------------------------------------------------------
  // Requests, validated filters and errors
  // ---------------------------------------------------------------------

  /** The query parameters as received; an absent parameter is `None`. */
  datatype Query = Query(
    oil_id: Option<string>,
    delivery_type_id: Option<string>,
    delivery_basis_id: Option<string>,
    start_date: Option<Date>,
    end_date: Option<Date>)

  /** A validated `SearchFilterTrading`. */
  datatype TradingFilter = TradingFilter(
    oil_id: Option<string>,
    delivery_type_id: Option<string>,
    delivery_basis_id: Option<string>)

  /** A validated `SearchFilterTradingDate`: the base filter's identifiers and the date range. */
  datatype TradingDateFilter = TradingDateFilter(
    ids: TradingFilter,
    start_date: Date,
    end_date: Date)

  /** One failed per-field constraint. */
  datatype FieldError =
    | PatternMismatch(field: string, pattern: Pattern)
    | Missing(field: string)
    | AfterToday(field: string, limit: Date)

  /** A validation failure, surfaced by the request layer as HTTP 422. */
  datatype ValidationError =
      /** Every per-field constraint that failed, in field declaration order. */
    | FieldErrors(errors: seq<FieldError>)
      /** The single error the after-mode model validator raises. */
    | ModelError(loc: seq<string>, msg: string, kind: string)

  /** The error raised when the start of the range lies after its end (schemas.py:31). */
  const RangeError := ModelError(
    ["start_date", "end_date"],
    "Дата начала диапазона не может быть больше даты конца диапазона.",
    "value_error")

  /** The errors of one optional pattern-constrained field: none when absent. */
  function PatternErrors(field: string, p: Pattern, value: Option<string>): seq<FieldError>
  {
    match value
    case None => []
    case Some(s) => if FullMatch(p, s) then [] else [PatternMismatch(field, p)]
  }

  /** The errors of the three identifier fields of `SearchFilterTrading`, in declaration order. */
  function IdentifierErrors(oil_id: Option<string>, delivery_type_id: Option<string>,
                            delivery_basis_id: Option<string>): seq<FieldError>
  {
    PatternErrors("oil_id", OilIdPattern, oil_id)
    + PatternErrors("delivery_type_id", DeliveryTypePattern, delivery_type_id)
    + PatternErrors("delivery_basis_id", DeliveryBasisPattern, delivery_basis_id)
  }

  /** The errors of one required date field bounded above by `today` (`le=today`). */
  function DateErrors(field: string, value: Option<Date>, today: Date): seq<FieldError>
  {
    match value
    case None => [Missing(field)]
    case Some(d) => if d <= today then [] else [AfterToday(field, today)]
  }

  /** An optional identifier is acceptable when absent or when it satisfies its rule. */
  predicate OptionalOk(value: Option<string>, rule: string -> bool)
  {
    value.None? || rule(value.value)
  }

  /** The identifier fields of a query that passed validation are all acceptable. */
  predicate IdentifiersOk(oil_id: Option<string>, delivery_type_id: Option<string>,
                          delivery_basis_id: Option<string>)
  {
    OptionalOk(oil_id, ValidOilId)
    && OptionalOk(delivery_type_id, ValidDeliveryTypeId)
    && OptionalOk(delivery_basis_id, ValidDeliveryBasisId)
  }

  lemma PatternErrorsEmptyIff(field: string, p: Pattern, value: Option<string>, rule: string -> bool)
    requires forall s :: FullMatch(p, s) <==> rule(s)
    ensures PatternErrors(field, p, value) == [] <==> OptionalOk(value, rule)
  {
  }

  lemma {:induction false} IdentifierErrorsEmptyIff(oil_id: Option<string>, delivery_type_id: Option<string>,
                                                   delivery_basis_id: Option<string>)
    ensures IdentifierErrors(oil_id, delivery_type_id, delivery_basis_id) == []
            <==> IdentifiersOk(oil_id, delivery_type_id, delivery_basis_id)
  {
    forall s ensures FullMatch(OilIdPattern, s) <==> ValidOilId(s) { OilIdPatternIff(s); }
    forall s ensures FullMatch(DeliveryTypePattern, s) <==> ValidDeliveryTypeId(s) { DeliveryTypePatternIff(s); }
    forall s ensures FullMatch(DeliveryBasisPattern, s) <==> ValidDeliveryBasisId(s) { DeliveryBasisPatternIff(s); }
    PatternErrorsEmptyIff("oil_id", OilIdPattern, oil_id, ValidOilId);
    PatternErrorsEmptyIff("delivery_type_id", DeliveryTypePattern, delivery_type_id, ValidDeliveryTypeId);
    PatternErrorsEmptyIff("delivery_basis_id", DeliveryBasisPattern, delivery_basis_id, ValidDeliveryBasisId);
  }

  // ---------------------------------------------------------------------
  // The two validators
  // ---------------------------------------------------------------------

  /**
   * `SearchFilterTrading(oil_id=..., delivery_type_id=..., delivery_basis_id=...)`:
   * every failed field is reported; otherwise the values are kept as given.
   */
  function ValidateTrading(oil_id: Option<string>, delivery_type_id: Option<string>,
                           delivery_basis_id: Option<string>): (r: Result<TradingFilter, ValidationError>)
    ensures r.Ok? <==> IdentifiersOk(oil_id, delivery_type_id, delivery_basis_id)
    ensures r.Ok? ==> r.value == TradingFilter(oil_id, delivery_type_id, delivery_basis_id)
    ensures r.Err? ==> r.error.FieldErrors? && r.error.errors != []
  {
    IdentifierErrorsEmptyIff(oil_id, delivery_type_id, delivery_basis_id);
    var errs := IdentifierErrors(oil_id, delivery_type_id, delivery_basis_id);
    if errs != [] then Err(FieldErrors(errs))
    else Ok(TradingFilter(oil_id, delivery_type_id, delivery_basis_id))
  }

  /**
   * `SearchFilterTradingDate(**query)` with `today` the date captured when the
   * class was defined. Field constraints are checked first, all of them,
   * inherited identifiers before the dates; the cross-field check
   * `start_date <= end_date` runs only once every field constraint holds.
   */
  function ValidateTradingDate(q: Query, today: Date): (r: Result<TradingDateFilter, ValidationError>)
    ensures r.Ok? <==>
      IdentifiersOk(q.oil_id, q.delivery_type_id, q.delivery_basis_id)
      && q.start_date.Some? && q.end_date.Some?
      && q.start_date.value <= today && q.end_date.value <= today
      && q.start_date.value <= q.end_date.value
    ensures r.Ok? ==> r.value == TradingDateFilter(
      TradingFilter(q.oil_id, q.delivery_type_id, q.delivery_basis_id),
      q.start_date.value, q.end_date.value)
    ensures r == Err(RangeError) <==>
      IdentifiersOk(q.oil_id, q.delivery_type_id, q.delivery_basis_id)
      && q.start_date.Some? && q.end_date.Some?
      && q.start_date.value <= today && q.end_date.value <= today
      && q.start_date.value > q.end_date.value
    ensures r.Err? && r != Err(RangeError) ==> r.error.FieldErrors? && r.error.errors != []
  {
    IdentifierErrorsEmptyIff(q.oil_id, q.delivery_type_id, q.delivery_basis_id);
    var errs := IdentifierErrors(q.oil_id, q.delivery_type_id, q.delivery_basis_id)
                + DateErrors("start_date", q.start_date, today)
                + DateErrors("end_date", q.end_date, today);
    if errs != [] then Err(FieldErrors(errs))
    else
      var f := TradingDateFilter(
        TradingFilter(q.oil_id, q.delivery_type_id, q.delivery_basis_id),
        q.start_date.value, q.end_date.value);
      ValidateStartEndDate(f)
  }

  /**
   * The model validator `validate_start_end_date`: raises `RangeError` when
   * the range is reversed and otherwise returns the filter unchanged.
   */
  function ValidateStartEndDate(f: TradingDateFilter): (r: Result<TradingDateFilter, ValidationError>)
    ensures r == Ok(f) <==> f.start_date <= f.end_date
    ensures r == Err(RangeError) <==> f.start_date > f.end_date
  {
    if f.start_date > f.end_date then Err(RangeError) else Ok(f)
  }

  /**
   * The date-range filter inherits exactly the base filter's identifier
   * constraints: its identifier errors are the base's, reported first.
   */
  lemma DateFilterInheritsIdentifiers(q: Query, today: Date)
    ensures ValidateTradingDate(q, today).Ok? ==>
      ValidateTrading(q.oil_id, q.delivery_type_id, q.delivery_basis_id)
      == Ok(ValidateTradingDate(q, today).value.ids)
    ensures ValidateTrading(q.oil_id, q.delivery_type_id, q.delivery_basis_id).Err? ==>
      var base := ValidateTrading(q.oil_id, q.delivery_type_id, q.delivery_basis_id).error.errors;
      var derived := ValidateTradingDate(q, today);
      derived.Err? && derived.error.FieldErrors?
      && |base| <= |derived.error.errors| && derived.error.errors[..|base|] == base
  {
  }

  /** An identifier that passed validation is never the empty string, so "supplied" and "truthy" coincide. */
  lemma ValidatedIdentifiersNonEmpty(q: Query, today: Date)
    requires ValidateTradingDate(q, today).Ok?
    ensures var ids := ValidateTradingDate(q, today).value.ids;
      (ids.oil_id.Some? ==> ids.oil_id.value != "")
      && (ids.delivery_type_id.Some? ==> ids.delivery_type_id.value != "")
      && (ids.delivery_basis_id.Some? ==> ids.delivery_basis_id.value != "")
  {
  }

  // ---------------------------------------------------------------------
  // The upper date bound: fixed when the class is defined
  // ---------------------------------------------------------------------

  /**
   * As written, `le=date.today()` is evaluated once, when the module defining
   * the class is imported: every later request is checked against the day
   * the server process started.
   */
  function ValidateAsWritten(startedOn: Date, requestDay: Date, q: Query): (r: Result<TradingDateFilter, ValidationError>)
    requires startedOn <= requestDay
    ensures r.Ok? ==> r.value.start_date <= r.value.end_date <= startedOn
    ensures r.Ok? && startedOn < requestDay ==> r.value.end_date < requestDay
  {
    ValidateTradingDate(q, startedOn)
  }

  /**
   * On a server started the day before, a request for the current day,
   * which is not in the future, is rejected.
   */
  lemma StaleTodayRejectsCurrentDay(startedOn: Date)
    requires startedOn as int < MaxOrdinal
    ensures var requestDay := startedOn + 1;
      var q := Query(None, None, None, Some(startedOn), Some(requestDay));
      ValidateAsWritten(startedOn, requestDay, q)
        == Err(FieldErrors([AfterToday("end_date", startedOn)]))
  {
    var requestDay := startedOn + 1;
    assert IdentifierErrors(None, None, None) == [];
    assert DateErrors("start_date", Some(startedOn), startedOn) == [];
    assert DateErrors("end_date", Some(requestDay), startedOn) == [AfterToday("end_date", startedOn)];
    var q := Query(None, None, None, Some(startedOn), Some(requestDay));
    var errs := IdentifierErrors(q.oil_id, q.delivery_type_id, q.delivery_basis_id)
                + DateErrors("start_date", q.start_date, startedOn)
                + DateErrors("end_date", q.end_date, startedOn);
    assert errs == [AfterToday("end_date", startedOn)];
    assert ValidateTradingDate(q, startedOn) == Err(FieldErrors(errs));
  }

  /**
   * As evidently intended: dates are bounded by the day the request is
   * validated on.
   */
  function ValidateOnRequestDay(requestDay: Date, q: Query): (r: Result<TradingDateFilter, ValidationError>)
    ensures r.Ok? ==> r.value.start_date <= r.value.end_date <= requestDay
  {
    ValidateTradingDate(q, requestDay)
  }

  /**
   * With the bound taken on the request day, every well-formed range that
   * does not reach past that day is accepted, and the intended validator
   * accepts everything the as-written one accepts.
   */
  lemma RequestDayBoundAcceptsPastRanges(startedOn: Date, requestDay: Date, q: Query)
    requires startedOn <= requestDay
    ensures IdentifiersOk(q.oil_id, q.delivery_type_id, q.delivery_basis_id)
            && q.start_date.Some? && q.end_date.Some?
            && q.start_date.value <= q.end_date.value <= requestDay
            ==> ValidateOnRequestDay(requestDay, q).Ok?
    ensures ValidateAsWritten(startedOn, requestDay, q).Ok? ==>
            ValidateOnRequestDay(requestDay, q) == ValidateAsWritten(startedOn, requestDay, q)
  {
  }
}
