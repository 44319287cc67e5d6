/**
 * `POST /` of the milk-entry router: record one delivery of milk in the ledger
 * of the customer with the given phone. The year summary and, inside it, the
 * month summary of the entry's date are found or created, the entry is
 * appended to the month, and the month totals, the year totals and the
 * current-month snapshot are bumped.
 */
module MilkEntryRoute {
  import opened Common
  import opened CustomerModel
  import opened CustomerStore

  /** The request body; the date arrives already split into its local year and month. */
  datatype MilkEntryRequest = MilkEntryRequest(
    phone: string,
    date: Option<EntryDate>,
    quantity: Option<real>,
    fatContent: Option<real>,
    pricePerLiter: Option<real>,
    shift: Option<string>,
    notes: Option<string>)

  datatype MilkEntryResponse =
    | CustomerNotFound
    | SaveFailed
    | EntryAdded(monthSummary: MonthSummary)
  {
    function Status(): int {
      match this
      case CustomerNotFound => 404
      case SaveFailed => 500
      case EntryAdded(_) => 201
    }
  }

  /** JavaScript truthiness of an optional number: absent and 0 are both falsy. */
  predicate Truthy(x: Option<real>) {
    x.Some? && x.value != 0.0
  }

  /** `pricePerLiter || customer.milkSettings.defaultPricePerLiter` */
  function EntryPrice(pricePerLiter: Option<real>, settings: MilkSettings): real {
    if Truthy(pricePerLiter) then pricePerLiter.value else settings.defaultPricePerLiter
  }

  /**
   * The entry the handler pushes, or None when `customer.save()` rejects it:
   * the date or the quantity is missing, the shift names no shift, or a value
   * breaks the entry schema's bounds.
   */
  function BuildEntry(req: MilkEntryRequest, settings: MilkSettings): (r: Option<MilkEntry>)
    ensures r.Some? ==> ValidEntry(r.value)
    ensures r.Some? ==> && req.date == Some(r.value.date)
                        && req.quantity == Some(r.value.quantity)
                        && r.value.fatContent == req.fatContent
                        && r.value.notes == req.notes
                        && CastShift(req.shift) == Some(r.value.shift)
                        && !r.value.verified
    ensures r.Some? && Truthy(req.pricePerLiter) ==> r.value.pricePerLiter == req.pricePerLiter.value
    ensures r.Some? && !Truthy(req.pricePerLiter) ==> r.value.pricePerLiter == settings.defaultPricePerLiter
    ensures r.Some? ==> r.value.totalAmount == r.value.quantity * r.value.pricePerLiter
    ensures r.None? <==>
              || req.date.None? || req.quantity.None? || CastShift(req.shift).None?
              || req.quantity.value < 0.0
              || (req.fatContent.Some? && !(0.0 <= req.fatContent.value <= 10.0))
              || EntryPrice(req.pricePerLiter, settings) < 0.0
              || req.quantity.value * EntryPrice(req.pricePerLiter, settings) < 0.0
  {
    if req.date.None? || req.quantity.None? || CastShift(req.shift).None? then None
    else
      var price := EntryPrice(req.pricePerLiter, settings);
      var q := req.quantity.value;
      var e := MilkEntry(req.date.value, q, req.fatContent, price, q * price,
                         CastShift(req.shift).value, req.notes, false);
      if ValidEntry(e) then Some(e) else None
  }

  // ---------------------------------------------------------------- find-or-create

  /** `years.find(y => y.year === year)`, as a position. */
  function FindYear(years: seq<YearSummary>, year: int): (r: Option<nat>)
    ensures r.Some? ==> r.value < |years| && years[r.value].year == year
    ensures r.Some? ==> forall j :: 0 <= j < r.value ==> years[j].year != year
    ensures r.None? ==> forall j :: 0 <= j < |years| ==> years[j].year != year
  {
    FindFirst(years, (y: YearSummary) => y.year == year)
  }

  /** `months.find(m => m.month === month)`, as a position. */
  function FindMonth(months: seq<MonthSummary>, month: int): (r: Option<nat>)
    ensures r.Some? ==> r.value < |months| && months[r.value].month == month
    ensures r.Some? ==> forall j :: 0 <= j < r.value ==> months[j].month != month
    ensures r.None? ==> forall j :: 0 <= j < |months| ==> months[j].month != month
  {
    FindFirst(months, (m: MonthSummary) => m.month == month)
  }

  /** A position holding `year` with no earlier one holding it is what FindYear finds. */
  lemma FindYearAt(years: seq<YearSummary>, year: int, i: nat)
    requires i < |years| && years[i].year == year
    requires forall j :: 0 <= j < i ==> years[j].year != year
    ensures FindYear(years, year) == Some(i)
  {
  }

  lemma FindMonthAt(months: seq<MonthSummary>, month: int, i: nat)
    requires i < |months| && months[i].month == month
    requires forall j :: 0 <= j < i ==> months[j].month != month
    ensures FindMonth(months, month) == Some(i)
  {
  }

  /** Lines 34-44: the year list, with a fresh summary for `year` appended if none had it. */
  function WithYear(years: seq<YearSummary>, year: int): seq<YearSummary> {
    if FindYear(years, year).None? then years + [NewYearSummary(year)] else years
  }

  /** The position of the summary the handler works on in `WithYear(years, year)`. */
  function YearSlot(years: seq<YearSummary>, year: int): (i: nat)
    ensures i < |WithYear(years, year)| && WithYear(years, year)[i].year == year
  {
    match FindYear(years, year)
    case Some(i) => i
    case None => |years|
  }

  /** Lines 47-60: the month list, with a fresh summary for `month` appended if none had it. */
  function WithMonth(months: seq<MonthSummary>, year: int, month: Month): seq<MonthSummary> {
    if FindMonth(months, month).None? then months + [NewMonthSummary(year, month)] else months
  }

  function MonthSlot(months: seq<MonthSummary>, year: int, month: Month): (i: nat)
    ensures i < |WithMonth(months, year, month)| && WithMonth(months, year, month)[i].month == month
  {
    match FindMonth(months, month)
    case Some(i) => i
    case None => |months|
  }

  // ---------------------------------------------------------------- the update

  /** The running mean after a `days`-th value `x`, as lines 79-81 compute it. */
  function RunningAverage(average: real, days: nat, x: real): real
    requires days >= 1
  {
    (average * (days - 1) as real + x) / days as real
  }

  /**
   * Lines 63-82: append the entry and bump the month's totals and day count.
   * The fat average is updated, as written, only for a truthy fat content,
   * and `daysCount` is at least 1 where it divides.
   */
  function CreditMonth(m: MonthSummary, e: MilkEntry): MonthSummary {
    var days := m.daysCount + 1;
    m.(entries := m.entries + [e],
       totalQuantity := m.totalQuantity + e.quantity,
       totalAmount := m.totalAmount + e.totalAmount,
       daysCount := days,
       averageFatContent :=
         if Truthy(e.fatContent)
         then RunningAverage(m.averageFatContent, days, e.fatContent.value)
         else m.averageFatContent)
  }

  /**
   * Lines 85-88: store the credited month at `mi` and bump the year's totals.
   * The month list is non-empty where it divides, since it holds `mi`.
   */
  function CreditYear(y: YearSummary, months: seq<MonthSummary>, mi: nat, m: MonthSummary, e: MilkEntry): YearSummary
    requires mi < |months|
  {
    var total := y.totalQuantity + e.quantity;
    y.(months := months[mi := m],
       totalQuantity := total,
       totalAmount := y.totalAmount + e.totalAmount,
       averageMonthlyQuantity := total / |months| as real)
  }

  /** The ledger after the handler records `e` at time `now`. */
  function RecordEntry(r: MilkRecords, e: MilkEntry, now: Time): MilkRecords {
    var year, month := e.date.year, e.date.month;
    var years := WithYear(r.years, year);
    var yi := YearSlot(r.years, year);
    var months := WithMonth(years[yi].months, year, month);
    var mi := MonthSlot(years[yi].months, year, month);
    var m := CreditMonth(months[mi], e);
    r.(years := years[yi := CreditYear(years[yi], months, mi, m, e)],
       currentMonthTotal := m.totalQuantity,
       currentMonthAmount := m.totalAmount,
       lastUpdated := Some(now))
  }

  // ---------------------------------------------------------------- lookups

  /** The year summary for `year`, as the handler's `find` sees it. */
  function LookupYear(r: MilkRecords, year: int): Option<YearSummary> {
    match FindYear(r.years, year)
    case None => None
    case Some(i) => Some(r.years[i])
  }

  /** The month summary for `year` and `month`, as the handler's two `find`s see it. */
  function LookupMonth(r: MilkRecords, year: int, month: int): Option<MonthSummary> {
    match LookupYear(r, year)
    case None => None
    case Some(y) =>
      match FindMonth(y.months, month)
      case None => None
      case Some(j) => Some(y.months[j])
  }

  /** The summary the entry is credited to, before crediting: the stored one or a fresh one. */
  function MonthBefore(r: MilkRecords, year: int, month: Month): MonthSummary {
    LookupMonth(r, year, month).GetOr(NewMonthSummary(year, month))
  }

  function YearBefore(r: MilkRecords, year: int): YearSummary {
    LookupYear(r, year).GetOr(NewYearSummary(year))
  }

  /** After the update, the two `find`s land on the slots the update wrote. */
  lemma RecordEntrySlots(r: MilkRecords, e: MilkEntry, now: Time)
    ensures var year, month := e.date.year, e.date.month;
            var yi := YearSlot(r.years, year);
            var r' := RecordEntry(r, e, now);
            && FindYear(r'.years, year) == Some(yi)
            && FindMonth(r'.years[yi].months, month) == Some(MonthSlot(WithYear(r.years, year)[yi].months, year, month))
  {
    var year, month := e.date.year, e.date.month;
    var years := WithYear(r.years, year);
    var yi := YearSlot(r.years, year);
    var r' := RecordEntry(r, e, now);
    FindYearAt(r'.years, year, yi);
    var months := WithMonth(years[yi].months, year, month);
    var mi := MonthSlot(years[yi].months, year, month);
    FindMonthAt(r'.years[yi].months, month, mi);
  }

  // ---------------------------------------------------------------- properties

  /**
   * The entry becomes the last entry of its month's summary; that month's
   * totals rise by exactly the entry's quantity and amount and its day count
   * by one; the current-month snapshot equals the updated month's totals.
   */
  lemma RecordEntryCreditsItsMonth(r: MilkRecords, e: MilkEntry, now: Time)
    ensures var year, month := e.date.year, e.date.month;
            var before := MonthBefore(r, year, month);
            var r' := RecordEntry(r, e, now);
            var after := LookupMonth(r', year, month);
            && after.Some?
            && after.value.year == before.year && after.value.month == month
            && after.value.entries == before.entries + [e]
            && after.value.totalQuantity == before.totalQuantity + e.quantity
            && after.value.totalAmount == before.totalAmount + e.totalAmount
            && after.value.daysCount == before.daysCount + 1
            && r'.currentMonthTotal == after.value.totalQuantity
            && r'.currentMonthAmount == after.value.totalAmount
            && r'.lastUpdated == Some(now)
  {
    RecordEntrySlots(r, e, now);
  }

  /**
   * The entry's year summary gains the same quantity and amount, and its month
   * list is never empty afterwards (it grows by one exactly when the month was new).
   */
  lemma RecordEntryCreditsItsYear(r: MilkRecords, e: MilkEntry, now: Time)
    ensures var year, month := e.date.year, e.date.month;
            var before := YearBefore(r, year);
            var after := LookupYear(RecordEntry(r, e, now), year);
            && after.Some?
            && after.value.totalQuantity == before.totalQuantity + e.quantity
            && after.value.totalAmount == before.totalAmount + e.totalAmount
            && |after.value.months| == |before.months| + (if LookupMonth(r, year, month).None? then 1 else 0)
            && |after.value.months| >= 1
  {
    RecordEntrySlots(r, e, now);
  }

  /**
   * A year summary is appended only when none has the entry's year, so the
   * year list grows by at most one; every other year is untouched, and so is
   * every other month of the entry's year.
   */
  lemma RecordEntryTouchesOnlyItsMonth(r: MilkRecords, e: MilkEntry, now: Time)
    ensures var year, month := e.date.year, e.date.month;
            var r' := RecordEntry(r, e, now);
            && |r'.years| == |r.years| + (if FindYear(r.years, year).None? then 1 else 0)
            && (forall k :: 0 <= k < |r.years| && r.years[k].year != year ==> r'.years[k] == r.years[k])
            && (FindYear(r.years, year).None? ==> r'.years[|r.years|].year == year)
            && (FindYear(r.years, year).Some? ==>
                  var i := FindYear(r.years, year).value;
                  && |r'.years[i].months| == |r.years[i].months| + (if FindMonth(r.years[i].months, month).None? then 1 else 0)
                  && forall k :: 0 <= k < |r.years[i].months| && r.years[i].months[k].month != month ==>
                                 r'.years[i].months[k] == r.years[i].months[k])
  {
  }

  /** Crediting a valid entry of the month's own year and month keeps MonthInvariant. */
  lemma CreditMonthKeepsInvariant(m: MonthSummary, e: MilkEntry)
    requires MonthInvariant(m) && ValidEntry(e)
    requires e.date.year == m.year && e.date.month == m.month
    ensures MonthInvariant(CreditMonth(m, e))
  {
    SumAppend(m.entries, e, EntryQuantity);
    SumAppend(m.entries, e, EntryAmount);
  }

  /** The year's totals stay the sums of its months' totals, and months stay unique. */
  lemma CreditYearKeepsInvariant(y: YearSummary, e: MilkEntry, now: Time)
    requires YearInvariant(y) && ValidEntry(e) && y.year == e.date.year
    ensures var months := WithMonth(y.months, y.year, e.date.month);
            var mi := MonthSlot(y.months, y.year, e.date.month);
            YearInvariant(CreditYear(y, months, mi, CreditMonth(months[mi], e), e))
  {
    var month := e.date.month;
    var months := WithMonth(y.months, y.year, month);
    var mi := MonthSlot(y.months, y.year, month);
    var m := CreditMonth(months[mi], e);
    if FindMonth(y.months, month).None? {
      SumAppend(y.months, NewMonthSummary(y.year, month), MonthQuantity);
      SumAppend(y.months, NewMonthSummary(y.year, month), MonthAmount);
    }
    assert Sum(months, MonthQuantity) == y.totalQuantity && Sum(months, MonthAmount) == y.totalAmount;
    CreditMonthKeepsInvariant(months[mi], e);
    SumUpdate(months, mi, m, MonthQuantity);
    SumUpdate(months, mi, m, MonthAmount);
  }

  /** Recording a valid entry keeps the ledger invariant (customer.js's shapes plus the sums). */
  lemma RecordEntryKeepsInvariant(r: MilkRecords, e: MilkEntry, now: Time)
    requires LedgerInvariant(r) && ValidEntry(e)
    ensures LedgerInvariant(RecordEntry(r, e, now))
  {
    var year := e.date.year;
    var years := WithYear(r.years, year);
    var yi := YearSlot(r.years, year);
    assert YearInvariant(years[yi]);
    CreditYearKeepsInvariant(years[yi], e, now);
  }

  // ---------------------------------------------------------------- the handler

  /**
   * Lines 24-93 once the customer is found, step by step as the handler runs
   * them: the result is RecordEntry of the old ledger, and the month summary
   * returned is the entry's month after crediting.
   */
  method UpdateLedger(records: MilkRecords, entry: MilkEntry, now: Time)
    returns (updated: MilkRecords, monthData: MonthSummary)
    ensures updated == RecordEntry(records, entry, now)
    ensures monthData == CreditMonth(MonthBefore(records, entry.date.year, entry.date.month), entry)
  {
    var year, month := entry.date.year, entry.date.month;

    // find or create the year
    var years := records.years;
    var yi: nat;
    match FindYear(years, year) {
      case Some(i) =>
        yi := i;
      case None =>
        years := years + [NewYearSummary(year)];
        yi := |years| - 1;
    }
    assert years == WithYear(records.years, year) && yi == YearSlot(records.years, year);
    var yearData := years[yi];

    // find or create the month
    var months := yearData.months;
    var mi: nat;
    match FindMonth(months, month) {
      case Some(j) =>
        mi := j;
      case None =>
        months := months + [NewMonthSummary(year, month)];
        mi := |months| - 1;
    }
    assert months == WithMonth(yearData.months, year, month) && mi == MonthSlot(yearData.months, year, month);
    monthData := months[mi];
    assert monthData == MonthBefore(records, year, month);
    ghost var credited := CreditMonth(monthData, entry);

    // push the entry and update the month
    monthData := monthData.(entries := monthData.entries + [entry]);
    monthData := monthData.(totalQuantity := monthData.totalQuantity + entry.quantity);
    monthData := monthData.(totalAmount := monthData.totalAmount + entry.totalAmount);
    monthData := monthData.(daysCount := monthData.daysCount + 1);
    if Truthy(entry.fatContent) {
      monthData := monthData.(averageFatContent :=
        RunningAverage(monthData.averageFatContent, monthData.daysCount, entry.fatContent.value));
    }
    assert monthData == credited;
    ghost var creditedYear := CreditYear(yearData, months, mi, monthData, entry);
    months := months[mi := monthData];

    // update the year
    yearData := yearData.(months := months);
    yearData := yearData.(totalQuantity := yearData.totalQuantity + entry.quantity);
    yearData := yearData.(totalAmount := yearData.totalAmount + entry.totalAmount);
    yearData := yearData.(averageMonthlyQuantity := yearData.totalQuantity / |yearData.months| as real);
    assert yearData == creditedYear;
    years := years[yi := yearData];

    // update the current-month snapshot
    updated := records.(
      years := years,
      currentMonthTotal := monthData.totalQuantity,
      currentMonthAmount := monthData.totalAmount,
      lastUpdated := Some(now));
  }

  /**
   * The handler. An unknown phone answers 404 and writes nothing; an entry
   * that `customer.save()` rejects answers 500 and writes nothing; otherwise
   * the customer's ledger becomes RecordEntry of the old one and the updated
   * month summary is returned. Phones stay unique and every ledger keeps its
   * invariant.
   */
  method AddMilkEntry(customers: CustomerCollection, req: MilkEntryRequest, now: Time)
    returns (resp: MilkEntryResponse)
    modifies customers
    ensures FindByPhone(old(customers.docs), req.phone).None? ==>
              resp == CustomerNotFound && customers.docs == old(customers.docs)
    ensures FindByPhone(old(customers.docs), req.phone).Some? ==>
              var i := FindByPhone(old(customers.docs), req.phone).value;
              var c := old(customers.docs)[i];
              match BuildEntry(req, c.milkSettings)
              case None => resp == SaveFailed && customers.docs == old(customers.docs)
              case Some(e) =>
                && customers.docs == old(customers.docs)[i := c.(milkRecords := RecordEntry(c.milkRecords, e, now), updatedAt := now)]
                && resp == EntryAdded(CreditMonth(MonthBefore(c.milkRecords, e.date.year, e.date.month), e))
    ensures PhonesUnique(old(customers.docs)) ==> PhonesUnique(customers.docs)
    ensures |customers.docs| == |old(customers.docs)|
    ensures forall k :: 0 <= k < |customers.docs| && LedgerInvariant(old(customers.docs)[k].milkRecords) ==>
              LedgerInvariant(customers.docs[k].milkRecords)
  {
    var found := FindByPhone(customers.docs, req.phone);
    if found.None? {
      return CustomerNotFound;
    }
    var ci := found.value;
    var customer := customers.docs[ci];

    // save() validates the pushed entry; a rejected document is never written,
    // so the rejection is decided here, before any update is computed.
    var built := BuildEntry(req, customer.milkSettings);
    if built.None? {
      return SaveFailed;
    }
    var entry := built.value;
    var records, monthData := UpdateLedger(customer.milkRecords, entry, now);
    if LedgerInvariant(customer.milkRecords) {
      RecordEntryKeepsInvariant(customer.milkRecords, entry, now);
    }
    var saved := customer.(milkRecords := records, updatedAt := now);
    if PhonesUnique(customers.docs) {
      SamePhoneKeepsUnique(customers.docs, ci, saved);
    }
    customers.docs := customers.docs[ci := saved];
    resp := EntryAdded(monthData);
  }
}
