/**
 * The Mongoose `Customer` schema: a customer keyed by phone, with an address,
 * milk settings and a ledger of milk entries grouped into year summaries and,
 * inside those, month summaries. Quantities, prices and amounts are JavaScript
 * numbers and are modelled as `real`.
 */
module CustomerModel {
  import opened Common

  // ---------------------------------------------------------------- enums

  datatype Shift = Morning | Evening | FullDay
  datatype MeasurementUnit = Liter | Kg
  datatype Gender = Male | Female | Other

  /** The string each shift is stored as. */
  function ShiftName(s: Shift): string {
    match s
    case Morning => "morning"
    case Evening => "evening"
    case FullDay => "full-day"
  }

  /**
   * What Mongoose makes of a `shift` value: the default "full-day" when it is
   * absent, the shift it names when it names one, and a validation failure
   * (None) for any other string.
   */
  function CastShift(s: Option<string>): (r: Option<Shift>)
    ensures s.None? ==> r == Some(FullDay)
    ensures s.Some? && r.None? ==> forall sh :: ShiftName(sh) != s.value
    ensures s.Some? && r.Some? ==> ShiftName(r.value) == s.value
  {
    match s
    case None => Some(FullDay)
    case Some(name) =>
      if name == "morning" then Some(Morning)
      else if name == "evening" then Some(Evening)
      else if name == "full-day" then Some(FullDay)
      else None
  }

  // ---------------------------------------------------------------- milk entries

  type Month = m: int | 1 <= m <= 12 witness 1

  /**
   * A parsed entry date: the instant stored with the entry, and the local
   * calendar year and month (1-based) the handler derives from it.
   */
  datatype EntryDate = EntryDate(instant: Time, year: int, month: Month)

  /** One delivery of milk (milkEntrySchema). */
  datatype MilkEntry = MilkEntry(
    date: EntryDate,
    quantity: real,
    fatContent: Option<real>,
    pricePerLiter: real,
    totalAmount: real,
    shift: Shift,
    notes: Option<string>,
    verified: bool)

  /** The bounds milkEntrySchema puts on an entry. */
  predicate ValidEntry(e: MilkEntry) {
    && e.quantity >= 0.0
    && (e.fatContent.Some? ==> 0.0 <= e.fatContent.value <= 10.0)
    && e.pricePerLiter >= 0.0
    && e.totalAmount >= 0.0
  }

  // ---------------------------------------------------------------- summaries

  /** The entries of one calendar month and their running totals. */
  datatype MonthSummary = MonthSummary(
    year: int,
    month: int,
    totalQuantity: real,
    totalAmount: real,
    averageFatContent: real,
    daysCount: nat,
    entries: seq<MilkEntry>)

  /** The month summaries of one year and their running totals. */
  datatype YearSummary = YearSummary(
    year: int,
    totalQuantity: real,
    totalAmount: real,
    averageMonthlyQuantity: real,
    months: seq<MonthSummary>)

  /** The customer's `milkRecords` sub-document. */
  datatype MilkRecords = MilkRecords(
    currentYear: int,
    years: seq<YearSummary>,
    currentMonthTotal: real,
    currentMonthAmount: real,
    lastUpdated: Option<Time>)

  datatype MilkSettings = MilkSettings(
    defaultPricePerLiter: real,
    defaultShift: Shift,
    measurementUnit: MeasurementUnit)

  /** Settings as the schema defaults them: 75 per liter, full-day, liters. */
  const DefaultMilkSettings := MilkSettings(75.0, FullDay, Liter)

  // ---------------------------------------------------------------- sums

  function EntryQuantity(e: MilkEntry): real { e.quantity }
  function EntryAmount(e: MilkEntry): real { e.totalAmount }
  function MonthQuantity(m: MonthSummary): real { m.totalQuantity }
  function MonthAmount(m: MonthSummary): real { m.totalAmount }

  /** The sum of `f` over the elements of `s`. */
  function Sum<T>(s: seq<T>, f: T -> real): real {
    if s == [] then 0.0 else Sum(s[..|s| - 1], f) + f(s[|s| - 1])
  }

  lemma SumAppend<T>(s: seq<T>, x: T, f: T -> real)
    ensures Sum(s + [x], f) == Sum(s, f) + f(x)
  {
    assert (s + [x])[..|s|] == s;
  }

  /** Replacing one element changes the sum by the difference of the two. */
  lemma {:induction false} SumUpdate<T>(s: seq<T>, i: nat, x: T, f: T -> real)
    requires i < |s|
    ensures Sum(s[i := x], f) == Sum(s, f) - f(s[i]) + f(x)
  {
    var n := |s| - 1;
    if i < n {
      assert s[i := x][..n] == s[..n][i := x];
      SumUpdate(s[..n], i, x, f);
    } else {
      assert s[i := x][..n] == s[..n];
    }
  }

  // ---------------------------------------------------------------- ledger invariant

  /**
   * What the milk-entry handler keeps true of a month: it lies in 1..12, its
   * entries satisfy the entry schema and fall in that month, `daysCount` counts
   * them and the totals are their sums.
   */
  predicate MonthInvariant(m: MonthSummary) {
    && 1 <= m.month <= 12
    && m.daysCount == |m.entries|
    && m.totalQuantity == Sum(m.entries, EntryQuantity)
    && m.totalAmount == Sum(m.entries, EntryAmount)
    && forall k :: 0 <= k < |m.entries| ==>
         ValidEntry(m.entries[k]) && m.entries[k].date.year == m.year && m.entries[k].date.month == m.month
  }

  /** A year holds at most one summary per month, all of that year, and its totals are theirs. */
  predicate YearInvariant(y: YearSummary) {
    && y.totalQuantity == Sum(y.months, MonthQuantity)
    && y.totalAmount == Sum(y.months, MonthAmount)
    && (forall k :: 0 <= k < |y.months| ==> y.months[k].year == y.year && MonthInvariant(y.months[k]))
    && (forall i, j :: 0 <= i < j < |y.months| ==> y.months[i].month != y.months[j].month)
  }

  /** At most one summary per year, each keeping YearInvariant. */
  predicate LedgerInvariant(r: MilkRecords) {
    && (forall k :: 0 <= k < |r.years| ==> YearInvariant(r.years[k]))
    && (forall i, j :: 0 <= i < j < |r.years| ==> r.years[i].year != r.years[j].year)
  }

  // ---------------------------------------------------------------- defaults

  /** A month summary as the handler creates it, with the schema's zero defaults. */
  function NewMonthSummary(year: int, month: Month): (m: MonthSummary)
    ensures m.year == year && m.month == month && m.entries == []
    ensures m.averageFatContent == 0.0
    ensures MonthInvariant(m)
  {
    MonthSummary(year, month, 0.0, 0.0, 0.0, 0, [])
  }

  /** A year summary as the handler creates it; `averageMonthlyQuantity` takes its default 0. */
  function NewYearSummary(year: int): (y: YearSummary)
    ensures y.year == year && y.months == []
    ensures YearInvariant(y)
  {
    YearSummary(year, 0.0, 0.0, 0.0, [])
  }

  /**
   * The `milkRecords` of a new customer. The schema's `currentYear` default is
   * computed once, when the module is loaded, hence `bootYear`.
   */
  function NewMilkRecords(bootYear: int): (r: MilkRecords)
    ensures r.currentYear == bootYear
    ensures r.years == [] && r.currentMonthTotal == 0.0 && r.currentMonthAmount == 0.0
    ensures r.lastUpdated.None?
    ensures LedgerInvariant(r)
  {
    MilkRecords(bootYear, [], 0.0, 0.0, None)
  }

  // ---------------------------------------------------------------- address

  datatype Address = Address(
    street: Option<string>,
    city: Option<string>,
    state: Option<string>,
    pincode: Option<string>,
    country: string)

  /** An address as a request supplies it; any part may be missing. */
  datatype AddressInput = AddressInput(
    street: Option<string>,
    city: Option<string>,
    state: Option<string>,
    pincode: Option<string>,
    country: Option<string>)

  /** The stored address: the supplied parts, with `country` defaulting to "India". */
  function CastAddress(a: Option<AddressInput>): (r: Address)
    ensures (a.None? || a.value.country.None?) ==> r.country == "India"
    ensures a.Some? && a.value.country.Some? ==> r.country == a.value.country.value
    ensures a.Some? ==> (r.street == a.value.street && r.city == a.value.city &&
                         r.state == a.value.state && r.pincode == a.value.pincode)
    ensures a.None? ==> r.street.None? && r.city.None? && r.state.None? && r.pincode.None?
  {
    match a
    case None => Address(None, None, None, None, "India")
    case Some(i) => Address(i.street, i.city, i.state, i.pincode, i.country.GetOr("India"))
  }

  // ---------------------------------------------------------------- name trimming

  /** The characters JavaScript's `String.prototype.trim` removes: WhiteSpace and LineTerminator. */
  predicate IsJsWhitespace(c: char) {
    || c == '\t' || c == '\n' || c == '\r' || c == ' '
    || c == '\U{000B}' || c == '\U{000C}' || c == '\U{00A0}' || c == '\U{1680}'
    || ('\U{2000}' <= c <= '\U{200A}')
    || c == '\U{2028}' || c == '\U{2029}' || c == '\U{202F}' || c == '\U{205F}'
    || c == '\U{3000}' || c == '\U{FEFF}'
  }

  function TrimStart(s: string): (r: string)
    ensures |r| <= |s| && r == s[|s| - |r|..]
    ensures r != [] ==> !IsJsWhitespace(r[0])
    ensures forall k :: 0 <= k < |s| - |r| ==> IsJsWhitespace(s[k])
  {
    if s != [] && IsJsWhitespace(s[0]) then TrimStart(s[1..]) else s
  }

  function TrimEnd(s: string): (r: string)
    ensures |r| <= |s| && r == s[..|r|]
    ensures r != [] ==> !IsJsWhitespace(r[|r| - 1])
    ensures forall k :: |r| <= k < |s| ==> IsJsWhitespace(s[k])
  {
    if s != [] && IsJsWhitespace(s[|s| - 1]) then TrimEnd(s[..|s| - 1]) else s
  }

  /** `r` is `s` with the first `lo` characters and some trailing ones cut, all of them whitespace. */
  predicate TrimmedFrom(s: string, r: string, lo: nat) {
    && lo + |r| <= |s|
    && r == s[lo..lo + |r|]
    && (forall k :: 0 <= k < lo ==> IsJsWhitespace(s[k]))
    && (forall k :: lo + |r| <= k < |s| ==> IsJsWhitespace(s[k]))
  }

  /**
   * The schema's `trim: true` on `name`: the longest infix of `s` that neither
   * starts nor ends with whitespace, obtained by cutting only whitespace.
   */
  function Trim(s: string): (r: string)
    ensures r != [] ==> !IsJsWhitespace(r[0]) && !IsJsWhitespace(r[|r| - 1])
    ensures exists lo: nat :: TrimmedFrom(s, r, lo)
  {
    var t := TrimStart(s);
    var r := TrimEnd(t);
    var lo := |s| - |t|;
    assert TrimmedFrom(s, r, lo);
    r
  }

  // ---------------------------------------------------------------- customer

  datatype Customer = Customer(
    name: Option<string>,
    phone: string,
    otp: Option<string>,
    otpExpiry: Option<Time>,
    avatar: Option<string>,
    gender: Option<Gender>,
    dob: Option<Time>,
    address: Address,
    milkRecords: MilkRecords,
    milkSettings: MilkSettings,
    createdAt: Time,
    updatedAt: Time)

  /**
   * The document `Customer.create({ name, phone, address })` stores: the name
   * trimmed, the address with its default country, default settings, an empty
   * ledger and both timestamps at `now`.
   */
  function NewCustomer(name: Option<string>, phone: string, address: Option<AddressInput>,
                       now: Time, bootYear: int): (c: Customer)
    ensures c.phone == phone
    ensures name.None? ==> c.name.None?
    ensures name.Some? ==> c.name == Some(Trim(name.value))
    ensures c.address == CastAddress(address)
    ensures c.milkSettings == DefaultMilkSettings
    ensures c.milkRecords.years == [] && LedgerInvariant(c.milkRecords)
    ensures c.createdAt == now && c.updatedAt == now
  {
    var n := match name case None => None case Some(s) => Some(Trim(s));
    Customer(n, phone, None, None, None, None, None, CastAddress(address),
             NewMilkRecords(bootYear), DefaultMilkSettings, now, now)
  }
}
