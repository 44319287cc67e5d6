# Sobhanath dairy farm backend — a Dafny model

This project models the core of a dairy-farm backend. It has two halves:

- An Express/Mongoose service. Customers register and look themselves up by phone number. Each milk delivery is recorded in a per-customer ledger organised by year and by month.
- A FastAPI/pymongo service. Owners log in with Google, are subject to plan limits, and create dairies with short public identifiers.

The MongoDB collections become in-memory sequences held in the fields of a class, kept in natural (insertion) order:

- `CustomerStore.CustomerCollection.docs` holds the customers.
- `MongoStore.Database.owners` and `MongoStore.Database.dairies` hold the owners and the dairies.

A `findOne`/`find_one`/`update_one` acts on the first matching document. State-changing handlers are methods whose `modifies` clauses name the collections they write. Their `ensures` clauses tie the new state to specification functions, and lemmas about those functions prove the invariants:

- each month's day count equals its number of entries;
- each month's and year's totals equal the sums of their parts;
- phone numbers are unique;
- dairy identifiers are unique;
- emails are unique;
- each owner's customer limit matches its plan.

Modules, one per source file plus shared helpers:

- `Common`: `Option`, blank-string test, timestamps.
- `CustomerModel` (`backend/models/customer.js`):
  - entries, month and year summaries, the ledger and the customer document, as datatypes;
  - the schema's bounds and enums, and its defaults;
  - the `trim` setter;
  - the ledger invariants.
- `CustomerStore`: the customers collection and `findOne({ phone })`.
- `SignUpRoute`, `SignInRoute`, `CustomerRoute`: `backend/routes/sign_up.js`, `sign_in.js`, `coustomer_route.js`.
- `MilkEntryRoute` (`backend/routes/milk_entry.js`):
  - the price fallback;
  - year and month find-or-create;
  - the entry append;
  - the totals and current-month snapshot.
- `OwnerSchema` (`backend/models/OwnerSchema.py`): the enums, the `Owner` class with its defaults, and `apply_plan_limits`.
- `DairyModel` (`backend/models/Dairy.py`): `generate_dairy_id` and the `Dairy` defaults.
- `MongoStore`: the owners and dairies collections, lookups by email and by `owner_id`, and the store-wide invariants.
- `DairyRouter` (`backend/routers/dairy.py`): `create_dairy` as written and as evidently intended (see Findings), and `get_dairy_by_owner`.
- `GoogleAuth` (`backend/auth/auth_google.py`): `google_login` find-or-create.

Things the code does that the model keeps as written:

- JavaScript numbers are `real`.
- `pricePerLiter || default` uses truthiness, so a price of 0 falls back to the customer's default price.
- The fat average is divided by every day of the month, but only truthy fat values are added in.
- Sign-in's message says "Name and phone are required", yet only the phone is checked.
- A Google-registered owner is stored as a plain dict without `owner_id`. So `find_one({"owner_id": …})` never finds such an owner, and dairy creation answers 404 for it.
- The date-based defaults are evaluated once, when the module loads. For example, `milkRecords.currentYear` is `new Date().getFullYear()` at load time, and the model passes that year in as `bootYear`.

Clock readings (`now`), the random draws of `generate_dairy_id` (`draws`), the uuid hex and Google token verification (`verify`) are parameters.

## Model

| member | source | states |
|---|---|---|
| CustomerModel.CastShift | backend/models/customer.js:26-30 | a missing shift becomes full-day; a given one is accepted exactly when it names morning, evening or full-day |
| CustomerModel.NewMonthSummary | backend/models/customer.js:38-66 | a new month summary has zero totals, average and day count, no entries, and satisfies the month invariant |
| CustomerModel.NewYearSummary | backend/models/customer.js:68-86 | a new year summary has zero totals, no months, and satisfies the year invariant |
| CustomerModel.NewMilkRecords | backend/models/customer.js:129-144 | the default ledger has the load-time year as `currentYear`, no years, a zero snapshot, no last update, and satisfies the ledger invariant |
| CustomerModel.CastAddress | backend/models/customer.js:117-126 | the address keeps the given street, city, state and pincode; the country defaults to "India" |
| CustomerModel.Trim | backend/models/customer.js:91-94 | the stored name is a contiguous slice of the input with no whitespace at either end, and only whitespace is removed |
| CustomerModel.NewCustomer | backend/models/customer.js:88-167 | a created customer has the given phone, the trimmed name, the cast address, settings 75/full-day/liter, an empty ledger satisfying the invariant, and both timestamps at creation time |
| CustomerStore.FindByPhone | backend/routes/sign_up.js:14 | the answer is the first document with that phone, or none when no document has it |
| CustomerStore.FreshPhoneKeepsUnique | backend/models/customer.js:96-100 | appending a customer whose phone no stored one has keeps phones unique |
| CustomerStore.SamePhoneKeepsUnique | backend/models/customer.js:96-100 | rewriting a customer without changing its phone keeps phones unique |
| SignUpRoute.SignUp | backend/routes/sign_up.js:10-30 | a blank phone gives 400 and a registered phone gives 400, both without a write; otherwise exactly one customer with the request's name, phone and address is appended (201), and phone uniqueness is preserved |
| SignInRoute.SignIn | backend/routes/sign_in.js:8-23 | 400 exactly when the phone is blank, 404 exactly when no customer has it, else 200 with the first customer having that phone; nothing is written |
| SignInRoute.SignInIgnoresName | backend/routes/sign_in.js:8-12 | the answer does not depend on the name field |
| CustomerRoute.GetCustomer | backend/routes/coustomer_route.js:9-24 | 400 exactly when the parameter is empty, 404 exactly when no customer has that phone, else 200 with a stored customer whose phone is the parameter (the only one, when phones are unique) |
| MilkEntryRoute.BuildEntry | backend/routes/milk_entry.js:28-31 | the stored price is the request's price when truthy, otherwise the customer's default; total = quantity × price; the entry is refused exactly when the date or quantity is missing, the shift is unknown, or the schema's bounds at backend/models/customer.js:3-36 fail |
| MilkEntryRoute.FindYear | backend/routes/milk_entry.js:34 | the first year summary with the entry's year, or none when no summary has it |
| MilkEntryRoute.FindMonth | backend/routes/milk_entry.js:47 | the first month summary with the entry's month, or none when no summary has it |
| MilkEntryRoute.YearSlot | backend/routes/milk_entry.js:34-44 | after find-or-create, the year used is in range and has the entry's year |
| MilkEntryRoute.MonthSlot | backend/routes/milk_entry.js:47-60 | after find-or-create, the month used is in range and has the entry's month |
| MilkEntryRoute.RecordEntrySlots | backend/routes/milk_entry.js:34-60 | a year (month) record is appended only when none has the entry's year (month); otherwise the first existing one is reused |
| MilkEntryRoute.RecordEntryCreditsItsMonth | backend/routes/milk_entry.js:63-93 | the entry becomes the last of its month's entries; the month totals rise by exactly its quantity and amount and the day count by 1; the snapshot equals the month totals; the last-update time is set |
| MilkEntryRoute.RecordEntryCreditsItsYear | backend/routes/milk_entry.js:84-88 | the year totals rise by the entry's quantity and amount; its month count grows by one exactly when the month was new, so the divisor is at least 1 |
| MilkEntryRoute.RecordEntryTouchesOnlyItsMonth | backend/routes/milk_entry.js:34-71 | the year count grows by at most one; every other year, and every other month of the entry's year, is unchanged |
| MilkEntryRoute.CreditMonthKeepsInvariant | backend/routes/milk_entry.js:63-76 | crediting a valid entry of the month keeps day count = number of entries and totals = sums over entries |
| MilkEntryRoute.CreditYearKeepsInvariant | backend/routes/milk_entry.js:84-88 | crediting keeps the year totals equal to the sums of its months' totals |
| MilkEntryRoute.RecordEntryKeepsInvariant | backend/routes/milk_entry.js:34-93 | recording a valid entry keeps the whole ledger invariant |
| MilkEntryRoute.UpdateLedger | backend/routes/milk_entry.js:34-93 | the step-by-step update yields exactly the specified ledger and month summary |
| MilkEntryRoute.AddMilkEntry | backend/routes/milk_entry.js:6-100 | an unknown phone gives 404 and a refused entry gives 500, both without a write; otherwise only the found customer's ledger and update time change (201, with the month summary); phone uniqueness and every customer's ledger invariant are preserved |
| OwnerSchema.Owner.constructor | backend/models/OwnerSchema.py:15-49 | the defaults: active, verified, FREE, TRIAL, 7 trial days, limit 10 (matching the plan), no dairies, 0 customers, no last login or device |
| OwnerSchema.Owner.ApplyPlanLimits | backend/models/OwnerSchema.py:52-62 | sets the limit to the plan's (10/50/100), changes no other field, and is idempotent |
| OwnerSchema.ChangePlan | backend/models/OwnerSchema.py:52-53 | changing the plan and applying the limits leaves the limit matching the new plan |
| DairyModel.GenerateDairyId | backend/models/Dairy.py:8-10 | a generated identifier has 6 characters, each from A–Z0–9, chosen by the draw |
| DairyModel.GenerateDairyIdOnto | backend/models/Dairy.py:10 | every 6-character A–Z0–9 identifier is generated by some draw |
| DairyModel.GenerateDairyIdInjective | backend/models/Dairy.py:10 | distinct draws give distinct identifiers |
| DairyModel.ParseDairy | backend/models/Dairy.py:12-21 | a supplied id, identifier, customer list and creation time are kept; missing ones become the uuid hex, the identifier generated from the draw (a valid one), an empty list and the creation time; owner, name and address are kept |
| MongoStore.FindOwnerByEmail | backend/auth/auth_google.py:20 | the first owner with that email, or none when no owner has it |
| MongoStore.FindOwnerById | backend/routers/dairy.py:21 | the first owner whose `owner_id` is the given one, or none; a record without `owner_id` never matches |
| DairyRouter.GetDairyByOwner | backend/routers/dairy.py:49-60 | the listing is a read-only filter of the stored dairies, never longer than the store |
| DairyRouter.GetDairyByOwnerMembers | backend/routers/dairy.py:49-60 | the listing holds every stored dairy of that owner, and only such dairies |
| DairyRouter.GetDairyByOwnerConcat | backend/routers/dairy.py:49 | the listing keeps store order: it distributes over concatenation |
| DairyRouter.GetDairyByOwnerEmpty | backend/routers/dairy.py:51-52 | the listing is `[]` exactly when no stored dairy belongs to the owner |
| DairyRouter.FreshDairyId | backend/routers/dairy.py:29-30 | the intended collision loop keeps the initial identifier if free; otherwise it stops at the first free draw, so the answer is never taken |
| DairyRouter.CreateDairy | backend/routers/dairy.py:13-41 | as written: an unknown owner gives 404 and a `dairy_id` already stored gives 500, both with no write; otherwise exactly the parsed dairy is appended, its identifier is pushed onto the first matching owner's list, the answer carries its identifier and id, a defaulted identifier is valid, and identifier uniqueness, email uniqueness and plan limits are preserved |
| DairyRouter.DuplicateDairyIdFails | backend/routers/dairy.py:29-30 | sending the same request with an explicit free `dairy_id` twice for an existing owner: the first is created, the second answers 500 and inserts nothing |
| DairyRouter.CreateDairyRegenerating | backend/routers/dairy.py:13-41 | as intended: an unknown owner gives 404 with no write; otherwise the request always succeeds, the identifier is kept if free and else is the first free draw, exactly one dairy is appended and its identifier pushed onto the owner's list, and identifier uniqueness, email uniqueness and plan limits are preserved |
| DairyRouter.CreateThenList | backend/routers/dairy.py:33-49 | for an existing owner, creation succeeds exactly when the parsed identifier is free, and then listing the owner's dairies is not empty and ends with the new dairy |
| GoogleAuth.NewGoogleOwner | backend/auth/auth_google.py:23-34 | the inserted dict: the claim's email, name and picture, GOOGLE, OWNER, active, FREE with limit 10, created and last logged in at the login time, and no `owner_id` or `dairies` |
| GoogleAuth.RegisterCountsEmails | backend/auth/auth_google.py:20-35 | inserting an owner for an unseen email gives that email exactly one owner and leaves every other email's count unchanged |
| GoogleAuth.RegisterKeepsStore | backend/auth/auth_google.py:23-35 | inserting an owner for an unseen email keeps emails unique, and keeps plan limits since the new owner's limit matches its plan |
| GoogleAuth.TouchKeepsStore | backend/auth/auth_google.py:42-45 | setting `last_login` keeps all email counts, uniqueness, plan limits and every lookup by `owner_id` |
| GoogleAuth.GoogleLogin | backend/auth/auth_google.py:17-50 | a failed verification gives 401 with no write; an unseen email inserts exactly one owner ("Owner registered successfully"); a known email only sets the first match's `last_login` and answers "Login successful" with the record as read before the update |
| GoogleAuth.LoginTwice | backend/auth/auth_google.py:20-45 | two sequential logins with one email leave exactly one owner with it, and the second answers with the owner the first registered |

## Left out

- Date parsing is not modelled (`new Date(date)`, `getFullYear`, `getMonth`, time zones). The entry's year, month and instant arrive already parsed.
- `datetime.utcnow()`, `new Date()` and Mongoose timestamps are not modelled as clocks. Each is one `now` parameter, so the microsecond difference between `created_at` and `last_login` is not represented.
- IEEE-754 rounding is not modelled: numbers are exact reals.
- Type coercion is not modelled: NaN, strings posing as numbers, and Mongoose's casting of other values.
- The month's fat average and the year's average monthly quantity are computed as written, in exact reals. Nothing is proved about either value.
- A missing `phone` in the milk-entry request is not modelled. There `findOne({ phone: undefined })` matches any document, while the model takes the phone as a string.
- Mongoose's whole-document validation at `save()` is reduced to the new entry's own checks: required fields, enums and bounds. The model decides the rejection before the update, which gives the same stored state.
- Mongoose's copying of pushed plain objects into subdocuments is not modelled. The updated month and year are written back as values.
- The unique index on `phone`, and persistence in general, are not modelled. Phone uniqueness is an invariant the handlers preserve.
- Concurrency is not modelled: the check-then-insert races in sign-up, dairy creation and Google login. Handlers run one at a time.
- The generic `catch` paths answering 500 are not modelled, apart from the refused save in the milk-entry handler and the failing collision branch of dairy creation. The `HTTPException` (401) that a failed Google verification raises is modelled as `verify` returning `None`.
- GoogleLogin: the `_id` (an ObjectId) that `insert_one` adds to the inserted dict and that `find_one` returns with a stored record is not modelled, and neither is the framework's response serialization, which cannot encode an ObjectId. `LoginResponse.Status()` is what the handler returns, not what a client receives; when the handler is called with the owners collection, a client receives a 500 after the write.
- GoogleLogin: the model assumes the handler is given the owners collection, and the deployed wiring never gives it one. backend/main.py:15-18 adds `get_owners_collection` as a router-level dependency, which the framework runs while discarding its value. `owners` at backend/auth/auth_google.py:17 has no annotation and no default, so the framework reads it as a required query parameter. A request with only the token body is refused with 422 before the handler runs, and one with `?owners=…` reaches `find_one` on a string, which fails with 500. In both cases nothing is written. The model describes the handler's logic, not this endpoint as deployed.
- DairyRouter.CreateDairyRegenerating: termination of the regeneration loop relies on the precondition that some draw is free. The random draws are an oracle, and the probability of termination is not modelled.
- Email syntax validation (`EmailStr`) is not modelled.
- JWT issuing, bcrypt, OTP generation and Apple login are not modelled.
- Google signature verification is not part of this model; it is the `verify` parameter.
- Application wiring and environment loading are not part of this model.
- `plan_start_date`'s and `created_at`'s default factories read the clock, which the `Owner` constructor takes as a parameter.

## Findings

| source | as written | input that shows it | evidently intended | confidence | as-written member | corrected member |
|---|---|---|---|---|---|---|
| backend/routers/dairy.py:30 | the collision loop calls `dairy.generate_dairy_id()`, but `Dairy` (backend/models/Dairy.py:12-24) has no such member; `generate_dairy_id` is the module-level function at backend/models/Dairy.py:8. The first collision raises AttributeError, the framework answers 500, and nothing is inserted or pushed | owner `O1` exists; `{"owner_id": "O1", "dairy_id": "ABC123", "name": "x", "address": "y"}` sent twice: the second answers 500 | call the module-level `generate_dairy_id()` and retry until the identifier is free, so every request for an existing owner creates a dairy | high; not executed | DairyRouter.CreateDairy, DairyRouter.DuplicateDairyIdFails | DairyRouter.CreateDairyRegenerating, DairyRouter.FreshDairyId |
