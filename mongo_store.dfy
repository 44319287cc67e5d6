/**
 * The `owners` and `dairies` collections of the Python service, as sequences
 * of documents in natural order. `find_one` and `update_one` act on the first
 * document that matches.
 */
module MongoStore {
  import opened Common
  import opened OwnerSchema
  import opened DairyModel

  /**
   * An owner document as stored. Writers differ in what they store (the Google
   * login writes no `owner_id`, no `dairies`, but a `role` and a `picture`), so
   * every field that one of them may leave out is optional.
   */
  datatype OwnerRecord = OwnerRecord(
    ownerId: Option<string>,
    name: string,
    email: string,
    phone: Option<string>,
    picture: Option<string>,
    authProvider: AuthProvider,
    role: Option<string>,
    isActive: bool,
    isVerified: Option<bool>,
    plan: PlanType,
    paymentStatus: Option<PaymentStatus>,
    trialDaysLeft: Option<int>,
    maxCustomersAllowed: int,
    dairies: Option<seq<string>>,
    customersCount: Option<int>,
    createdAt: Time,
    lastLogin: Option<Time>)

  class Database {
    var owners: seq<OwnerRecord>
    var dairies: seq<DairyRecord>

    constructor ()
      ensures owners == [] && dairies == []
    {
      owners := [];
      dairies := [];
    }
  }

  /** `find_one({"email": email})`, as a position. */
  function FindOwnerByEmail(owners: seq<OwnerRecord>, email: string): (r: Option<nat>)
    ensures r.Some? ==> r.value < |owners| && owners[r.value].email == email
    ensures r.Some? ==> forall j :: 0 <= j < r.value ==> owners[j].email != email
    ensures r.None? ==> forall j :: 0 <= j < |owners| ==> owners[j].email != email
  {
    FindFirst(owners, (o: OwnerRecord) => o.email == email)
  }

  /** `find_one({"owner_id": ownerId})`, as a position; a document without `owner_id` never matches. */
  function FindOwnerById(owners: seq<OwnerRecord>, ownerId: string): (r: Option<nat>)
    ensures r.Some? ==> r.value < |owners| && owners[r.value].ownerId == Some(ownerId)
    ensures r.Some? ==> forall j :: 0 <= j < r.value ==> owners[j].ownerId != Some(ownerId)
    ensures r.None? ==> forall j :: 0 <= j < |owners| ==> owners[j].ownerId != Some(ownerId)
  {
    FindFirst(owners, (o: OwnerRecord) => o.ownerId == Some(ownerId))
  }

  /** Appending a document that matches no query by owner id changes no such query's answer. */
  lemma FindOwnerByIdSkipsAppended(owners: seq<OwnerRecord>, o: OwnerRecord, ownerId: string)
    requires o.ownerId != Some(ownerId)
    ensures FindOwnerById(owners + [o], ownerId) == FindOwnerById(owners, ownerId)
  {
    var grown := owners + [o];
    assert forall j :: 0 <= j < |owners| ==> grown[j] == owners[j];
    assert grown[|owners|] == o;
  }

  /** Rewriting one owner without touching its `owner_id` changes no query by owner id. */
  lemma FindOwnerByIdSameIds(owners: seq<OwnerRecord>, i: nat, o: OwnerRecord, ownerId: string)
    requires i < |owners| && o.ownerId == owners[i].ownerId
    ensures FindOwnerById(owners[i := o], ownerId) == FindOwnerById(owners, ownerId)
  {
    var rewritten := owners[i := o];
    assert forall j :: 0 <= j < |owners| ==> rewritten[j].ownerId == owners[j].ownerId;
  }

  /** How many stored owners have `email`. */
  function EmailCount(owners: seq<OwnerRecord>, email: string): nat {
    if owners == [] then 0
    else EmailCount(owners[..|owners| - 1], email) + (if owners[|owners| - 1].email == email then 1 else 0)
  }

  /** No owner has the email exactly when the count is zero. */
  lemma {:induction false} EmailCountZero(owners: seq<OwnerRecord>, email: string)
    ensures EmailCount(owners, email) == 0 <==> forall j :: 0 <= j < |owners| ==> owners[j].email != email
  {
    if owners != [] {
      EmailCountZero(owners[..|owners| - 1], email);
    }
  }

  /** Rewriting one owner without touching its email leaves every count as it was. */
  lemma {:induction false} EmailCountSameEmail(owners: seq<OwnerRecord>, i: nat, o: OwnerRecord, email: string)
    requires i < |owners| && o.email == owners[i].email
    ensures EmailCount(owners[i := o], email) == EmailCount(owners, email)
  {
    var n := |owners| - 1;
    if i < n {
      assert owners[i := o][..n] == owners[..n][i := o];
      EmailCountSameEmail(owners[..n], i, o, email);
    } else {
      assert owners[i := o][..n] == owners[..n];
    }
  }

  lemma EmailCountAppend(owners: seq<OwnerRecord>, o: OwnerRecord, email: string)
    ensures EmailCount(owners + [o], email) == EmailCount(owners, email) + (if o.email == email then 1 else 0)
  {
    assert (owners + [o])[..|owners|] == owners;
  }

  /** The natural key `email` identifies at most one owner. */
  predicate EmailsUnique(owners: seq<OwnerRecord>) {
    forall i, j :: 0 <= i < j < |owners| ==> owners[i].email != owners[j].email
  }

  /** Every stored owner's limit matches its plan. */
  predicate PlanLimitsHold(owners: seq<OwnerRecord>) {
    forall k :: 0 <= k < |owners| ==> owners[k].maxCustomersAllowed == PlanLimit(owners[k].plan)
  }

  /** `find_one({"dairy_id": dairyId})` finds a document. */
  predicate DairyIdTaken(dairies: seq<DairyRecord>, dairyId: string) {
    exists k :: 0 <= k < |dairies| && dairies[k].dairyId == dairyId
  }

  /** The public identifier identifies at most one dairy. */
  predicate DairyIdsUnique(dairies: seq<DairyRecord>) {
    forall i, j :: 0 <= i < j < |dairies| ==> dairies[i].dairyId != dairies[j].dairyId
  }
}
