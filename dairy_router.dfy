/** The `/dairy` router: create a dairy for an existing owner, and list an owner's dairies. */
module DairyRouter {
  import opened Common
  import opened DairyModel
  import opened MongoStore

  /** The answers of `create_dairy`; `ServerError` is an exception the framework turns into a 500. */
  datatype CreateDairyResponse =
    | OwnerNotFound
    | ServerError
    | DairyCreated(dairyId: string, id: string)
  {
    function Status(): int {
      match this
      case OwnerNotFound => 404
      case ServerError => 500
      case DairyCreated(_, _) => 200
    }

    function Message(): string {
      match this
      case OwnerNotFound => "Owner not found"
      case ServerError => "Internal Server Error"
      case DairyCreated(_, _) => "Dairy created successfully"
    }
  }

  /** `{"$push": {"dairies": dairyId}}` on one owner document; a missing list starts empty. */
  function PushDairy(o: OwnerRecord, dairyId: string): OwnerRecord {
    o.(dairies := Some(o.dairies.GetOr([]) + [dairyId]))
  }

  /**
   * `get_dairy_by_owner`: the stored dairies of `ownerId`, in store order,
   * and `[]` when it has none. It is a function of the stored documents.
   */
  function GetDairyByOwner(dairies: seq<DairyRecord>, ownerId: string): (r: seq<DairyRecord>)
    ensures |r| <= |dairies|
  {
    if dairies == [] then []
    else
      var n := |dairies| - 1;
      GetDairyByOwner(dairies[..n], ownerId) + (if dairies[n].ownerId == ownerId then [dairies[n]] else [])
  }

  /** The listing holds the owner's stored dairies and nothing else. */
  lemma {:induction false} GetDairyByOwnerMembers(dairies: seq<DairyRecord>, ownerId: string)
    ensures forall d :: d in GetDairyByOwner(dairies, ownerId) ==> d in dairies && d.ownerId == ownerId
    ensures forall k :: 0 <= k < |dairies| && dairies[k].ownerId == ownerId ==> dairies[k] in GetDairyByOwner(dairies, ownerId)
  {
    if dairies != [] {
      var n := |dairies| - 1;
      GetDairyByOwnerMembers(dairies[..n], ownerId);
      assert forall k :: 0 <= k < n ==> dairies[..n][k] == dairies[k];
      assert forall d :: d in dairies[..n] ==> d in dairies;
    }
  }

  /** Listing distributes over concatenation: it keeps store order. */
  lemma {:induction false} GetDairyByOwnerConcat(a: seq<DairyRecord>, b: seq<DairyRecord>, ownerId: string)
    ensures GetDairyByOwner(a + b, ownerId) == GetDairyByOwner(a, ownerId) + GetDairyByOwner(b, ownerId)
  {
    if b == [] {
      assert a + b == a;
    } else {
      var n := |b| - 1;
      var last := if b[n].ownerId == ownerId then [b[n]] else [];
      assert (a + b)[..|a| + n] == a + b[..n];
      assert (a + b)[|a| + n] == b[n];
      GetDairyByOwnerConcat(a, b[..n], ownerId);
      assert GetDairyByOwner(a + b, ownerId) == GetDairyByOwner(a, ownerId) + GetDairyByOwner(b[..n], ownerId) + last;
    }
  }

  /** The listing is empty exactly when no stored dairy belongs to the owner. */
  lemma {:induction false} GetDairyByOwnerEmpty(dairies: seq<DairyRecord>, ownerId: string)
    ensures GetDairyByOwner(dairies, ownerId) == [] <==> forall k :: 0 <= k < |dairies| ==> dairies[k].ownerId != ownerId
  {
    if dairies != [] {
      var n := |dairies| - 1;
      GetDairyByOwnerEmpty(dairies[..n], ownerId);
      assert forall k :: 0 <= k < n ==> dairies[..n][k] == dairies[k];
    }
  }

  /**
   * `create_dairy` as written. The request body is parsed into a `Dairy`
   * first; `uuidHex`, `draw` and `now` feed its default factories. An unknown
   * owner answers 404. When a stored dairy already has the `dairy_id`, the
   * loop body runs and calls `dairy.generate_dairy_id()`, a member the `Dairy`
   * model does not have: the AttributeError becomes a 500 and nothing is
   * written. Otherwise the dairy is inserted, its identifier is pushed onto
   * the first matching owner's list, and the answer carries the identifier
   * and `id` of the inserted record.
   */
  method CreateDairy(db: Database, req: DairyRequest, uuidHex: string, draw: Draw, now: Time)
    returns (resp: CreateDairyResponse)
    modifies db
    ensures FindOwnerById(old(db.owners), req.ownerId).None? ==>
              resp == OwnerNotFound && db.owners == old(db.owners) && db.dairies == old(db.dairies)
    ensures FindOwnerById(old(db.owners), req.ownerId).Some? &&
            DairyIdTaken(old(db.dairies), ParseDairy(req, uuidHex, draw, now).dairyId) ==>
              resp == ServerError && db.owners == old(db.owners) && db.dairies == old(db.dairies)
    ensures FindOwnerById(old(db.owners), req.ownerId).Some? &&
            !DairyIdTaken(old(db.dairies), ParseDairy(req, uuidHex, draw, now).dairyId) ==>
              var dairy := ParseDairy(req, uuidHex, draw, now);
              var i := FindOwnerById(old(db.owners), req.ownerId).value;
              && resp == DairyCreated(dairy.dairyId, dairy.id)
              && db.dairies == old(db.dairies) + [dairy]
              && db.owners == old(db.owners)[i := PushDairy(old(db.owners)[i], dairy.dairyId)]
    ensures resp.DairyCreated? && req.dairyId.None? ==> ValidDairyId(resp.dairyId)
    ensures resp.DairyCreated? ==>
              GetDairyByOwner(db.dairies, req.ownerId) ==
              GetDairyByOwner(old(db.dairies), req.ownerId) + [ParseDairy(req, uuidHex, draw, now)]
    ensures DairyIdsUnique(old(db.dairies)) ==> DairyIdsUnique(db.dairies)
    ensures EmailsUnique(old(db.owners)) ==> EmailsUnique(db.owners)
    ensures PlanLimitsHold(old(db.owners)) ==> PlanLimitsHold(db.owners)
  {
    var dairy := ParseDairy(req, uuidHex, draw, now);
    var found := FindOwnerById(db.owners, dairy.ownerId);
    if found.None? {
      return OwnerNotFound;
    }
    var i := found.value;

    if DairyIdTaken(db.dairies, dairy.dairyId) {
      // the first pass of the loop body raises before anything is written
      return ServerError;
    }
    db.dairies := db.dairies + [dairy];
    db.owners := db.owners[i := PushDairy(db.owners[i], dairy.dairyId)];
    resp := DairyCreated(dairy.dairyId, dairy.id);
  }

  /**
   * The collision as written: the same request with an explicit `dairy_id`
   * sent twice for an existing owner. The first is created; the second
   * answers 500 and leaves the store as the first left it.
   */
  method DuplicateDairyIdFails(db: Database, req: DairyRequest, uuidHex: string, draw: Draw, now: Time)
    returns (first: CreateDairyResponse, second: CreateDairyResponse)
    requires req.dairyId.Some?
    requires FindOwnerById(db.owners, req.ownerId).Some?
    requires !DairyIdTaken(db.dairies, req.dairyId.value)
    modifies db
    ensures first == DairyCreated(req.dairyId.value, req.id.GetOr(uuidHex))
    ensures second == ServerError && second.Status() == 500
    ensures db.dairies == old(db.dairies) + [ParseDairy(req, uuidHex, draw, now)]
  {
    ghost var i := FindOwnerById(db.owners, req.ownerId).value;
    FindOwnerByIdSameIds(db.owners, i, PushDairy(db.owners[i], req.dairyId.value), req.ownerId);
    first := CreateDairy(db, req, uuidHex, draw, now);
    ghost var inserted := |db.dairies| - 1;
    assert db.dairies[inserted].dairyId == req.dairyId.value;
    assert DairyIdTaken(db.dairies, req.dairyId.value);
    second := CreateDairy(db, req, uuidHex, draw, now);
  }

  /**
   * Creating a dairy and then listing its owner's dairies: the creation
   * succeeds exactly when the owner exists and the identifier is free, and
   * then the listing is not empty and ends with the new dairy.
   */
  method CreateThenList(db: Database, req: DairyRequest, uuidHex: string, draw: Draw, now: Time)
    returns (resp: CreateDairyResponse, listing: seq<DairyRecord>)
    requires FindOwnerById(db.owners, req.ownerId).Some?
    modifies db
    ensures resp.DairyCreated? <==> !DairyIdTaken(old(db.dairies), ParseDairy(req, uuidHex, draw, now).dairyId)
    ensures resp.DairyCreated? ==>
              && listing != [] && listing[|listing| - 1].ownerId == req.ownerId
              && listing[|listing| - 1].id == resp.id && listing[|listing| - 1].dairyId == resp.dairyId
  {
    resp := CreateDairy(db, req, uuidHex, draw, now);
    listing := GetDairyByOwner(db.dairies, req.ownerId);
  }

  /**
   * The regeneration loop `create_dairy` evidently means to run, with the
   * module-level `generate_dairy_id`: keep `initial` if no stored dairy has
   * it, else draw identifiers until one is free. The answer is free, and
   * when `initial` was taken it is the first free draw.
   */
  method FreshDairyId(stored: seq<DairyRecord>, initial: string, draws: nat -> Draw) returns (dairyId: string)
    requires exists k: nat :: !DairyIdTaken(stored, GenerateDairyId(draws(k)))
    ensures !DairyIdTaken(stored, dairyId)
    ensures !DairyIdTaken(stored, initial) ==> dairyId == initial
    ensures DairyIdTaken(stored, initial) ==>
              exists k: nat :: && dairyId == GenerateDairyId(draws(k))
                               && forall j: nat :: j < k ==> DairyIdTaken(stored, GenerateDairyId(draws(j)))
  {
    dairyId := initial;
    var k: nat := 0;
    ghost var bound: nat :| !DairyIdTaken(stored, GenerateDairyId(draws(bound)));
    while DairyIdTaken(stored, dairyId)
      invariant k <= bound + 1
      invariant k == bound + 1 ==> !DairyIdTaken(stored, dairyId)
      invariant k == 0 ==> dairyId == initial
      invariant k > 0 ==> dairyId == GenerateDairyId(draws(k - 1)) && DairyIdTaken(stored, initial)
      invariant forall j: nat :: j + 1 < k ==> DairyIdTaken(stored, GenerateDairyId(draws(j)))
      decreases bound + 1 - k
    {
      ghost var previous := dairyId;
      dairyId := GenerateDairyId(draws(k));
      k := k + 1;
      forall j: nat | j + 1 < k
        ensures DairyIdTaken(stored, GenerateDairyId(draws(j)))
      {
        if j + 2 == k {
          assert GenerateDairyId(draws(j)) == previous;
        }
      }
    }
    if k > 0 {
      assert dairyId == GenerateDairyId(draws(k - 1));
    }
  }

  /**
   * `create_dairy` as evidently intended: the collision loop regenerates the
   * identifier with the module-level generator. `draws(k)` is the k-th draw
   * of the random generator; some draw yields an identifier no stored dairy
   * has (the loop's termination rests on that).
   *
   * An unknown owner answers 404 and writes nothing. Otherwise the request
   * always succeeds: the identifier is kept if free and else replaced by the
   * first free generated one; exactly that dairy is appended, the identifier
   * is pushed onto the owner's list, and the answer carries the identifier
   * and `id` of the inserted record.
   */
  method CreateDairyRegenerating(db: Database, req: DairyRequest, uuidHex: string, draw: Draw,
                                 draws: nat -> Draw, now: Time)
    returns (resp: CreateDairyResponse)
    requires exists k: nat :: !DairyIdTaken(db.dairies, GenerateDairyId(draws(k)))
    modifies db
    ensures FindOwnerById(old(db.owners), req.ownerId).None? ==>
              resp == OwnerNotFound && db.owners == old(db.owners) && db.dairies == old(db.dairies)
    ensures FindOwnerById(old(db.owners), req.ownerId).Some? ==>
              var dairy := ParseDairy(req, uuidHex, draw, now);
              var i := FindOwnerById(old(db.owners), req.ownerId).value;
              && resp.DairyCreated? && resp.id == dairy.id
              && !DairyIdTaken(old(db.dairies), resp.dairyId)
              && db.dairies == old(db.dairies) + [dairy.(dairyId := resp.dairyId)]
              && db.owners == old(db.owners)[i := PushDairy(old(db.owners)[i], resp.dairyId)]
    ensures resp.DairyCreated? && !DairyIdTaken(old(db.dairies), ParseDairy(req, uuidHex, draw, now).dairyId) ==>
              resp.dairyId == ParseDairy(req, uuidHex, draw, now).dairyId
    ensures resp.DairyCreated? && DairyIdTaken(old(db.dairies), ParseDairy(req, uuidHex, draw, now).dairyId) ==>
              && ValidDairyId(resp.dairyId)
              && exists k: nat :: && resp.dairyId == GenerateDairyId(draws(k))
                                  && forall j: nat :: j < k ==> DairyIdTaken(old(db.dairies), GenerateDairyId(draws(j)))
    ensures resp.DairyCreated? && req.dairyId.None? ==> ValidDairyId(resp.dairyId)
    ensures resp.DairyCreated? ==>
              GetDairyByOwner(db.dairies, req.ownerId) ==
              GetDairyByOwner(old(db.dairies), req.ownerId) + [ParseDairy(req, uuidHex, draw, now).(dairyId := resp.dairyId)]
    ensures DairyIdsUnique(old(db.dairies)) ==> DairyIdsUnique(db.dairies)
    ensures EmailsUnique(old(db.owners)) ==> EmailsUnique(db.owners)
    ensures PlanLimitsHold(old(db.owners)) ==> PlanLimitsHold(db.owners)
  {
    var dairy := ParseDairy(req, uuidHex, draw, now);
    var found := FindOwnerById(db.owners, dairy.ownerId);
    if found.None? {
      return OwnerNotFound;
    }
    var i := found.value;

    var dairyId := FreshDairyId(db.dairies, dairy.dairyId, draws);
    var record := dairy.(dairyId := dairyId);
    db.dairies := db.dairies + [record];
    db.owners := db.owners[i := PushDairy(db.owners[i], dairyId)];
    resp := DairyCreated(dairyId, dairy.id);
  }
}
