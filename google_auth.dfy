/** `POST /auth/google`: find or create the owner behind a verified Google token. */
module GoogleAuth {
  import opened Common
  import opened OwnerSchema
  import opened MongoStore

  /** What token verification yields: the identity the token vouches for. */
  datatype Claim = Claim(email: string, name: string, picture: Option<string>, provider: AuthProvider)

  datatype LoginResponse =
    | InvalidToken
    | Registered(user: OwnerRecord)
    | LoggedIn(user: OwnerRecord)
  {
    function Status(): int {
      match this
      case InvalidToken => 401
      case Registered(_) => 200
      case LoggedIn(_) => 200
    }

    function Message(): string {
      match this
      case InvalidToken => "Invalid Google token"
      case Registered(_) => "Owner registered successfully"
      case LoggedIn(_) => "Login successful"
    }
  }

  /**
   * The dict the login inserts for an unseen email: the claim's email, name
   * and picture, provider GOOGLE, role OWNER, active, on the FREE plan with
   * its limit, created and last logged in at `now`. It carries no `owner_id`,
   * no `dairies` and none of the model's other defaults.
   */
  function NewGoogleOwner(claim: Claim, now: Time): (o: OwnerRecord)
    ensures o.email == claim.email && o.name == claim.name && o.picture == claim.picture
    ensures o.authProvider == Google && o.role == Some("OWNER") && o.isActive
    ensures o.plan == Free && o.maxCustomersAllowed == PlanLimit(o.plan)
    ensures o.createdAt == now && o.lastLogin == Some(now)
    ensures o.ownerId.None? && o.dairies.None? && o.phone.None?
  {
    OwnerRecord(None, claim.name, claim.email, None, claim.picture, Google, Some("OWNER"), true,
                None, Free, None, None, 10, None, None, now, Some(now))
  }

  /**
   * Inserting an owner for an unseen email gives that email exactly one
   * owner and leaves every other email's count as it was.
   */
  lemma RegisterCountsEmails(owners: seq<OwnerRecord>, o: OwnerRecord)
    requires forall j :: 0 <= j < |owners| ==> owners[j].email != o.email
    ensures EmailCount(owners + [o], o.email) == 1
    ensures forall e :: e != o.email ==> EmailCount(owners + [o], e) == EmailCount(owners, e)
  {
    EmailCountZero(owners, o.email);
    forall e {
      EmailCountAppend(owners, o, e);
    }
  }

  /**
   * Inserting an owner for an unseen email keeps emails unique, and keeps
   * plan limits when the new owner's limit matches its plan.
   */
  lemma RegisterKeepsStore(owners: seq<OwnerRecord>, o: OwnerRecord)
    requires forall j :: 0 <= j < |owners| ==> owners[j].email != o.email
    ensures EmailsUnique(owners) ==> EmailsUnique(owners + [o])
    ensures PlanLimitsHold(owners) && o.maxCustomersAllowed == PlanLimit(o.plan) ==> PlanLimitsHold(owners + [o])
  {
    var grown := owners + [o];
    assert forall j :: 0 <= j < |owners| ==> grown[j] == owners[j];
    assert grown[|owners|] == o;
  }

  /**
   * Setting one owner's `last_login` changes no email count, keeps
   * uniqueness and plan limits, and changes no query by owner id.
   */
  lemma TouchKeepsStore(owners: seq<OwnerRecord>, i: nat, now: Time)
    requires i < |owners|
    ensures var touched := owners[i := owners[i].(lastLogin := Some(now))];
            && (forall e :: EmailCount(touched, e) == EmailCount(owners, e))
            && (EmailsUnique(owners) ==> EmailsUnique(touched))
            && (PlanLimitsHold(owners) ==> PlanLimitsHold(touched))
            && (forall ownerId :: FindOwnerById(touched, ownerId) == FindOwnerById(owners, ownerId))
  {
    var touched := owners[i := owners[i].(lastLogin := Some(now))];
    forall e {
      EmailCountSameEmail(owners, i, touched[i], e);
    }
    forall ownerId {
      FindOwnerByIdSameIds(owners, i, touched[i], ownerId);
    }
  }

  /**
   * `google_login`. `verify` stands for the token verification and `now` for
   * the clock. A token that fails verification answers 401 before the store
   * is read. An unseen email inserts exactly one owner; a known one only has
   * its `last_login` set, and the answer carries the record as read before
   * that update. Afterwards exactly one owner has the email if at most one
   * had it before; no other email's count changes; the dairies collection is
   * not touched, and no owner becomes findable by `owner_id`.
   */
  method GoogleLogin(db: Database, token: string, verify: string -> Option<Claim>, now: Time)
    returns (resp: LoginResponse)
    modifies db`owners
    ensures verify(token).None? ==> resp == InvalidToken && db.owners == old(db.owners)
    ensures verify(token).Some? ==>
              var claim := verify(token).value;
              match FindOwnerByEmail(old(db.owners), claim.email)
              case None =>
                && resp == Registered(NewGoogleOwner(claim, now))
                && db.owners == old(db.owners) + [resp.user]
              case Some(i) =>
                && resp == LoggedIn(old(db.owners)[i])
                && db.owners == old(db.owners)[i := old(db.owners)[i].(lastLogin := Some(now))]
    ensures verify(token).Some? ==>
              var email := verify(token).value.email;
              && EmailCount(db.owners, email) == (if EmailCount(old(db.owners), email) == 0 then 1 else EmailCount(old(db.owners), email))
              && forall other :: other != email ==> EmailCount(db.owners, other) == EmailCount(old(db.owners), other)
    ensures EmailsUnique(old(db.owners)) ==> EmailsUnique(db.owners)
    ensures PlanLimitsHold(old(db.owners)) ==> PlanLimitsHold(db.owners)
    ensures forall ownerId :: FindOwnerById(db.owners, ownerId) == FindOwnerById(old(db.owners), ownerId)
  {
    var verified := verify(token);
    if verified.None? {
      return InvalidToken;
    }
    var user := verified.value;

    var existing := FindOwnerByEmail(db.owners, user.email);
    if existing.None? {
      var newOwner := NewGoogleOwner(user, now);
      RegisterCountsEmails(db.owners, newOwner);
      RegisterKeepsStore(db.owners, newOwner);
      forall ownerId {
        FindOwnerByIdSkipsAppended(db.owners, newOwner, ownerId);
      }
      db.owners := db.owners + [newOwner];
      return Registered(newOwner);
    }

    var i := existing.value;
    var stored := db.owners[i];
    TouchKeepsStore(db.owners, i, now);
    EmailCountZero(db.owners, user.email);
    db.owners := db.owners[i := stored.(lastLogin := Some(now))];
    resp := LoggedIn(stored);
  }

  /**
   * Two logins in a row with the same verified token: the second finds the
   * owner the first registered or touched, and if at most one owner had the
   * email before, exactly one has it after.
   */
  method LoginTwice(db: Database, token: string, verify: string -> Option<Claim>, first: Time, second: Time)
    returns (r1: LoginResponse, r2: LoginResponse)
    requires verify(token).Some?
    modifies db`owners
    ensures r2.LoggedIn?
    ensures r1.Registered? ==> r2 == LoggedIn(r1.user)
    ensures EmailCount(old(db.owners), verify(token).value.email) <= 1 ==>
              EmailCount(db.owners, verify(token).value.email) == 1
  {
    ghost var email := verify(token).value.email;
    r1 := GoogleLogin(db, token, verify, first);
    if r1.Registered? {
      ghost var last := |db.owners| - 1;
      assert db.owners[last] == r1.user && r1.user.email == email;
      assert forall j :: 0 <= j < last ==> db.owners[j] == old(db.owners)[j];
      assert FindOwnerByEmail(db.owners, email) == Some(last);
    }
    r2 := GoogleLogin(db, token, verify, second);
  }
}
