/** The pydantic `Owner` model: an account holder with a subscription plan and its limits. */
module OwnerSchema {
  import opened Common

  /** The literals "FREE", "BASIC", "PREMIUM". */
  datatype PlanType = Free | Basic | Premium
  /** The literals "TRIAL", "ACTIVE", "EXPIRED", "CANCELLED". */
  datatype PaymentStatus = Trial | Active | Expired | Cancelled
  /** The literals "GOOGLE", "APPLE". */
  datatype AuthProvider = Google | Apple
  /** The literals "ANDROID", "IOS", "WEB". */
  datatype DeviceType = Android | Ios | Web

  /** The customer limit that goes with each plan. */
  function PlanLimit(plan: PlanType): int {
    match plan
    case Free => 10
    case Basic => 50
    case Premium => 100
  }

  class Owner {
    var ownerId: string
    var name: string
    var email: string
    var phone: string
    var authProvider: AuthProvider
    var isActive: bool
    var isVerified: bool
    var plan: PlanType
    var paymentStatus: PaymentStatus
    var planStartDate: Time
    var planExpiryDate: Option<Time>
    var trialDaysLeft: int
    var maxCustomersAllowed: int
    var dairies: seq<string>
    var customersCount: int
    var createdAt: Time
    var lastLogin: Option<Time>
    var deviceType: Option<DeviceType>

    /**
     * An owner built from its required fields, every other field taking its
     * default. `ownerId` is the fresh uuid hex of the default factory and
     * `now` the clock reading of the date factories. The defaults already
     * satisfy the plan-limit mapping.
     */
    constructor (ownerId: string, name: string, email: string, phone: string,
                 authProvider: AuthProvider, now: Time)
      ensures this.ownerId == ownerId && this.name == name && this.email == email
      ensures this.phone == phone && this.authProvider == authProvider
      ensures isActive && isVerified
      ensures plan == Free && paymentStatus == Trial && trialDaysLeft == 7
      ensures planStartDate == now && planExpiryDate.None?
      ensures maxCustomersAllowed == 10 && maxCustomersAllowed == PlanLimit(plan)
      ensures dairies == [] && customersCount == 0
      ensures createdAt == now && lastLogin.None? && deviceType.None?
    {
      this.ownerId := ownerId;
      this.name := name;
      this.email := email;
      this.phone := phone;
      this.authProvider := authProvider;
      isActive := true;
      isVerified := true;
      plan := Free;
      paymentStatus := Trial;
      planStartDate := now;
      planExpiryDate := None;
      trialDaysLeft := 7;
      maxCustomersAllowed := 10;
      dairies := [];
      customersCount := 0;
      createdAt := now;
      lastLogin := None;
      deviceType := None;
    }

    /**
     * `apply_plan_limits`: sets the customer limit from the plan and changes
     * nothing else. Applying it again changes nothing.
     */
    method ApplyPlanLimits()
      modifies this`maxCustomersAllowed
      ensures maxCustomersAllowed == PlanLimit(plan)
      ensures old(maxCustomersAllowed) == PlanLimit(plan) ==> maxCustomersAllowed == old(maxCustomersAllowed)
    {
      if plan == Free {
        maxCustomersAllowed := 10;
      } else if plan == Basic {
        maxCustomersAllowed := 50;
      } else if plan == Premium {
        maxCustomersAllowed := 100;
      }
    }
  }

  /** Changing the plan and then applying the limits leaves the limit matching the new plan. */
  method ChangePlan(owner: Owner, plan: PlanType)
    modifies owner`plan, owner`maxCustomersAllowed
    ensures owner.plan == plan && owner.maxCustomersAllowed == PlanLimit(plan)
  {
    owner.plan := plan;
    owner.ApplyPlanLimits();
  }
}
