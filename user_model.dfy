/**
 * The `User` document: plan and credit accounting (`hasCredits`, `deductCredit`,
 * `addCredits`), the `planName` virtual and the schema defaults. Dates are milliseconds.
 */
module UserModel {
  import opened Wrappers
  import opened JsText

  /** The `plan` enum. */
  predicate IsPlan(plan: string) {
    plan == "free" || plan == "pro" || plan == "enterprise"
  }

  /** The `subscription.status` enum. */
  predicate IsSubscriptionStatus(s: string) {
    s == "active" || s == "canceled" || s == "past_due" || s == "none"
  }

  datatype Usage = Usage(videosGenerated: int, totalDuration: int, lastGeneratedAt: Option<int>)

  datatype UserRecord = UserRecord(
    email: string, name: string, passwordHash: Option<string>,
    plan: string, credits: int, usage: Usage, subscriptionStatus: string,
    defaultVoice: string, defaultStyle: string, emailNotifications: bool,
    isActive: bool, lastLoginAt: int, createdAt: int)

  /**
   * A user as created: plan `free`, 3 credits, no usage, no subscription. The `trim`
   * option's setter strips white space from both ends of the email and the name.
   */
  function NewUser(email: string, name: string, passwordHash: Option<string>, now: int): (u: UserRecord)
    ensures Trimmed(u.email) && Trimmed(u.name)
    ensures Tokens(u.email) == Tokens(email) && Tokens(u.name) == Tokens(name)
    ensures u.plan == "free" && u.credits == 3
    ensures u.usage == Usage(0, 0, None) && u.subscriptionStatus == "none"
    ensures u.defaultVoice == "default" && u.defaultStyle == "realistic" && u.emailNotifications
    ensures u.isActive && u.lastLoginAt == now && u.createdAt == now
  {
    TrimKeepsTokens(email);
    TrimKeepsTokens(name);
    UserRecord(Trim(email), Trim(name), passwordHash, "free", 3, Usage(0, 0, None), "none",
               "default", "realistic", true, true, now, now)
  }

  /**
   * What `save` checks: the required strings are present once trimmed (a name of blanks
   * is trimmed to the empty string) and both enums hold.
   */
  function Validate(u: UserRecord): (o: Outcome)
    ensures o.Pass? <==> Tokens(u.email) != [] && Tokens(u.name) != [] && IsPlan(u.plan) && IsSubscriptionStatus(u.subscriptionStatus)
  {
    TrimKeepsTokens(u.email);
    TrimKeepsTokens(u.name);
    if Trim(u.email) == [] then Fail("User validation failed: email: Path `email` is required.")
    else if Trim(u.name) == [] then Fail("User validation failed: name: Path `name` is required.")
    else if !IsPlan(u.plan) then Fail("User validation failed: plan: not a valid enum value.")
    else if !IsSubscriptionStatus(u.subscriptionStatus) then Fail("User validation failed: subscription.status: not a valid enum value.")
    else Pass
  }

  /** A name of blanks fails the `required` check once `trim` has emptied it. */
  lemma BlankNameRejected(u: UserRecord)
    requires u.name == "   "
    ensures Validate(u).Fail?
  {
    assert Tokens(u.name) == Tokens(u.name[1..]);
    assert u.name[1..][1..] == "  "[1..];
  }

  /** `hasCredits()`. */
  function HasCredits(u: UserRecord): bool {
    u.credits > 0 || u.plan != "free"
  }

  /** The fields `deductCredit()` assigns at time `now`. */
  function Deducted(u: UserRecord, now: int): (u': UserRecord)
    ensures u'.credits == if u.plan == "free" && u.credits > 0 then u.credits - 1 else u.credits
    ensures u'.usage.videosGenerated == u.usage.videosGenerated + 1
    ensures u'.usage.lastGeneratedAt == Some(now)
    ensures u'.(credits := u.credits, usage := u.usage) == u
    ensures u'.usage.totalDuration == u.usage.totalDuration
  {
    var credits := if u.plan == "free" && u.credits > 0 then u.credits - 1 else u.credits;
    u.(credits := credits, usage := u.usage.(videosGenerated := u.usage.videosGenerated + 1, lastGeneratedAt := Some(now)))
  }

  /** The field `addCredits(amount)` assigns. */
  function AddedCredits(u: UserRecord, amount: int): (u': UserRecord)
    ensures u'.credits == u.credits + amount && u'.(credits := u.credits) == u
  {
    u.(credits := u.credits + amount)
  }

  /** The `planName` virtual: the display name of a known plan, else `Unknown`. */
  function PlanName(plan: string): (n: string)
    ensures IsPlan(plan) <==> n != "Unknown"
    ensures plan == "free" ==> n == "Free Plan"
    ensures plan == "pro" ==> n == "Pro Plan"
    ensures plan == "enterprise" ==> n == "Enterprise Plan"
  {
    if plan == "free" then "Free Plan"
    else if plan == "pro" then "Pro Plan"
    else if plan == "enterprise" then "Enterprise Plan"
    else "Unknown"
  }

  /** `deductCredit` never takes credits below zero, and never touches a paid plan's credits. */
  lemma DeductNeverNegative(u: UserRecord, now: int)
    ensures u.credits >= 0 ==> Deducted(u, now).credits >= 0
    ensures u.plan != "free" ==> Deducted(u, now).credits == u.credits
    ensures HasCredits(u) && u.plan == "free" ==> Deducted(u, now).credits == u.credits - 1
  {
  }

  /** `k` calls of `deductCredit`, all at time `now`. */
  function DeductTimes(u: UserRecord, k: nat, now: int): UserRecord
  {
    if k == 0 then u else Deducted(DeductTimes(u, k - 1, now), now)
  }

  /**
   * A free user with `c >= 0` credits has credits for exactly the first `c` videos: after
   * `k` deductions the credits are `max(c - k, 0)`, every call is counted as a video, and
   * `hasCredits` holds exactly while `k < c`.
   */
  lemma {:induction false} FreeAllowance(u: UserRecord, k: nat, now: int)
    requires u.plan == "free" && u.credits >= 0
    ensures DeductTimes(u, k, now).plan == "free"
    ensures DeductTimes(u, k, now).credits == if k <= u.credits then u.credits - k else 0
    ensures DeductTimes(u, k, now).usage.videosGenerated == u.usage.videosGenerated + k
    ensures HasCredits(DeductTimes(u, k, now)) <==> k < u.credits
  {
    if k > 0 {
      FreeAllowance(u, k - 1, now);
    }
  }

  /** A paid plan always has credits, whatever its count. */
  lemma {:induction false} PaidAlwaysHasCredits(u: UserRecord, k: nat, now: int)
    requires u.plan != "free"
    ensures DeductTimes(u, k, now).plan == u.plan && DeductTimes(u, k, now).credits == u.credits
    ensures HasCredits(DeductTimes(u, k, now))
  {
    if k > 0 {
      PaidAlwaysHasCredits(u, k - 1, now);
    }
  }

  /** `addCredits` has no sign check: a negative amount can leave a free user without credits. */
  lemma AddCreditsUnchecked(u: UserRecord, amount: int)
    requires u.plan == "free" && u.credits + amount <= 0
    ensures AddedCredits(u, amount).credits == u.credits + amount
    ensures !HasCredits(AddedCredits(u, amount))
  {
  }

  /** A loaded `User` document; `save` writes `rec` into the users collection. */
  class User {
    var rec: UserRecord
    var stored: UserRecord

    constructor (rec: UserRecord)
      ensures this.rec == rec && stored == rec
    {
      this.rec := rec;
      stored := rec;
    }

    function HasCreditsNow(): (b: bool)
      reads this
      ensures b == HasCredits(rec)
    {
      rec.credits > 0 || rec.plan != "free"
    }

    method Save() returns (o: Outcome)
      modifies this
      ensures rec == old(rec) && o == Validate(rec)
      ensures stored == if o.Pass? then rec else old(stored)
    {
      o := Validate(rec);
      if o.Pass? {
        stored := rec;
      }
    }

    /** `deductCredit()` at time `now`. */
    method DeductCredit(now: int) returns (o: Outcome)
      modifies this
      ensures rec == Deducted(old(rec), now) && o == Validate(rec)
      ensures stored == if o.Pass? then rec else old(stored)
    {
      if rec.plan == "free" && rec.credits > 0 {
        rec := rec.(credits := rec.credits - 1);
      }
      rec := rec.(usage := rec.usage.(videosGenerated := rec.usage.videosGenerated + 1));
      rec := rec.(usage := rec.usage.(lastGeneratedAt := Some(now)));
      o := Save();
    }

    /** `addCredits(amount)`. */
    method AddCredits(amount: int) returns (o: Outcome)
      modifies this
      ensures rec == AddedCredits(old(rec), amount) && o == Validate(rec)
      ensures stored == if o.Pass? then rec else old(stored)
    {
      rec := rec.(credits := rec.credits + amount);
      o := Save();
    }
  }
}
