/**
 * The browser-side backend of the single-page app: a stored user profile (under the
 * `localStorage` key `cc_user_v1`) whose credits pay for audits, and the saved audit
 * history (under `cc_history_v1`), newest first. The JSON encoding of the two entries is
 * abstracted: each slot holds the decoded value, or nothing when the key is absent.
 */
module BrowserBackend {
  import opened Wrappers
  import BillingRoutes
  import Users

  const UserKey: string := "cc_user_v1"
  const HistoryKey: string := "cc_history_v1"

  /** The stored user: the credits and BYOK flag the billing reads, and every other field as is. */
  datatype Profile = Profile(credits: int, isUnlimited: bool, rest: map<string, string>)

  /** A saved audit: the session's own fields plus the id and timestamp the save adds. */
  datatype AuditRecord = AuditRecord(id: string, timestamp: int, session: map<string, string>)

  /** `billing.getCosts()`. */
  datatype Costs = Costs(startup: nat, enterprise: nat)

  function GetCosts(): (c: Costs)
    ensures Some(c.startup) == BillingRoutes.CostOf("startup")
    ensures Some(c.enterprise) == BillingRoutes.CostOf("enterprise")
  {
    Costs(50, 150)
  }

  /**
   * `processTransaction` on the stored profile: no profile throws; a BYOK profile pays
   * nothing; too few credits refuse; otherwise the cost is taken off. The second component
   * is the profile stored afterwards.
   */
  function Charge(stored: Option<Profile>, cost: int): (r: (Result<bool, string>, Option<Profile>))
    ensures stored.None? <==> r.0 == Failure("User not found")
    ensures stored.None? ==> r.1 == stored
    ensures stored.Some? && stored.value.isUnlimited ==> r == (Success(true), stored)
    ensures stored.Some? && !stored.value.isUnlimited && stored.value.credits < cost ==>
      r == (Success(false), stored)
    ensures stored.Some? && !stored.value.isUnlimited && stored.value.credits >= cost ==>
      r.0 == Success(true) && r.1.Some? &&
      r.1.value.credits + cost == stored.value.credits &&
      r.1.value.isUnlimited == stored.value.isUnlimited && r.1.value.rest == stored.value.rest
  {
    if stored.None? then (Failure("User not found"), stored)
    else
      var user := stored.value;
      if user.isUnlimited then (Success(true), stored)
      else if user.credits < cost then (Success(false), stored)
      else (Success(true), Some(user.(credits := user.credits - cost)))
  }

  /** A charge never leaves a negative balance when the balance was not negative. */
  lemma ChargeKeepsBalance(stored: Option<Profile>, cost: int)
    requires stored.Some? && stored.value.credits >= 0
    ensures Charge(stored, cost).1.Some? && Charge(stored, cost).1.value.credits >= 0
  {
  }

  /** A refused or free charge leaves the stored profile as it was. */
  lemma ChargeChangesOnlyWhenPaid(stored: Option<Profile>, cost: int)
    requires Charge(stored, cost).0 != Success(true) || (stored.Some? && stored.value.isUnlimited)
    ensures Charge(stored, cost).1 == stored
  {
  }

  /**
   * The browser-side charge and the server's `/deduct` agree: for a known user and a known
   * tier, the browser takes off the tier's cost exactly when the server records a charge,
   * and both leave the same balance.
   */
  lemma ChargeAgreesWithDeduct(p: Profile, users: Users.UserTable, userId: string, tier: string,
                               txs: seq<BillingRoutes.Transaction>, txId: string)
    requires userId != "" && userId in users && BillingRoutes.CostOf(tier).Some?
    requires users[userId].credits == p.credits && users[userId].isUnlimited == p.isUnlimited
    ensures var (result, after) := Charge(Some(p), BillingRoutes.CostOf(tier).value);
      var (table, _, reply) := BillingRoutes.Deduct(users, txs, Some(userId), Some(tier), txId);
      result.Success? && after.Some? &&
      (result.value <==> reply.status == 200) &&
      (reply.body.Charged? <==> after.value.credits != p.credits) &&
      table[userId].credits == after.value.credits
  {
  }

  /** `upgradeToUnlimited` on the stored profile: BYOK mode with the credits cleared. */
  function Unlimit(stored: Option<Profile>): (r: Result<Profile, string>)
    ensures stored.None? <==> r == Failure("User not found")
    ensures r.Success? ==> r.value.isUnlimited && r.value.credits == 0 && r.value.rest == stored.value.rest
  {
    if stored.None? then Failure("User not found")
    else Success(stored.value.(isUnlimited := true, credits := 0))
  }

  /** After the upgrade every charge is free: it succeeds and leaves the profile as it is. */
  lemma ChargeAfterUpgradeIsFree(stored: Option<Profile>, cost: int)
    requires Unlimit(stored).Success?
    ensures var p := Some(Unlimit(stored).value); Charge(p, cost) == (Success(true), p)
  {
  }

  /** The history with a new record in front: the old records keep their order behind it. */
  function Prepend(rec: AuditRecord, history: seq<AuditRecord>): (r: seq<AuditRecord>)
    ensures |r| == |history| + 1 && r[0] == rec
    ensures forall i :: 0 <= i < |history| ==> r[i + 1] == history[i]
  {
    [rec] + history
  }

  /** The id `saveAudit` gives a record: `aud_` and nine random base-36 characters. */
  function AuditId(randomPart: string): string {
    "aud_" + randomPart
  }

  /** The two stored entries; the methods read and write them as the source does. */
  class BrowserStore {
    /** The entry under `cc_user_v1`. */
    var user: Option<Profile>
    /** The entry under `cc_history_v1`. */
    var history: Option<seq<AuditRecord>>

    constructor ()
      ensures user.None? && history.None?
    {
      user := None;
      history := None;
    }

    /** `db.getHistorySync()`: the stored history, or no records when there is none. */
    function HistorySync(): (h: seq<AuditRecord>)
      reads this
      ensures history.None? ==> h == []
      ensures history.Some? ==> h == history.value
    {
      if history.Some? then history.value else []
    }

    /** `auth.updateCredits`: set the stored user's credits; nothing happens without a stored user. */
    method UpdateCredits(credits: int)
      modifies this
      ensures old(user).None? ==> user.None?
      ensures old(user).Some? ==> user == Some(old(user).value.(credits := credits))
      ensures history == old(history)
    {
      if user.Some? {
        var u := user.value;
        u := u.(credits := credits);
        user := Some(u);
      }
    }

    /**
     * `db.saveAudit`: the record gets the id and timestamp passed in (random and the clock
     * in the source) and goes in front of the stored history.
     */
    method SaveAudit(session: map<string, string>, randomPart: string, now: int) returns (rec: AuditRecord)
      modifies this
      ensures rec == AuditRecord(AuditId(randomPart), now, session)
      ensures history == Some(Prepend(rec, old(HistorySync())))
      ensures user == old(user)
    {
      rec := AuditRecord(AuditId(randomPart), now, session);
      var current := HistorySync();
      history := Some([rec] + current);
    }

    /** `billing.processTransaction`. */
    method ProcessTransaction(userId: string, cost: int) returns (r: Result<bool, string>)
      modifies this
      ensures (r, user) == Charge(old(user), cost)
      ensures history == old(history)
    {
      if user.None? {
        return Failure("User not found");
      }
      var u := user.value;
      if u.isUnlimited {
        return Success(true);
      }
      if u.credits < cost {
        return Success(false);
      }
      u := u.(credits := u.credits - cost);
      user := Some(u);
      r := Success(true);
    }

    /** `billing.upgradeToUnlimited`: store and return the upgraded profile. */
    method UpgradeToUnlimited(userId: string) returns (r: Result<Profile, string>)
      modifies this
      ensures r == Unlimit(old(user))
      ensures r.Success? ==> user == Some(r.value)
      ensures r.Failure? ==> user == old(user)
      ensures history == old(history)
    {
      if user.None? {
        return Failure("User not found");
      }
      var u := user.value;
      u := u.(isUnlimited := true);
      u := u.(credits := 0);
      user := Some(u);
      r := Success(u);
    }
  }
}
