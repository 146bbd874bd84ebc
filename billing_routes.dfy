/**
 * The credit billing routes of the API server: `/usage` reports a user's credits and
 * recent spending, `/deduct` charges one audit (50 credits for a startup audit, 150 for
 * an enterprise one) and records a transaction, and `/upgrade-to-unlimited` switches a
 * user to bring-your-own-key mode, where nothing is charged any more.
 */
module BillingRoutes {
  import opened Wrappers
  import opened Users
  import opened JsText

  /** The `COSTS` table: the price of one audit of a tier, or nothing for an unknown tier. */
  function CostOf(tier: string): (cost: Option<nat>)
    ensures cost.Some? <==> tier == "startup" || tier == "enterprise"
    ensures tier == "startup" ==> cost == Some(50)
    ensures tier == "enterprise" ==> cost == Some(150)
  {
    if tier == "startup" then Some(50)
    else if tier == "enterprise" then Some(150)
    else None
  }

  /** One entry of the `/plans` listing; `credits` is what one audit of the plan costs. */
  datatype Plan = Plan(id: string, name: string, description: string, credits: nat,
                       agents: nat, languages: nat, price: nat)

  /** The `/plans` body: the two plans and the credits a trial starts with. */
  datatype PlanList = PlanList(plans: seq<Plan>, trialCredits: nat)

  /**
   * `GET /plans`. The listing advertises exactly the tiers `/deduct` accepts, each at the
   * price `/deduct` charges, and both are free of money during the trial.
   */
  function Plans(): (r: PlanList)
    ensures |r.plans| == 2 && r.plans[0].id == "startup" && r.plans[1].id == "enterprise"
    ensures forall i :: 0 <= i < |r.plans| ==> CostOf(r.plans[i].id) == Some(r.plans[i].credits)
    ensures forall i :: 0 <= i < |r.plans| ==> r.plans[i].price == 0
    ensures forall tier :: CostOf(tier).Some? ==> exists i :: 0 <= i < |r.plans| && r.plans[i].id == tier
    ensures r.trialCredits == 400
  {
    PlanList([Plan("startup", "Startup Audit", "Essential validation for MVPs", 50, 3, 1, 0),
              Plan("enterprise", "Enterprise Deep Dive", "Full compliance and security", 150, 6, 3, 0)], 400)
  }

  /** A stored transaction row. */
  datatype Transaction = Transaction(id: string, userId: string, tier: string, amount: int,
                                     status: string, description: string)

  /** The row `/deduct` records for one audit of `tier`. */
  function AuditTransaction(id: string, userId: string, tier: string, cost: nat): Transaction {
    Transaction(id, userId, tier, cost, "completed", tier + " audit")
  }

  /** What `/usage` reports. */
  datatype UsageReport = UsageReport(credits: int, spent: int, isUnlimited: bool, transactions: seq<Transaction>)

  /** A response: its status and its JSON body. */
  datatype Reply = Reply(status: nat, body: Body)

  datatype Body =
    | Error(error: string)
    | Insufficient(required: nat, available: int)
    | Charged(credits: int, transactionId: string)
    | ByokCharged
    | Upgraded(message: string)
    | Usage(report: UsageReport)

  /** The rows of one user, in the order they were created. */
  function OfUser(txs: seq<Transaction>, userId: string): (r: seq<Transaction>)
    ensures |r| <= |txs|
    ensures forall t :: t in r ==> t in txs && t.userId == userId
    ensures forall t :: t in txs && t.userId == userId ==> t in r
  {
    if txs == [] then []
    else OfUser(txs[..|txs| - 1], userId) +
         (if txs[|txs| - 1].userId == userId then [txs[|txs| - 1]] else [])
  }

  /** The rows newest first (`orderBy: { createdAt: 'desc' }`). */
  function NewestFirst(txs: seq<Transaction>): (r: seq<Transaction>)
    ensures |r| == |txs|
    ensures forall i :: 0 <= i < |r| ==> r[i] == txs[|txs| - 1 - i]
  {
    if txs == [] then [] else [txs[|txs| - 1]] + NewestFirst(txs[..|txs| - 1])
  }

  /** The sum of the amounts (`reduce((sum, t) => sum + t.amount, 0)`). */
  function Sum(txs: seq<Transaction>): int {
    if txs == [] then 0 else Sum(txs[..|txs| - 1]) + txs[|txs| - 1].amount
  }

  /** `getTransactionHistory(userId, limit)`: the user's latest `limit` rows, newest first. */
  function History(txs: seq<Transaction>, userId: string, limit: nat): seq<Transaction> {
    Take(NewestFirst(OfUser(txs, userId)), limit)
  }

  /**
   * `/usage`: 404 for an unknown user; otherwise the credits, the sum spent over the last
   * 100 transactions, the BYOK flag and the 10 latest transactions.
   */
  function GetUsage(users: UserTable, txs: seq<Transaction>, userId: string): (r: Reply)
    ensures userId !in users <==> r == Reply(404, Error("User not found"))
    ensures userId in users ==>
      r.status == 200 && r.body.Usage? &&
      r.body.report.credits == users[userId].credits &&
      r.body.report.isUnlimited == users[userId].isUnlimited &&
      |r.body.report.transactions| <= 10 &&
      r.body.report.transactions <= History(txs, userId, 100) &&
      r.body.report.spent == Sum(History(txs, userId, 100))
  {
    if userId !in users then Reply(404, Error("User not found"))
    else
      var history := History(txs, userId, 100);
      var user := users[userId];
      Reply(200, Usage(UsageReport(user.credits, Sum(history), user.isUnlimited, Take(history, 10))))
  }

  /**
   * `/deduct` on the tables: the user rows, the transactions (oldest first) and the
   * response. `txId` is the id the database gives the new row.
   */
  function Deduct(users: UserTable, txs: seq<Transaction>, userId: Option<string>, tier: Option<string>, txId: string):
    (r: (UserTable, seq<Transaction>, Reply))
    ensures r.2.status != 200 ==> r.0 == users && r.1 == txs
    ensures userId.None? || userId == Some("") || tier.None? || tier == Some("") ==>
      r.2 == Reply(400, Error("Missing userId or tier"))
    ensures r.2.status == 200 && r.2.body.Charged? ==>
      userId.Some? && tier.Some? && userId.value in users && !users[userId.value].isUnlimited &&
      CostOf(tier.value).Some? &&
      var cost := CostOf(tier.value).value;
      users[userId.value].credits >= cost &&
      r.0 == users[userId.value := users[userId.value].(credits := users[userId.value].credits - cost)] &&
      r.1 == txs + [AuditTransaction(txId, userId.value, tier.value, cost)] &&
      r.2.body == Charged(users[userId.value].credits - cost, txId)
    ensures r.2.status == 200 ==> r.2.body.Charged? || (r.2.body.ByokCharged? && r.0 == users && r.1 == txs)
    ensures r.2.status in {200, 400, 402, 404}
    ensures userId.Some? && userId.value != "" && tier.Some? && tier.value != "" ==>
      var id := userId.value;
      (CostOf(tier.value).None? ==> r.2 == Reply(400, Error("Invalid tier"))) &&
      (CostOf(tier.value).Some? && id !in users ==> r.2 == Reply(404, Error("User not found"))) &&
      (CostOf(tier.value).Some? && id in users && users[id].isUnlimited ==> r.2 == Reply(200, ByokCharged)) &&
      (CostOf(tier.value).Some? && id in users && !users[id].isUnlimited && users[id].credits < CostOf(tier.value).value ==>
         r.2 == Reply(402, Insufficient(CostOf(tier.value).value, users[id].credits))) &&
      (CostOf(tier.value).Some? && id in users && !users[id].isUnlimited && users[id].credits >= CostOf(tier.value).value ==>
         r.2.status == 200 && r.2.body.Charged?)
  {
    if userId.None? || userId.value == "" || tier.None? || tier.value == "" then
      (users, txs, Reply(400, Error("Missing userId or tier")))
    else if CostOf(tier.value).None? then
      (users, txs, Reply(400, Error("Invalid tier")))
    else
      var id, cost := userId.value, CostOf(tier.value).value;
      if id !in users then (users, txs, Reply(404, Error("User not found")))
      else if users[id].isUnlimited then (users, txs, Reply(200, ByokCharged))
      else if users[id].credits < cost then
        (users, txs, Reply(402, Insufficient(cost, users[id].credits)))
      else
        var left := users[id].credits - cost;
        (users[id := users[id].(credits := left)],
         txs + [AuditTransaction(txId, id, tier.value, cost)],
         Reply(200, Charged(left, txId)))
  }

  /**
   * `/upgrade-to-unlimited`: 400 without a user id; for a known user, BYOK mode with the
   * credits cleared; an unknown user makes the update throw, which answers 500.
   */
  function Upgrade(users: UserTable, userId: Option<string>): (r: (UserTable, Reply))
    ensures userId.None? || userId == Some("") ==> r == (users, Reply(400, Error("Missing userId")))
    ensures userId.Some? && userId.value != "" && userId.value !in users ==>
      r == (users, Reply(500, Error("Failed to upgrade account")))
    ensures userId.Some? && userId.value in users && userId.value != "" ==>
      var id := userId.value;
      r.1 == Reply(200, Upgraded(UpgradeMessage)) &&
      r.0.Keys == users.Keys && r.0[id].isUnlimited && r.0[id].credits == 0 && r.0[id].id == users[id].id &&
      forall u :: u in users && u != id ==> r.0[u] == users[u]
  {
    if userId.None? || userId.value == "" then (users, Reply(400, Error("Missing userId")))
    else if userId.value !in users then (users, Reply(500, Error("Failed to upgrade account")))
    else
      var id := userId.value;
      (users[id := users[id].(isUnlimited := true, credits := 0)], Reply(200, Upgraded(UpgradeMessage)))
  }

  /** The message the upgrade answers with. */
  const UpgradeMessage: string := "You are now in BYOK (Bring Your Own Key) unlimited mode"

  /** No balance is negative. */
  predicate NoDebt(users: UserTable) {
    forall u :: u in users ==> users[u].credits >= 0
  }

  /** Neither route ever takes a balance below zero. */
  lemma RoutesKeepNoDebt(users: UserTable, txs: seq<Transaction>, userId: Option<string>, tier: Option<string>, txId: string)
    requires NoDebt(users)
    ensures NoDebt(Deduct(users, txs, userId, tier, txId).0)
    ensures NoDebt(Upgrade(users, userId).0)
  {
  }

  /** Every transaction `/deduct` records is a positive charge. */
  predicate PositiveCharges(txs: seq<Transaction>) {
    forall i :: 0 <= i < |txs| ==> txs[i].amount > 0
  }

  /** A user's balance plus what their recorded transactions add up to. */
  function Ledger(users: UserTable, txs: seq<Transaction>, userId: string): int
    requires userId in users
  {
    users[userId].credits + Sum(OfUser(txs, userId))
  }

  lemma {:induction false} SumAppend(txs: seq<Transaction>, t: Transaction)
    ensures Sum(txs + [t]) == Sum(txs) + t.amount
  {
    assert (txs + [t])[..|txs + [t]| - 1] == txs;
  }

  lemma {:induction false} OfUserAppend(txs: seq<Transaction>, t: Transaction, userId: string)
    ensures OfUser(txs + [t], userId) == OfUser(txs, userId) + (if t.userId == userId then [t] else [])
  {
    assert (txs + [t])[..|txs + [t]| - 1] == txs;
  }

  /**
   * Credits are not lost or made up by `/deduct`: for every user, the balance plus what
   * the recorded transactions add up to stays the same.
   */
  lemma DeductKeepsLedger(users: UserTable, txs: seq<Transaction>, userId: Option<string>, tier: Option<string>,
                          txId: string, who: string)
    requires who in users
    ensures var (after, afterTxs, _) := Deduct(users, txs, userId, tier, txId);
      who in after && Ledger(after, afterTxs, who) == Ledger(users, txs, who)
  {
    var r := Deduct(users, txs, userId, tier, txId);
    if r.2.status == 200 && r.2.body.Charged? {
      var id, cost := userId.value, CostOf(tier.value).value;
      var t := AuditTransaction(txId, id, tier.value, cost);
      OfUserAppend(txs, t, who);
      if who == id {
        SumAppend(OfUser(txs, who), t);
      } else {
        assert OfUser(txs, who) + [] == OfUser(txs, who);
      }
      assert r.1 == txs + [t];
      assert r.0[who].credits == users[who].credits - (if who == id then cost else 0);
      assert Sum(OfUser(r.1, who)) == Sum(OfUser(txs, who)) + (if who == id then cost else 0);
      assert Ledger(r.0, r.1, who) == Ledger(users, txs, who);
    } else {
      assert r.0 == users && r.1 == txs;
    }
  }

  /** `/deduct` records only positive charges. */
  lemma DeductChargesPositive(users: UserTable, txs: seq<Transaction>, userId: Option<string>, tier: Option<string>, txId: string)
    requires PositiveCharges(txs)
    ensures PositiveCharges(Deduct(users, txs, userId, tier, txId).1)
  {
  }

  /** After the upgrade, `/deduct` charges nothing and records nothing, whatever the tier. */
  lemma DeductAfterUpgradeIsFree(users: UserTable, txs: seq<Transaction>, userId: string, tier: string, txId: string)
    requires userId != "" && userId in users && CostOf(tier).Some?
    ensures var upgraded := Upgrade(users, Some(userId)).0;
      Deduct(upgraded, txs, Some(userId), Some(tier), txId) == (upgraded, txs, Reply(200, ByokCharged))
  {
  }

  /** Upgrading twice is upgrading once. */
  lemma UpgradeIdempotent(users: UserTable, userId: Option<string>)
    ensures Upgrade(Upgrade(users, userId).0, userId) == Upgrade(users, userId)
  {
    var once := Upgrade(users, userId).0;
    if userId.Some? && userId.value != "" && userId.value in users {
      var id := userId.value;
      assert once[id].(isUnlimited := true, credits := 0) == once[id];
      assert once[id := once[id]] == once;
    }
  }

  /** With positive charges, a prefix sums to no more than the whole. */
  lemma {:induction false} SumPrefix(a: seq<Transaction>, b: seq<Transaction>)
    requires a <= b && PositiveCharges(b)
    ensures Sum(a) <= Sum(b)
    decreases |b|
  {
    if |a| < |b| {
      SumPrefix(a, b[..|b| - 1]);
    } else {
      assert a == b;
    }
  }

  lemma {:induction false} OfUserPositive(txs: seq<Transaction>, userId: string)
    requires PositiveCharges(txs)
    ensures PositiveCharges(OfUser(txs, userId))
  {
    var r := OfUser(txs, userId);
    forall i | 0 <= i < |r| ensures r[i].amount > 0 {
      assert r[i] in r;
      var j :| 0 <= j < |txs| && txs[j] == r[i];
    }
  }

  /** With positive charges, `spent` covers at least the transactions `/usage` lists. */
  lemma UsageSpentCoversListed(users: UserTable, txs: seq<Transaction>, userId: string)
    requires userId in users && PositiveCharges(txs)
    ensures GetUsage(users, txs, userId).body.report.spent >= Sum(GetUsage(users, txs, userId).body.report.transactions)
  {
    var history := History(txs, userId, 100);
    OfUserPositive(txs, userId);
    SumPrefix(Take(history, 10), history);
  }

  /**
   * The user rows and transactions as the service sees them; the routes work on them one
   * database call at a time.
   */
  class BillingStore {
    var users: UserTable
    var transactions: seq<Transaction>

    constructor (users: UserTable)
      ensures this.users == users && transactions == []
    {
      this.users := users;
      transactions := [];
    }

    /** `POST /deduct`. */
    method PostDeduct(userId: Option<string>, tier: Option<string>, txId: string) returns (reply: Reply)
      modifies this
      ensures (users, transactions, reply) == Deduct(old(users), old(transactions), userId, tier, txId)
    {
      if userId.None? || userId.value == "" || tier.None? || tier.value == "" {
        return Reply(400, Error("Missing userId or tier"));
      }
      var cost := CostOf(tier.value);
      if cost.None? {
        return Reply(400, Error("Invalid tier"));
      }
      var id := userId.value;
      if id !in users {
        return Reply(404, Error("User not found"));
      }
      var user := users[id];
      if user.isUnlimited {
        return Reply(200, ByokCharged);
      }
      if user.credits < cost.value {
        return Reply(402, Insufficient(cost.value, user.credits));
      }
      users := users[id := user.(credits := user.credits - cost.value)];
      transactions := transactions + [AuditTransaction(txId, id, tier.value, cost.value)];
      reply := Reply(200, Charged(user.credits - cost.value, txId));
    }

    /** `POST /upgrade-to-unlimited`. */
    method PostUpgrade(userId: Option<string>) returns (reply: Reply)
      modifies this
      ensures (users, reply) == Upgrade(old(users), userId)
      ensures transactions == old(transactions)
    {
      if userId.None? || userId.value == "" {
        return Reply(400, Error("Missing userId"));
      }
      var id := userId.value;
      if id !in users {
        return Reply(500, Error("Failed to upgrade account"));
      }
      users := users[id := users[id].(isUnlimited := true, credits := 0)];
      reply := Reply(200, Upgraded(UpgradeMessage));
    }
  }
}
