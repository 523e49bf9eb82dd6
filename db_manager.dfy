/** The bot's persistent store: users, Uptime Kuma monitors, the
    user-to-monitor assignment table and payments. The four SQLite tables are
    modelled as the fields of one object (three keyed tables and one set of key
    pairs); each method's effect is the effect of its SQL statement, and its
    boolean answer is stated against the state before the call. Timestamps are
    integers and the current time is a parameter. */
module Database {
  import opened Wrappers

  datatype UserRole = Admin | User | Blocked

  datatype PaymentStatus = Pending | Paid | Expired | Cancelled

  /** A row of `users`, keyed by the Telegram user id. */
  datatype UserRow = UserRow(
    role: UserRole,
    name: Option<string>,
    username: Option<string>,
    createdAt: int,
    subscriptionExpiresAt: Option<int>)

  /** A row of `monitors`, keyed by the Uptime Kuma monitor id. */
  datatype MonitorRow = MonitorRow(name: string, url: Option<string>, kind: Option<string>)

  /** A row of `payments`, keyed by its auto-incremented id. */
  datatype PaymentRow = PaymentRow(
    userId: int,
    amount: real,
    status: PaymentStatus,
    createdAt: int,
    paidAt: Option<int>,
    expiresAt: int,
    provider: Option<string>,
    providerPaymentId: Option<string>)

  // ---------------------------------------------------------------------------
  // The effect of each statement on one table
  // ---------------------------------------------------------------------------

  /** `INSERT ... ON CONFLICT(user_id) DO UPDATE SET role, name, username`:
      a new row gets the current time and no subscription; an existing row
      keeps its creation time and its subscription. */
  function UpsertUser(
    users: map<int, UserRow>, userId: int, role: UserRole,
    name: Option<string>, username: Option<string>, now: int): (r: map<int, UserRow>)
    ensures r.Keys == users.Keys + {userId}
    ensures r[userId].role == role && r[userId].name == name && r[userId].username == username
    ensures userId in users ==>
      r[userId].createdAt == users[userId].createdAt &&
      r[userId].subscriptionExpiresAt == users[userId].subscriptionExpiresAt
    ensures userId !in users ==> r[userId].createdAt == now && r[userId].subscriptionExpiresAt.None?
    ensures forall id :: id in users && id != userId ==> r[id] == users[id]
  {
    if userId in users then
      users[userId := users[userId].(role := role, name := name, username := username)]
    else
      users[userId := UserRow(role, name, username, now, None)]
  }

  /** `SELECT * FROM users WHERE role = ?`. */
  function UsersWithRole(users: map<int, UserRow>, role: UserRole): (r: map<int, UserRow>)
    ensures forall id :: id in r <==> id in users && users[id].role == role
    ensures forall id :: id in r ==> r[id] == users[id]
  {
    map id | id in users && users[id].role == role :: users[id]
  }

  /** The join of `monitors` with the user's rows of `user_monitors`: an
      assignment whose monitor has no row contributes nothing. */
  function MonitorsOf(monitors: map<int, MonitorRow>, assignments: set<(int, int)>, userId: int): (r: map<int, MonitorRow>)
    ensures forall mid :: mid in r <==> mid in monitors && (userId, mid) in assignments
    ensures forall mid :: mid in r ==> r[mid] == monitors[mid]
  {
    map mid | mid in monitors && (userId, mid) in assignments :: monitors[mid]
  }

  /** The `paid_at` that `update_payment_status` writes: the given one, or the
      current time when the new status is PAID and none was given. */
  function EffectivePaidAt(status: PaymentStatus, paidAt: Option<int>, now: int): (r: Option<int>)
    ensures paidAt.Some? ==> r == paidAt
    ensures status == Paid ==> r.Some?
    ensures status != Paid ==> r == paidAt
    ensures r.Some? && paidAt.None? ==> r.value == now
  {
    if status == Paid && paidAt.None? then Some(now) else paidAt
  }

  /** `UPDATE users SET subscription_expires_at = ? WHERE user_id = ?`: no row
      is created when the user is unknown. */
  function SetSubscriptionExpiry(users: map<int, UserRow>, userId: int, expiresAt: int): (r: map<int, UserRow>)
    ensures r.Keys == users.Keys
    ensures userId in users ==> r[userId] == users[userId].(subscriptionExpiresAt := Some(expiresAt))
    ensures forall id :: id in users && id != userId ==> r[id] == users[id]
  {
    if userId in users then users[userId := users[userId].(subscriptionExpiresAt := Some(expiresAt))] else users
  }

  /** A subscription is active when the user has a row, the row has an expiry,
      and the expiry is later than `now`. */
  predicate SubscriptionActive(users: map<int, UserRow>, userId: int, now: int) {
    userId in users && users[userId].subscriptionExpiresAt.Some? && users[userId].subscriptionExpiresAt.value > now
  }

  // ---------------------------------------------------------------------------
  // Payments of one user, newest first
  // ---------------------------------------------------------------------------

  /** The ids of a listing of payments. */
  ghost function Ids(xs: seq<(int, PaymentRow)>): set<int>
    decreases |xs|
  {
    if xs == [] then {} else {xs[0].0} + Ids(xs[1..])
  }

  /** No payment is listed twice. */
  ghost predicate DistinctIds(xs: seq<(int, PaymentRow)>)
    decreases |xs|
  {
    xs == [] || (xs[0].0 !in Ids(xs[1..]) && DistinctIds(xs[1..]))
  }

  /** `ORDER BY created_at DESC`; payments created at the same time may come in
      either order. */
  ghost predicate NewestFirst(xs: seq<(int, PaymentRow)>) {
    forall i, j :: 0 <= i < j < |xs| ==> xs[i].1.createdAt >= xs[j].1.createdAt
  }

  /** Puts `p` before the first listed payment that is not newer than it. */
  function InsertNewestFirst(xs: seq<(int, PaymentRow)>, p: (int, PaymentRow)): (r: seq<(int, PaymentRow)>)
    ensures |r| == |xs| + 1
    ensures forall k :: 0 <= k < |r| ==> r[k] in xs || r[k] == p
    ensures p in r && forall q :: q in xs ==> q in r
    decreases |xs|
  {
    if xs == [] then [p]
    else if p.1.createdAt >= xs[0].1.createdAt then [p] + xs
    else [xs[0]] + InsertNewestFirst(xs[1..], p)
  }

  lemma NewestFirstTail(xs: seq<(int, PaymentRow)>)
    requires xs != [] && NewestFirst(xs)
    ensures NewestFirst(xs[1..])
    ensures forall q :: q in xs[1..] ==> xs[0].1.createdAt >= q.1.createdAt
  {
    forall i, j | 0 <= i < j < |xs[1..]| ensures xs[1..][i].1.createdAt >= xs[1..][j].1.createdAt {
      assert xs[1..][i] == xs[i + 1] && xs[1..][j] == xs[j + 1];
    }
    forall q | q in xs[1..] ensures xs[0].1.createdAt >= q.1.createdAt {
      var k :| 0 <= k < |xs[1..]| && xs[1..][k] == q;
      assert xs[k + 1] == q;
    }
  }

  lemma NewestFirstCons(x: (int, PaymentRow), ys: seq<(int, PaymentRow)>)
    requires NewestFirst(ys)
    requires forall q :: q in ys ==> x.1.createdAt >= q.1.createdAt
    ensures NewestFirst([x] + ys)
  {
    var r := [x] + ys;
    forall i, j | 0 <= i < j < |r| ensures r[i].1.createdAt >= r[j].1.createdAt {
      assert r[j] == ys[j - 1];
      if i > 0 {
        assert r[i] == ys[i - 1];
      }
    }
  }

  lemma {:induction false} InsertKeepsOrder(xs: seq<(int, PaymentRow)>, p: (int, PaymentRow))
    requires NewestFirst(xs)
    ensures NewestFirst(InsertNewestFirst(xs, p))
    decreases |xs|
  {
    if xs == [] {
      assert NewestFirst([p]);
    } else {
      NewestFirstTail(xs);
      if p.1.createdAt >= xs[0].1.createdAt {
        assert xs == [xs[0]] + xs[1..];
        NewestFirstCons(p, xs);
      } else {
        InsertKeepsOrder(xs[1..], p);
        NewestFirstCons(xs[0], InsertNewestFirst(xs[1..], p));
      }
    }
  }

  lemma {:induction false} InsertIds(xs: seq<(int, PaymentRow)>, p: (int, PaymentRow))
    ensures Ids(InsertNewestFirst(xs, p)) == Ids(xs) + {p.0}
    ensures DistinctIds(xs) && p.0 !in Ids(xs) ==> DistinctIds(InsertNewestFirst(xs, p))
    decreases |xs|
  {
    if xs == [] {
      assert [p][1..] == [];
    } else if p.1.createdAt >= xs[0].1.createdAt {
      assert ([p] + xs)[1..] == xs;
    } else {
      var rest := InsertNewestFirst(xs[1..], p);
      InsertIds(xs[1..], p);
      assert ([xs[0]] + rest)[1..] == rest;
    }
  }

  /** Every listed payment is listed with its stored row. */
  ghost predicate ListedAsStored(payments: map<int, PaymentRow>, xs: seq<(int, PaymentRow)>) {
    forall q :: q in xs ==> q.0 in payments && q.1 == payments[q.0]
  }

  /** The ids of the payments owned by `userId` that are below `bound`. */
  ghost function OwnedBelow(payments: map<int, PaymentRow>, userId: int, bound: int): set<int> {
    set i | i in payments && payments[i].userId == userId && i < bound
  }

  lemma OwnedBelowStep(payments: map<int, PaymentRow>, userId: int, id: int)
    ensures OwnedBelow(payments, userId, id + 1) ==
      if id in payments && payments[id].userId == userId then OwnedBelow(payments, userId, id) + {id}
      else OwnedBelow(payments, userId, id)
  {
  }

  /** The rows of `payments` owned by `userId`, sorted as `ORDER BY
      created_at DESC` sorts them; every id is below `bound`, so scanning the
      ids in order finds them all. */
  method PaymentsNewestFirst(payments: map<int, PaymentRow>, bound: int, userId: int) returns (r: seq<(int, PaymentRow)>)
    requires forall id :: id in payments ==> 1 <= id < bound
    ensures Ids(r) == set id | id in payments && payments[id].userId == userId
    ensures DistinctIds(r)
    ensures ListedAsStored(payments, r)
    ensures NewestFirst(r)
  {
    r := [];
    var id := 1;
    assert OwnedBelow(payments, userId, 1) == {};
    while id < bound
      invariant id <= bound || bound < 1
      invariant Ids(r) == OwnedBelow(payments, userId, id)
      invariant DistinctIds(r)
      invariant ListedAsStored(payments, r)
      invariant NewestFirst(r)
    {
      OwnedBelowStep(payments, userId, id);
      if id in payments && payments[id].userId == userId {
        var p := (id, payments[id]);
        InsertIds(r, p);
        InsertKeepsOrder(r, p);
        r := InsertNewestFirst(r, p);
      }
      id := id + 1;
    }
    assert OwnedBelow(payments, userId, id) == set i | i in payments && payments[i].userId == userId;
  }

  // ---------------------------------------------------------------------------
  // The store
  // ---------------------------------------------------------------------------

  class DbManager {
    var users: map<int, UserRow>
    var monitors: map<int, MonitorRow>
    /** `user_monitors`: its primary key is the (user_id, monitor_id) pair. */
    var assignments: set<(int, int)>
    var payments: map<int, PaymentRow>
    /** The id `AUTOINCREMENT` hands to the next payment. */
    var nextPaymentId: int

    /** Payment ids start at 1 and every stored id was handed out before. */
    ghost predicate Valid()
      reads this
    {
      1 <= nextPaymentId && forall id :: id in payments ==> 1 <= id < nextPaymentId
    }

    /** `_create_tables` on a fresh database file. */
    constructor()
      ensures Valid()
      ensures users == map[] && monitors == map[] && assignments == {} && payments == map[]
      ensures nextPaymentId == 1
    {
      users := map[];
      monitors := map[];
      assignments := {};
      payments := map[];
      nextPaymentId := 1;
    }

    // --- users ---------------------------------------------------------------

    method AddOrUpdateUser(userId: int, role: UserRole, name: Option<string>, username: Option<string>, now: int)
      returns (ok: bool)
      modifies this`users
      ensures ok
      ensures users == UpsertUser(old(users), userId, role, name, username, now)
    {
      users := UpsertUser(users, userId, role, name, username, now);
      ok := true;
    }

    method GetUser(userId: int) returns (r: Option<UserRow>)
      ensures r.None? <==> userId !in users
      ensures r.Some? ==> r.value == users[userId]
    {
      if userId in users {
        r := Some(users[userId]);
      } else {
        r := None;
      }
    }

    method GetAllUsers() returns (r: map<int, UserRow>)
      ensures r == users
    {
      r := users;
    }

    /** The assignments and payments of the user stay: the foreign keys are
        declared but never enforced. */
    method DeleteUser(userId: int) returns (ok: bool)
      modifies this`users
      ensures ok <==> userId in old(users)
      ensures users == old(users) - {userId}
    {
      ok := userId in users;
      users := users - {userId};
    }

    method GetUsersByRole(role: UserRole) returns (r: map<int, UserRow>)
      ensures r == UsersWithRole(users, role)
    {
      r := UsersWithRole(users, role);
    }

    // --- monitors ------------------------------------------------------------

    /** An upsert that rewrites every column, so the row becomes the arguments. */
    method AddOrUpdateMonitor(monitorId: int, name: string, url: Option<string>, kind: Option<string>)
      returns (ok: bool)
      modifies this`monitors
      ensures ok
      ensures monitors == old(monitors)[monitorId := MonitorRow(name, url, kind)]
    {
      monitors := monitors[monitorId := MonitorRow(name, url, kind)];
      ok := true;
    }

    method GetMonitor(monitorId: int) returns (r: Option<MonitorRow>)
      ensures r.None? <==> monitorId !in monitors
      ensures r.Some? ==> r.value == monitors[monitorId]
    {
      if monitorId in monitors {
        r := Some(monitors[monitorId]);
      } else {
        r := None;
      }
    }

    // --- assignments ---------------------------------------------------------

    /** `INSERT OR IGNORE`: true exactly when the pair was not there yet. */
    method AssignMonitorToUser(userId: int, monitorId: int) returns (ok: bool)
      modifies this`assignments
      ensures ok <==> (userId, monitorId) !in old(assignments)
      ensures assignments == old(assignments) + {(userId, monitorId)}
    {
      ok := (userId, monitorId) !in assignments;
      assignments := assignments + {(userId, monitorId)};
    }

    /** True exactly when the pair was there; other pairs stay. */
    method UnassignMonitorFromUser(userId: int, monitorId: int) returns (ok: bool)
      modifies this`assignments
      ensures ok <==> (userId, monitorId) in old(assignments)
      ensures assignments == old(assignments) - {(userId, monitorId)}
    {
      ok := (userId, monitorId) in assignments;
      assignments := assignments - {(userId, monitorId)};
    }

    method GetUserMonitors(userId: int) returns (r: map<int, MonitorRow>)
      ensures r == MonitorsOf(monitors, assignments, userId)
    {
      r := MonitorsOf(monitors, assignments, userId);
    }

    // --- payments ------------------------------------------------------------

    /** A new row with the next id, no payment time and the current time as its
        creation time. The owner need not exist. */
    method CreatePayment(
      userId: int, amount: real, status: PaymentStatus, expiresAt: int,
      provider: Option<string>, providerPaymentId: Option<string>, now: int)
      returns (paymentId: Option<int>)
      requires Valid()
      modifies this`payments, this`nextPaymentId
      ensures Valid()
      ensures paymentId == Some(old(nextPaymentId)) && old(nextPaymentId) !in old(payments)
      ensures payments == old(payments)[old(nextPaymentId) :=
        PaymentRow(userId, amount, status, now, None, expiresAt, provider, providerPaymentId)]
      ensures nextPaymentId == old(nextPaymentId) + 1
    {
      var id := nextPaymentId;
      payments := payments[id := PaymentRow(userId, amount, status, now, None, expiresAt, provider, providerPaymentId)];
      nextPaymentId := nextPaymentId + 1;
      paymentId := Some(id);
    }

    /** Writes the status and the effective payment time; when the new status
        is PAID, copies the payment's expiry onto its owner's subscription. */
    method UpdatePaymentStatus(paymentId: int, status: PaymentStatus, paidAt: Option<int>, now: int)
      returns (ok: bool)
      requires Valid()
      modifies this`payments, this`users
      ensures Valid()
      ensures ok <==> paymentId in old(payments)
      ensures !ok ==> payments == old(payments) && users == old(users)
      ensures ok ==> payments == old(payments)[paymentId :=
        old(payments)[paymentId].(status := status, paidAt := EffectivePaidAt(status, paidAt, now))]
      ensures ok && status == Paid ==>
        users == SetSubscriptionExpiry(old(users), old(payments)[paymentId].userId, old(payments)[paymentId].expiresAt)
      ensures status != Paid ==> users == old(users)
    {
      var stamp := EffectivePaidAt(status, paidAt, now);
      if paymentId in payments {
        payments := payments[paymentId := payments[paymentId].(status := status, paidAt := stamp)];
        if status == Paid {
          var info := GetPayment(paymentId);
          if info.Some? {
            var _ := UpdateUserSubscriptionExpiry(info.value.userId, info.value.expiresAt);
          }
        }
        ok := true;
      } else {
        ok := false;
      }
    }

    method GetPayment(paymentId: int) returns (r: Option<PaymentRow>)
      ensures r.None? <==> paymentId !in payments
      ensures r.Some? ==> r.value == payments[paymentId]
    {
      if paymentId in payments {
        r := Some(payments[paymentId]);
      } else {
        r := None;
      }
    }

    /** All payments of the user, each once, with its id, newest first. */
    method GetUserPayments(userId: int) returns (r: seq<(int, PaymentRow)>)
      requires Valid()
      ensures Ids(r) == set id | id in payments && payments[id].userId == userId
      ensures DistinctIds(r)
      ensures ListedAsStored(payments, r)
      ensures NewestFirst(r)
    {
      r := PaymentsNewestFirst(payments, nextPaymentId, userId);
    }

    /** Always true, also when no user row matches. */
    method UpdateUserSubscriptionExpiry(userId: int, expiresAt: int) returns (ok: bool)
      modifies this`users
      ensures ok
      ensures users == SetSubscriptionExpiry(old(users), userId, expiresAt)
    {
      users := SetSubscriptionExpiry(users, userId, expiresAt);
      ok := true;
    }

    /** Looks the user up and compares the stored expiry with `now`. */
    method CheckSubscriptionStatus(userId: int, now: int) returns (active: bool)
      ensures active == SubscriptionActive(users, userId, now)
      ensures !(userId in users) ==> !active
      ensures userId in users && users[userId].subscriptionExpiresAt.None? ==> !active
    {
      var info := GetUser(userId);
      if info.None? || info.value.subscriptionExpiresAt.None? {
        return false;
      }
      active := info.value.subscriptionExpiresAt.value > now;
    }
  }

  // ---------------------------------------------------------------------------
  // Properties across calls
  // ---------------------------------------------------------------------------

  /** A second assignment of the same pair answers false and changes nothing. */
  method AssignTwice(db: DbManager, userId: int, monitorId: int) returns (first: bool, second: bool)
    modifies db`assignments
    ensures first <==> (userId, monitorId) !in old(db.assignments)
    ensures !second
    ensures db.assignments == old(db.assignments) + {(userId, monitorId)}
  {
    first := db.AssignMonitorToUser(userId, monitorId);
    var between := db.assignments;
    second := db.AssignMonitorToUser(userId, monitorId);
    assert db.assignments == between;
  }

  /** Every user is listed under its own role and under no other, so the three
      role listings together are exactly the users. */
  lemma RolesPartitionUsers(users: map<int, UserRow>, id: int, role: UserRole)
    requires id in users
    ensures id in UsersWithRole(users, role) <==> users[id].role == role
    ensures UsersWithRole(users, Admin).Keys + UsersWithRole(users, User).Keys + UsersWithRole(users, Blocked).Keys == users.Keys
  {
    var all := UsersWithRole(users, Admin).Keys + UsersWithRole(users, User).Keys + UsersWithRole(users, Blocked).Keys;
    forall k | k in users ensures k in all {
      match users[k].role
      case Admin => assert k in UsersWithRole(users, Admin);
      case User => assert k in UsersWithRole(users, User);
      case Blocked => assert k in UsersWithRole(users, Blocked);
    }
  }

  /** After an assignment the user's monitors gain the monitor (when it has a
      row) and nothing else; after an unassignment they lose exactly it. */
  lemma AssignmentChangesMonitorsOf(
    monitors: map<int, MonitorRow>, assignments: set<(int, int)>, userId: int, monitorId: int)
    ensures MonitorsOf(monitors, assignments + {(userId, monitorId)}, userId) ==
      if monitorId in monitors then MonitorsOf(monitors, assignments, userId)[monitorId := monitors[monitorId]]
      else MonitorsOf(monitors, assignments, userId)
    ensures MonitorsOf(monitors, assignments - {(userId, monitorId)}, userId) ==
      MonitorsOf(monitors, assignments, userId) - {monitorId}
  {
  }

  /** Other users' assignments never show up in a user's monitors. */
  lemma OtherUsersAssignmentsInvisible(
    monitors: map<int, MonitorRow>, assignments: set<(int, int)>, userId: int, other: int, monitorId: int)
    requires other != userId
    ensures MonitorsOf(monitors, assignments + {(other, monitorId)}, userId) == MonitorsOf(monitors, assignments, userId)
  {
  }

  /** Re-registering a known user keeps its subscription; a newly registered
      user has none. */
  lemma UpsertKeepsSubscription(
    users: map<int, UserRow>, userId: int, role: UserRole,
    name: Option<string>, username: Option<string>, now: int, t: int)
    ensures SubscriptionActive(UpsertUser(users, userId, role, name, username, now), userId, t) <==>
      SubscriptionActive(users, userId, t)
  {
  }

  /** Paying activates the owner's subscription exactly when the owner has a
      row and the payment's expiry is still ahead; other users are unaffected. */
  lemma PaymentActivatesSubscription(users: map<int, UserRow>, p: PaymentRow, other: int, now: int)
    ensures SubscriptionActive(SetSubscriptionExpiry(users, p.userId, p.expiresAt), p.userId, now) <==>
      p.userId in users && p.expiresAt > now
    ensures other != p.userId ==>
      (SubscriptionActive(SetSubscriptionExpiry(users, p.userId, p.expiresAt), other, now) <==>
       SubscriptionActive(users, other, now))
  {
  }

  /** A deleted user has no active subscription. */
  lemma DeletedUserHasNoSubscription(users: map<int, UserRow>, userId: int, now: int)
    ensures !SubscriptionActive(users - {userId}, userId, now)
  {
  }
}
