/** `src/app/api/notifications/check/route.ts`: the `POST` handler that scans,
    for every user, the service contracts and the hot or warm opportunities
    whose close date falls within the coming week, and files a reminder for
    each one that has not been reminded of in the last 24 hours.

    Times are milliseconds since the epoch and days are day numbers (days
    since the epoch, UTC); the clock is read once, as `now`. */
module NotificationCheck {
  import opened Common
  import opened Seqs
  import opened JsText
  import opened Utils

  /** The `profiles` columns the route reads. */
  datatype Profile = Profile(id: string, fullName: Option<string>, email: Option<string>)

  /** The `service_contracts` columns the route reads; the close date as a day number. */
  datatype ContractDue = ContractDue(id: string, clientName: string, closeDay: Option<int>)

  /** The `sales_funnel` columns the route reads. */
  datatype SalesDue = SalesDue(id: string, clientName: string, closeDay: Option<int>, stage: string)

  /** A row of `notifications` (the read flag, which the route leaves to its
      default, is left out). */
  datatype Notification = Notification(
    userId: string,
    title: string,
    message: string,
    kind: string,
    relatedType: string,
    relatedId: string,
    link: string,
    createdAt: int)

  /** What the duplicate check matches on: the user, the related table and the related row. */
  type Key = (string, string, string)

  function KeyOf(n: Notification): Key
  {
    (n.userId, n.relatedType, n.relatedId)
  }

  /** What the route sees of the world: the clock, the two tables it scans, and
      the queries and inserts the database fails (a user whose contracts or
      sales query fails, a key whose duplicate check fails, a key whose insert
      is rejected). */
  datatype Env = Env(
    now: int,
    contracts: seq<ContractDue>,
    sales: seq<SalesDue>,
    contractsFail: set<string>,
    salesFail: set<string>,
    lookupFail: set<Key>,
    rejected: set<Key>)

  /** The day of a moment: the date part of `toISOString()`. */
  function Today(now: int): int
  {
    now / DayMs
  }

  /** `close_date` between today and the day seven days from now, both included
      (a null date matches neither bound). */
  predicate InWindow(day: Option<int>, now: int)
  {
    day.Some? && Today(now) <= day.value <= Today(now + 7 * DayMs)
  }

  /** The window is the eight days from today on. */
  lemma WindowIsEightDays(now: int)
    ensures Today(now + 7 * DayMs) == Today(now) + 7
  {
  }

  /** `Math.ceil(a / d)` for a positive d. */
  function CeilDiv(a: int, d: int): int
    requires d > 0
  {
    -((-a) / d)
  }

  /** `daysUntilExpiry`: whole days, rounded up, from now to the start of the close day. */
  function DaysUntil(day: int, now: int): int
  {
    CeilDiv(day * DayMs - now, DayMs)
  }

  /** A contract in the window expires in 0 to 7 days. */
  lemma DaysUntilInWindow(day: int, now: int)
    requires InWindow(Some(day), now)
    ensures 0 <= DaysUntil(day, now) <= 7
  {
    WindowIsEightDays(now);
    var t := now / DayMs;
    var r := now % DayMs;
    assert now == t * DayMs + r && 0 <= r < DayMs;
    var a := day * DayMs - now;
    assert a == (day - t) * DayMs - r;
    assert -DayMs < a <= 7 * DayMs;
  }

  /** The contracts the query selects. */
  function DueContract(now: int): ContractDue -> bool
  {
    (c: ContractDue) => InWindow(c.closeDay, now)
  }

  /** The opportunities the query selects: stage Hot or Warm, in the window. */
  function DueSale(now: int): SalesDue -> bool
  {
    (s: SalesDue) => (s.stage == "Hot" || s.stage == "Warm") && InWindow(s.closeDay, now)
  }

  /** The reminder of a contract about to expire. */
  function ContractReminder(userId: string, c: ContractDue, now: int): Notification
  {
    Notification(userId, "Гэрээ дуусах дөхөж байна",
                 c.clientName + " - " + IntToString(DaysUntil(OrZero(c.closeDay), now)) + " хоногийн дараа дуусна",
                 "reminder", "service_contract", c.id, "/service-contracts/" + c.id, now)
  }

  /** The reminder of an opportunity about to close. */
  function SalesReminder(userId: string, s: SalesDue, now: int): Notification
  {
    Notification(userId, "Борлуулалт хаах хугацаа дөхөж байна", s.clientName + " - хаах хугацаа ойрхон байна",
                 "reminder", "sales_funnel", s.id, "/sales-funnel/" + s.id, now)
  }

  /** The contract reminders a user is due, in query order. */
  function ContractReminders(userId: string, env: Env): seq<Notification>
  {
    var due := Filter(env.contracts, DueContract(env.now));
    seq(|due|, i requires 0 <= i < |due| => ContractReminder(userId, due[i], env.now))
  }

  /** The sales reminders a user is due, in query order. */
  function SalesReminders(userId: string, env: Env): seq<Notification>
  {
    var due := Filter(env.sales, DueSale(env.now));
    seq(|due|, i requires 0 <= i < |due| => SalesReminder(userId, due[i], env.now))
  }

  /** Notifications under key k created at `since` or later. */
  function SameKeySince(k: Key, since: int): Notification -> bool
  {
    (n: Notification) => KeyOf(n) == k && n.createdAt >= since
  }

  /** The duplicate check: the notifications under key k of the last 24 hours. */
  function Existing(rows: seq<Notification>, k: Key, now: int): seq<Notification>
  {
    Filter(rows, SameKeySince(k, now - DayMs))
  }

  /** The table and the counter as the scan goes. */
  datatype Scan = Scan(rows: seq<Notification>, created: nat)

  /** One reminder: filed when the duplicate check finds nothing (or fails, as
      its missing result reads as nothing); a rejected insert still counts,
      the route not checking the insert's error. */
  function Remind(s: Scan, n: Notification, env: Env): Scan
  {
    if KeyOf(n) in env.lookupFail || Existing(s.rows, KeyOf(n), env.now) == [] then
      Scan(if KeyOf(n) in env.rejected then s.rows else s.rows + [n], s.created + 1)
    else s
  }

  /** The reminders in order. */
  function RemindAll(s: Scan, ns: seq<Notification>, env: Env): Scan
    decreases |ns|
  {
    if ns == [] then s else Remind(RemindAll(s, ns[..|ns| - 1], env), ns[|ns| - 1], env)
  }

  /** One user: the contract reminders, then the sales reminders; a failed
      contracts query skips both, a failed sales query the second. */
  function UserScan(s: Scan, userId: string, env: Env): Scan
  {
    if userId in env.contractsFail then s
    else
      var s1 := RemindAll(s, ContractReminders(userId, env), env);
      if userId in env.salesFail then s1 else RemindAll(s1, SalesReminders(userId, env), env)
  }

  /** Every user in order. */
  function ScanUsers(s: Scan, users: seq<Profile>, env: Env): Scan
    decreases |users|
  {
    if users == [] then s else UserScan(ScanUsers(s, users[..|users| - 1], env), users[|users| - 1].id, env)
  }

  /** The JSON response. */
  datatype Response =
    | Created(notificationsCreated: nat, message: string)
    | Failed(status: nat, error: string)

  /** The fold over one more reminder is one more step. */
  lemma RemindAllStep(s: Scan, ns: seq<Notification>, k: nat, env: Env)
    requires k < |ns|
    ensures RemindAll(s, ns[..k + 1], env) == Remind(RemindAll(s, ns[..k], env), ns[k], env)
  {
    assert ns[..k + 1][..k] == ns[..k];
  }

  /** The `notifications` table. */
  class NotificationStore {
    var rows: seq<Notification>

    constructor ()
      ensures rows == []
    {
      rows := [];
    }
  }

  /** The loop over one user's due contracts. */
  method RemindContracts(store: NotificationStore, userId: string, env: Env, created: nat) returns (count: nat)
    modifies store
    ensures Scan(store.rows, count) == RemindAll(Scan(old(store.rows), created), ContractReminders(userId, env), env)
  {
    var contracts := Filter(env.contracts, DueContract(env.now));
    ghost var ns := ContractReminders(userId, env);
    ghost var start := Scan(store.rows, created);
    count := created;
    var k := 0;
    while k < |contracts|
      invariant 0 <= k <= |contracts| && |ns| == |contracts|
      invariant Scan(store.rows, count) == RemindAll(start, ns[..k], env)
    {
      var n := ContractReminder(userId, contracts[k], env.now);
      assert n == ns[k];
      RemindAllStep(start, ns, k, env);
      ghost var before := Scan(store.rows, count);
      var existing := Existing(store.rows, KeyOf(n), env.now);
      if KeyOf(n) in env.lookupFail || |existing| == 0 {
        if KeyOf(n) !in env.rejected {
          store.rows := store.rows + [n];
        }
        count := count + 1;
      }
      assert Scan(store.rows, count) == Remind(before, n, env);
      k := k + 1;
    }
    assert ns[..k] == ns;
  }

  /** The loop over one user's due opportunities. */
  method RemindSales(store: NotificationStore, userId: string, env: Env, created: nat) returns (count: nat)
    modifies store
    ensures Scan(store.rows, count) == RemindAll(Scan(old(store.rows), created), SalesReminders(userId, env), env)
  {
    var items := Filter(env.sales, DueSale(env.now));
    ghost var ns := SalesReminders(userId, env);
    ghost var start := Scan(store.rows, created);
    count := created;
    var k := 0;
    while k < |items|
      invariant 0 <= k <= |items| && |ns| == |items|
      invariant Scan(store.rows, count) == RemindAll(start, ns[..k], env)
    {
      var n := SalesReminder(userId, items[k], env.now);
      assert n == ns[k];
      RemindAllStep(start, ns, k, env);
      ghost var before := Scan(store.rows, count);
      var existing := Existing(store.rows, KeyOf(n), env.now);
      if KeyOf(n) in env.lookupFail || |existing| == 0 {
        if KeyOf(n) !in env.rejected {
          store.rows := store.rows + [n];
        }
        count := count + 1;
      }
      assert Scan(store.rows, count) == Remind(before, n, env);
      k := k + 1;
    }
    assert ns[..k] == ns;
  }

  /** `POST`: a failed users query answers 500 and files nothing; otherwise
      every user is scanned and the number of reminders filed is returned. */
  method Post(store: NotificationStore, users: Option<seq<Profile>>, env: Env) returns (r: Response)
    modifies store
    ensures users.None? ==> r == Failed(500, "Failed to fetch users") && store.rows == old(store.rows)
    ensures users.Some? ==>
              var s := ScanUsers(Scan(old(store.rows), 0), users.value, env);
              store.rows == s.rows && r == Created(s.created, "Created " + NatToString(s.created) + " notifications")
  {
    if users.None? {
      return Failed(500, "Failed to fetch users");
    }
    var us := users.value;
    var created: nat := 0;
    var u := 0;
    while u < |us|
      invariant 0 <= u <= |us|
      invariant Scan(store.rows, created) == ScanUsers(Scan(old(store.rows), 0), us[..u], env)
    {
      var user := us[u];
      assert us[..u + 1][..u] == us[..u];
      if user.id !in env.contractsFail {
        created := RemindContracts(store, user.id, env, created);
        if user.id !in env.salesFail {
          created := RemindSales(store, user.id, env, created);
        }
      }
      u := u + 1;
    }
    assert us[..u] == us;
    r := Created(created, "Created " + NatToString(created) + " notifications");
  }

  // ---------------------------------------------------------------- what a scan files

  /** b is a continuation of a. */
  predicate Extends(a: seq<Notification>, b: seq<Notification>)
  {
    |a| <= |b| && b[..|a|] == a
  }

  /** A reminder the scan may file: for one of the users, stamped now, about a
      contract due in the window or a hot or warm opportunity due in it. */
  predicate MadeFor(n: Notification, ids: set<string>, env: Env)
  {
    && n.userId in ids && n.createdAt == env.now && n.kind == "reminder"
    && ((n.relatedType == "service_contract"
         && exists c :: c in env.contracts && c.id == n.relatedId && InWindow(c.closeDay, env.now))
        || (n.relatedType == "sales_funnel"
            && exists s :: s in env.sales && s.id == n.relatedId && (s.stage == "Hot" || s.stage == "Warm")
                           && InWindow(s.closeDay, env.now)))
  }

  /** Every row added after `base` was checked against the rows before it and
      found no notification under its key from the last 24 hours. */
  predicate Fresh(base: seq<Notification>, rows: seq<Notification>, now: int)
  {
    forall i :: |base| <= i < |rows| ==> Existing(rows[..i], KeyOf(rows[i]), now) == []
  }

  /** How a scan from s to t may have changed things: rows only added, each a
      reminder for one of the users, each counted (rejected inserts counted
      too), and each checked fresh when no duplicate check fails. */
  predicate Grows(s: Scan, t: Scan, ids: set<string>, env: Env)
  {
    && Extends(s.rows, t.rows)
    && t.created - s.created >= |t.rows| - |s.rows|
    && (env.rejected == {} ==> t.created - s.created == |t.rows| - |s.rows|)
    && (forall i :: |s.rows| <= i < |t.rows| ==> MadeFor(t.rows[i], ids, env))
    && (env.lookupFail == {} ==> Fresh(s.rows, t.rows, env.now))
  }

  lemma GrowsTransitive(s: Scan, t: Scan, u: Scan, ids: set<string>, env: Env)
    requires Grows(s, t, ids, env) && Grows(t, u, ids, env)
    ensures Grows(s, u, ids, env)
  {
    assert u.rows[..|s.rows|] == u.rows[..|t.rows|][..|s.rows|];
    forall i | |s.rows| <= i < |t.rows|
      ensures MadeFor(u.rows[i], ids, env)
      ensures env.lookupFail == {} ==> Existing(u.rows[..i], KeyOf(u.rows[i]), env.now) == []
    {
      assert u.rows[i] == t.rows[i];
      assert u.rows[..i] == t.rows[..i];
    }
  }

  lemma GrowsWider(s: Scan, t: Scan, ids: set<string>, wider: set<string>, env: Env)
    requires Grows(s, t, ids, env) && ids <= wider
    ensures Grows(s, t, wider, env)
  {
  }

  /** One reminder keeps the scan growing. */
  lemma RemindGrows(s: Scan, n: Notification, ids: set<string>, env: Env)
    requires MadeFor(n, ids, env)
    ensures Grows(s, Remind(s, n, env), ids, env)
  {
    var t := Remind(s, n, env);
    if t.rows != s.rows {
      assert t.rows == s.rows + [n];
      assert t.rows[..|s.rows|] == s.rows;
    }
  }

  /** A run of reminders keeps the scan growing. */
  lemma {:induction false} RemindAllGrows(s: Scan, ns: seq<Notification>, ids: set<string>, env: Env)
    requires forall i :: 0 <= i < |ns| ==> MadeFor(ns[i], ids, env)
    ensures Grows(s, RemindAll(s, ns, env), ids, env)
    decreases |ns|
  {
    if ns != [] {
      var init := ns[..|ns| - 1];
      var mid := RemindAll(s, init, env);
      RemindAllGrows(s, init, ids, env);
      RemindGrows(mid, ns[|ns| - 1], ids, env);
      GrowsTransitive(s, mid, RemindAll(s, ns, env), ids, env);
    } else {
      assert s.rows[..|s.rows|] == s.rows;
    }
  }

  /** The reminders due to a user are reminders for that user. */
  lemma RemindersMadeFor(userId: string, env: Env)
    ensures forall i :: 0 <= i < |ContractReminders(userId, env)| ==> MadeFor(ContractReminders(userId, env)[i], {userId}, env)
    ensures forall i :: 0 <= i < |SalesReminders(userId, env)| ==> MadeFor(SalesReminders(userId, env)[i], {userId}, env)
  {
    var dc := Filter(env.contracts, DueContract(env.now));
    forall i | 0 <= i < |dc| ensures dc[i] in env.contracts && InWindow(dc[i].closeDay, env.now) {
      FilterContains(env.contracts, DueContract(env.now), dc[i]);
      assert DueContract(env.now)(dc[i]);
    }
    var ds := Filter(env.sales, DueSale(env.now));
    forall i | 0 <= i < |ds|
      ensures ds[i] in env.sales && (ds[i].stage == "Hot" || ds[i].stage == "Warm") && InWindow(ds[i].closeDay, env.now)
    {
      FilterContains(env.sales, DueSale(env.now), ds[i]);
      assert DueSale(env.now)(ds[i]);
    }
  }

  lemma UserScanGrows(s: Scan, userId: string, env: Env)
    ensures Grows(s, UserScan(s, userId, env), {userId}, env)
  {
    RemindersMadeFor(userId, env);
    if userId in env.contractsFail {
      assert s.rows[..|s.rows|] == s.rows;
    } else {
      var s1 := RemindAll(s, ContractReminders(userId, env), env);
      RemindAllGrows(s, ContractReminders(userId, env), {userId}, env);
      if userId !in env.salesFail {
        RemindAllGrows(s1, SalesReminders(userId, env), {userId}, env);
        GrowsTransitive(s, s1, UserScan(s, userId, env), {userId}, env);
      }
    }
  }

  function Ids(users: seq<Profile>): set<string>
  {
    set u | u in users :: u.id
  }

  lemma {:induction false} ScanUsersGrows(s: Scan, users: seq<Profile>, env: Env)
    ensures Grows(s, ScanUsers(s, users, env), Ids(users), env)
    decreases |users|
  {
    if users == [] {
      assert s.rows[..|s.rows|] == s.rows;
    } else {
      var init := users[..|users| - 1];
      var last := users[|users| - 1];
      var mid := ScanUsers(s, init, env);
      ScanUsersGrows(s, init, env);
      UserScanGrows(mid, last.id, env);
      assert Ids(init) <= Ids(users) by {
        forall x | x in Ids(init) ensures x in Ids(users) {
          var u :| u in init && u.id == x;
          assert u in users;
        }
      }
      assert last in users;
      GrowsWider(s, mid, Ids(init), Ids(users), env);
      GrowsWider(mid, ScanUsers(s, users, env), {last.id}, Ids(users), env);
      GrowsTransitive(s, mid, ScanUsers(s, users, env), Ids(users), env);
    }
  }

  /** Fresh rows stamped now have keys of their own: no two added rows share a
      key, and none shares the key of a notification from the last 24 hours. */
  lemma FreshKeys(base: seq<Notification>, rows: seq<Notification>, now: int)
    requires Extends(base, rows) && Fresh(base, rows, now)
    requires forall i :: |base| <= i < |rows| ==> rows[i].createdAt == now
    ensures forall i, j :: |base| <= i < j < |rows| ==> KeyOf(rows[i]) != KeyOf(rows[j])
    ensures forall i, j :: 0 <= i < |base| <= j < |rows| && base[i].createdAt >= now - DayMs ==>
              KeyOf(base[i]) != KeyOf(rows[j])
  {
    forall i, j | 0 <= i < j < |rows| && rows[i].createdAt >= now - DayMs && |base| <= j
      ensures KeyOf(rows[i]) != KeyOf(rows[j])
    {
      if KeyOf(rows[i]) == KeyOf(rows[j]) {
        assert rows[..j][i] == rows[i];
        FilterContains(rows[..j], SameKeySince(KeyOf(rows[j]), now - DayMs), rows[i]);
        assert false;
      }
    }
    forall i, j | 0 <= i < |base| <= j < |rows| && base[i].createdAt >= now - DayMs
      ensures KeyOf(base[i]) != KeyOf(rows[j])
    {
      assert rows[i] == base[i];
    }
  }

  // ---------------------------------------------------------------- one insert per key

  /** No two notifications share a key. */
  predicate KeysDistinct(ns: seq<Notification>)
  {
    forall i, j :: 0 <= i < j < |ns| ==> KeyOf(ns[i]) != KeyOf(ns[j])
  }

  /** No two rows added after `base` share a key. */
  predicate AddedDistinct(base: seq<Notification>, rows: seq<Notification>)
  {
    forall i, j :: |base| <= i < j < |rows| ==> KeyOf(rows[i]) != KeyOf(rows[j])
  }

  function KeySet(ns: seq<Notification>): set<Key>
  {
    set n | n in ns :: KeyOf(n)
  }

  predicate UserIdsDistinct(users: seq<Profile>)
  {
    forall i, j :: 0 <= i < j < |users| ==> users[i].id != users[j].id
  }

  /** The ids of the contracts and of the opportunities are each unique, as
      primary keys are. */
  predicate RowIdsDistinct(env: Env)
  {
    && (forall i, j :: 0 <= i < j < |env.contracts| ==> env.contracts[i].id != env.contracts[j].id)
    && (forall i, j :: 0 <= i < j < |env.sales| ==> env.sales[i].id != env.sales[j].id)
  }

  /** Two stretches of added rows with no key in common make one. */
  lemma AddedDistinctJoin(a: seq<Notification>, b: seq<Notification>, c: seq<Notification>)
    requires Extends(a, b) && Extends(b, c) && AddedDistinct(a, b) && AddedDistinct(b, c)
    requires forall i, j :: |a| <= i < |b| <= j < |c| ==> KeyOf(b[i]) != KeyOf(c[j])
    ensures Extends(a, c) && AddedDistinct(a, c)
  {
    assert c[..|a|] == c[..|b|][..|a|];
    forall i, j | |a| <= i < j < |c| ensures KeyOf(c[i]) != KeyOf(c[j]) {
      if i < |b| {
        assert c[i] == b[i];
        if j < |b| {
          assert c[j] == b[j];
        }
      }
    }
  }

  /** Going through reminders with distinct keys adds rows with distinct keys,
      each the key of one of the reminders, whatever the duplicate checks and
      inserts answer. */
  lemma {:induction false} RemindAllDistinct(s: Scan, ns: seq<Notification>, env: Env)
    requires KeysDistinct(ns)
    ensures var t := RemindAll(s, ns, env);
            && Extends(s.rows, t.rows) && AddedDistinct(s.rows, t.rows)
            && forall i :: |s.rows| <= i < |t.rows| ==> KeyOf(t.rows[i]) in KeySet(ns)
    decreases |ns|
  {
    if ns == [] {
      assert s.rows[..|s.rows|] == s.rows;
    } else {
      var init := ns[..|ns| - 1];
      var last := ns[|ns| - 1];
      forall i, j | 0 <= i < j < |init| ensures KeyOf(init[i]) != KeyOf(init[j]) {
        assert init[i] == ns[i] && init[j] == ns[j];
      }
      var mid := RemindAll(s, init, env);
      RemindAllDistinct(s, init, env);
      forall n | n in init ensures KeyOf(n) != KeyOf(last) && n in ns {
        var j :| 0 <= j < |init| && init[j] == n;
        assert ns[j] == n;
      }
      var t := RemindAll(s, ns, env);
      assert t == Remind(mid, last, env);
      if t.rows == mid.rows {
        assert t.rows[..|mid.rows|] == mid.rows;
      } else {
        assert t.rows == mid.rows + [last];
        assert t.rows[..|mid.rows|] == mid.rows;
      }
      forall i, j | |s.rows| <= i < |mid.rows| <= j < |t.rows| ensures KeyOf(mid.rows[i]) != KeyOf(t.rows[j]) {
        assert t.rows[j] == last;
        var n :| n in init && KeyOf(n) == KeyOf(mid.rows[i]);
      }
      AddedDistinctJoin(s.rows, mid.rows, t.rows);
      forall i | |s.rows| <= i < |t.rows| ensures KeyOf(t.rows[i]) in KeySet(ns) {
        if i < |mid.rows| {
          assert t.rows[i] == mid.rows[i];
          var n :| n in init && KeyOf(n) == KeyOf(mid.rows[i]);
        } else {
          assert t.rows[i] == last;
        }
      }
    }
  }

  /** A user's contract reminders have distinct keys, and so do the sales
      reminders; the two never share a key, their related tables differing. */
  lemma ReminderKeys(userId: string, env: Env)
    requires RowIdsDistinct(env)
    ensures KeysDistinct(ContractReminders(userId, env)) && KeysDistinct(SalesReminders(userId, env))
    ensures forall k :: k in KeySet(ContractReminders(userId, env)) ==> k.1 == "service_contract"
    ensures forall k :: k in KeySet(SalesReminders(userId, env)) ==> k.1 == "sales_funnel"
  {
    FilterDistinctBy(env.contracts, DueContract(env.now), (c: ContractDue) => c.id);
    FilterDistinctBy(env.sales, DueSale(env.now), (s: SalesDue) => s.id);
    var cr := ContractReminders(userId, env);
    var sr := SalesReminders(userId, env);
    forall n | n in cr ensures n.relatedType == "service_contract" {
      var i :| 0 <= i < |cr| && cr[i] == n;
    }
    forall n | n in sr ensures n.relatedType == "sales_funnel" {
      var i :| 0 <= i < |sr| && sr[i] == n;
    }
  }

  /** One user's pass adds rows with distinct keys. */
  lemma UserScanDistinct(s: Scan, userId: string, env: Env)
    requires RowIdsDistinct(env)
    ensures Extends(s.rows, UserScan(s, userId, env).rows) && AddedDistinct(s.rows, UserScan(s, userId, env).rows)
  {
    if userId in env.contractsFail {
      assert s.rows[..|s.rows|] == s.rows;
    } else {
      var cr := ContractReminders(userId, env);
      var sr := SalesReminders(userId, env);
      ReminderKeys(userId, env);
      var s1 := RemindAll(s, cr, env);
      RemindAllDistinct(s, cr, env);
      if userId !in env.salesFail {
        var t := RemindAll(s1, sr, env);
        RemindAllDistinct(s1, sr, env);
        forall i, j | |s.rows| <= i < |s1.rows| <= j < |t.rows| ensures KeyOf(s1.rows[i]) != KeyOf(t.rows[j]) {
          assert KeyOf(s1.rows[i]).1 == "service_contract";
          assert KeyOf(t.rows[j]).1 == "sales_funnel";
        }
        AddedDistinctJoin(s.rows, s1.rows, t.rows);
      }
    }
  }

  /** With distinct user ids, contract ids and opportunity ids, a scan files at
      most one reminder per (user, related table, related row), whatever the
      duplicate checks answer: each record is visited once per user. */
  lemma {:induction false} ScanUsersDistinct(s: Scan, users: seq<Profile>, env: Env)
    requires UserIdsDistinct(users) && RowIdsDistinct(env)
    ensures Extends(s.rows, ScanUsers(s, users, env).rows) && AddedDistinct(s.rows, ScanUsers(s, users, env).rows)
    decreases |users|
  {
    if users == [] {
      assert s.rows[..|s.rows|] == s.rows;
    } else {
      var init := users[..|users| - 1];
      var last := users[|users| - 1];
      forall i, j | 0 <= i < j < |init| ensures init[i].id != init[j].id {
        assert init[i] == users[i] && init[j] == users[j];
      }
      var mid := ScanUsers(s, init, env);
      var t := ScanUsers(s, users, env);
      ScanUsersDistinct(s, init, env);
      UserScanDistinct(mid, last.id, env);
      ScanUsersGrows(s, init, env);
      UserScanGrows(mid, last.id, env);
      assert last.id !in Ids(init) by {
        forall u | u in init ensures u.id != last.id {
          var k :| 0 <= k < |init| && init[k] == u;
          assert users[k] == u;
        }
      }
      forall i, j | |s.rows| <= i < |mid.rows| <= j < |t.rows| ensures KeyOf(mid.rows[i]) != KeyOf(t.rows[j]) {
        assert MadeFor(mid.rows[i], Ids(init), env);
        assert MadeFor(t.rows[j], {last.id}, env);
      }
      AddedDistinctJoin(s.rows, mid.rows, t.rows);
    }
  }

  /** A scan keeps every notification there was and only adds reminders for the
      users, stamped now, about contracts due in the window and hot or warm
      opportunities due in it. The counter counts every insert issued (exactly
      the rows added when no insert is rejected). With distinct user, contract
      and opportunity ids no two reminders share a (user, related table,
      related row) key, whatever the duplicate checks answer; when no duplicate
      check fails, no reminder repeats the key of a notification from the last
      24 hours either. */
  lemma ScanMeaning(rows: seq<Notification>, users: seq<Profile>, env: Env)
    ensures var t := ScanUsers(Scan(rows, 0), users, env);
            && Extends(rows, t.rows)
            && (forall i :: |rows| <= i < |t.rows| ==> MadeFor(t.rows[i], Ids(users), env))
            && t.created >= |t.rows| - |rows|
            && (env.rejected == {} ==> t.created == |t.rows| - |rows|)
            && (env.lookupFail == {} ==>
                  (forall i, j :: |rows| <= i < j < |t.rows| ==> KeyOf(t.rows[i]) != KeyOf(t.rows[j]))
                  && (forall i, j :: 0 <= i < |rows| <= j < |t.rows| && rows[i].createdAt >= env.now - DayMs ==>
                        KeyOf(rows[i]) != KeyOf(t.rows[j])))
            && (UserIdsDistinct(users) && RowIdsDistinct(env) ==>
                  forall i, j :: |rows| <= i < j < |t.rows| ==> KeyOf(t.rows[i]) != KeyOf(t.rows[j]))
  {
    var t := ScanUsers(Scan(rows, 0), users, env);
    ScanUsersGrows(Scan(rows, 0), users, env);
    if UserIdsDistinct(users) && RowIdsDistinct(env) {
      ScanUsersDistinct(Scan(rows, 0), users, env);
    }
    if env.lookupFail == {} {
      FreshKeys(rows, t.rows, env.now);
    }
  }

  /** When every user's contracts query fails, the scan files nothing. */
  lemma {:induction false} AllContractQueriesFail(s: Scan, users: seq<Profile>, env: Env)
    requires forall i :: 0 <= i < |users| ==> users[i].id in env.contractsFail
    ensures ScanUsers(s, users, env) == s
    decreases |users|
  {
    if users != [] {
      AllContractQueriesFail(s, users[..|users| - 1], env);
    }
  }
}
