/** The bot's two tables, `users` and `payments`, held in memory: a map from
    user id to row and a sequence of payment rows in insertion order.  Each
    SQL statement becomes an update of that state or a pure query over it. */
module Database {
  import opened Basics

  // ---------------------------------------------------------------------
  // Settings values

  /** A settings value as the bot stores it in JSON. */
  datatype Value = Null | Int(i: int) | Real(r: real) | Str(s: string) | StrList(items: seq<string>)

  type Settings = map<string, Value>

  const USERNAME: string := "username"
  const SUBSCRIPTION_DAYS: string := "subscription_days"
  const TOTAL_SCANS: string := "total_scans"

  /** The settings kept in their own columns rather than in the JSON text. */
  const COLUMN_FIELDS: set<string> := {USERNAME, SUBSCRIPTION_DAYS, TOTAL_SCANS}

  const DEFAULT_SETTINGS: Settings := map[
    "min_volume" := Int(100),
    "min_profit" := Int(5),
    "min_profit_pct" := Real(3.0),
    "networks" := StrList(["BEP20", "TRC20"]),
    "brokers" := StrList(["KuCoin", "Bybit"]),
    SUBSCRIPTION_DAYS := Int(0),
    TOTAL_SCANS := Int(0),
    USERNAME := Str("User")
  ]

  // ---------------------------------------------------------------------
  // Decimal rendering of a user id (`f'User{user_id}'`)

  function DigitChar(d: nat): char
    requires d < 10
  {
    ('0' as int + d) as char
  }

  predicate IsDigits(s: string) {
    forall i :: 0 <= i < |s| ==> '0' <= s[i] <= '9'
  }

  function NatToString(n: nat): (s: string)
    ensures |s| >= 1 && IsDigits(s)
    decreases n
  {
    if n < 10 then [DigitChar(n)] else NatToString(n / 10) + [DigitChar(n % 10)]
  }

  /** Reads back a string of decimal digits. */
  function ParseNat(s: string): nat
    requires IsDigits(s)
    decreases |s|
  {
    if s == [] then 0
    else ParseNat(s[..|s| - 1]) * 10 + (s[|s| - 1] as int - '0' as int)
  }

  lemma {:induction false} NatToStringRoundTrip(n: nat)
    ensures ParseNat(NatToString(n)) == n
    decreases n
  {
    if n >= 10 {
      NatToStringRoundTrip(n / 10);
      var s := NatToString(n);
      assert s[..|s| - 1] == NatToString(n / 10);
    }
  }

  function IntToString(i: int): (s: string)
    ensures |s| >= 1
  {
    if i < 0 then "-" + NatToString(-i) else NatToString(i)
  }

  /** Reads back the rendering of an integer. */
  function ParseInt(s: string): int
  {
    if s != [] && s[0] == '-' && IsDigits(s[1..]) then -(ParseNat(s[1..]) as int)
    else if IsDigits(s) then ParseNat(s)
    else 0
  }

  lemma IntToStringRoundTrip(i: int)
    ensures ParseInt(IntToString(i)) == i
  {
    if i < 0 {
      NatToStringRoundTrip(-i);
      assert IntToString(i)[1..] == NatToString(-i);
    } else {
      NatToStringRoundTrip(i);
    }
  }

  /** The name a user gets when none is stored. */
  function DefaultUsername(userId: int): (name: string)
    ensures |name| > |"User"| && name[..4] == "User"
  {
    "User" + IntToString(userId)
  }

  /** Different users get different default names. */
  lemma DefaultUsernameInjective(a: int, b: int)
    requires DefaultUsername(a) == DefaultUsername(b)
    ensures a == b
  {
    assert DefaultUsername(a)[4..] == IntToString(a);
    assert DefaultUsername(b)[4..] == IntToString(b);
    IntToStringRoundTrip(a);
    IntToStringRoundTrip(b);
  }

  // ---------------------------------------------------------------------
  // Rows

  /** A row of `users`; `None` is SQL NULL.  `lastScan` is an abstract
      timestamp. */
  datatype UserRow = UserRow(
    username: Option<string>,
    settings: Option<Settings>,
    subscriptionDays: Option<int>,
    totalScans: Option<int>,
    lastScan: Option<int>)

  /** A row of `payments`; `id` is the autoincrement key. */
  datatype Payment = Payment(id: int, userId: int, paymentId: string, amount: real, status: string)

  /** The settings a caller may save: the three column fields have the
      column's type, or are null. */
  predicate ColumnTyped(s: Settings) {
    && (USERNAME in s ==> s[USERNAME].Str? || s[USERNAME].Null?)
    && (SUBSCRIPTION_DAYS in s ==> s[SUBSCRIPTION_DAYS].Int? || s[SUBSCRIPTION_DAYS].Null?)
    && (TOTAL_SCANS in s ==> s[TOTAL_SCANS].Int? || s[TOTAL_SCANS].Null?)
  }

  /** `settings.get(key, default)` for an integer column. */
  function IntColumn(s: Settings, key: string): Option<int>
    requires key in s ==> s[key].Int? || s[key].Null?
  {
    if key !in s then Some(0)
    else if s[key].Null? then None
    else Some(s[key].i)
  }

  /** The row `save_user_settings` writes: the three column fields taken
      out of the JSON map and stored as columns, `last_scan` reset. */
  function RowFor(userId: int, s: Settings): (row: UserRow)
    requires ColumnTyped(s)
    ensures row.settings.Some? && forall k :: k in row.settings.value <==> k in s && k !in COLUMN_FIELDS
    ensures row.lastScan == None
  {
    var name :=
      if USERNAME !in s then Some(DefaultUsername(userId))
      else if s[USERNAME].Null? then None
      else Some(s[USERNAME].s);
    UserRow(name, Some(s - COLUMN_FIELDS), IntColumn(s, SUBSCRIPTION_DAYS), IntColumn(s, TOTAL_SCANS), None)
  }

  /** The dictionary `get_user_settings` returns for an existing row: the
      defaults, overridden by the stored map, overridden by the columns. */
  function View(userId: int, row: UserRow): (s: Settings)
    ensures s.Keys == DEFAULT_SETTINGS.Keys + (if row.settings.Some? then row.settings.value.Keys else {})
    ensures s[USERNAME].Str? && s[USERNAME].s != []
    ensures s[SUBSCRIPTION_DAYS].Int? && s[TOTAL_SCANS].Int?
  {
    var stored := if row.settings.Some? then row.settings.value else map[];
    var name := if row.username.Some? && row.username.value != [] then row.username.value else DefaultUsername(userId);
    (DEFAULT_SETTINGS + stored)[
      USERNAME := Str(name)][
      TOTAL_SCANS := Int(row.totalScans.GetOr(0))][
      SUBSCRIPTION_DAYS := Int(row.subscriptionDays.GetOr(0))]
  }

  /** What a first read hands back to a new user. */
  function NewUserSettings(userId: int): (s: Settings)
    ensures s.Keys == DEFAULT_SETTINGS.Keys
    ensures forall k :: k in s && k != USERNAME ==> s[k] == DEFAULT_SETTINGS[k]
    ensures s[USERNAME] == Str(DefaultUsername(userId))
  {
    DEFAULT_SETTINGS[USERNAME := Str(DefaultUsername(userId))]
  }

  /** Saving `s` and reading it back gives the defaults overridden by `s`,
      with a missing, null or empty username replaced by the default name
      and a missing or null counter read as 0. */
  lemma SaveLoadRoundTrip(userId: int, s: Settings)
    requires ColumnTyped(s)
    ensures var r := View(userId, RowFor(userId, s));
      && r.Keys == DEFAULT_SETTINGS.Keys + s.Keys
      && (forall k :: k in r && k !in COLUMN_FIELDS ==> r[k] == if k in s then s[k] else DEFAULT_SETTINGS[k])
      && r[USERNAME] == Str(if USERNAME in s && s[USERNAME].Str? && s[USERNAME].s != [] then s[USERNAME].s else DefaultUsername(userId))
      && r[SUBSCRIPTION_DAYS] == Int(if SUBSCRIPTION_DAYS in s && s[SUBSCRIPTION_DAYS].Int? then s[SUBSCRIPTION_DAYS].i else 0)
      && r[TOTAL_SCANS] == Int(if TOTAL_SCANS in s && s[TOTAL_SCANS].Int? then s[TOTAL_SCANS].i else 0)
  {
    var r := View(userId, RowFor(userId, s));
    assert COLUMN_FIELDS <= DEFAULT_SETTINGS.Keys;
    assert r.Keys == DEFAULT_SETTINGS.Keys + s.Keys by {
      assert (s - COLUMN_FIELDS).Keys == s.Keys - COLUMN_FIELDS;
    }
  }

  /** The row a first read inserts reads back as what that first read
      returned: the second read agrees with the first. */
  lemma FirstReadStable(userId: int)
    ensures ColumnTyped(NewUserSettings(userId))
    ensures View(userId, RowFor(userId, NewUserSettings(userId))) == NewUserSettings(userId)
  {
    var s := NewUserSettings(userId);
    SaveLoadRoundTrip(userId, s);
    var r := View(userId, RowFor(userId, s));
    assert r.Keys == s.Keys;
    forall k | k in r ensures r[k] == s[k] {
      if k !in COLUMN_FIELDS {
      } else if k == USERNAME {
      } else {
        assert k == SUBSCRIPTION_DAYS || k == TOTAL_SCANS;
      }
    }
  }

  // ---------------------------------------------------------------------
  // Row updates

  /** SQL `column + d`: NULL stays NULL. */
  function AddOrNull(c: Option<int>, d: int): (r: Option<int>)
    ensures r.Some? <==> c.Some?
    ensures r.Some? ==> r.value - c.value == d
  {
    if c.Some? then Some(c.value + d) else None
  }

  /** `UPDATE users SET subscription_days = subscription_days + d WHERE user_id = u`. */
  function WithDaysAdded(users: map<int, UserRow>, userId: int, days: int): (r: map<int, UserRow>)
    ensures r.Keys == users.Keys
    ensures forall u :: u in users && u != userId ==> r[u] == users[u]
    ensures userId in users ==>
      r[userId] == users[userId].(subscriptionDays := AddOrNull(users[userId].subscriptionDays, days))
  {
    if userId in users then
      users[userId := users[userId].(subscriptionDays := AddOrNull(users[userId].subscriptionDays, days))]
    else users
  }

  /** `UPDATE users SET total_scans = total_scans + 1, last_scan = now WHERE user_id = u`. */
  function WithScanCounted(users: map<int, UserRow>, userId: int, now: int): (r: map<int, UserRow>)
    ensures r.Keys == users.Keys
    ensures forall u :: u in users && u != userId ==> r[u] == users[u]
    ensures userId in users ==>
      r[userId] == users[userId].(totalScans := AddOrNull(users[userId].totalScans, 1), lastScan := Some(now))
  {
    if userId in users then
      users[userId := users[userId].(totalScans := AddOrNull(users[userId].totalScans, 1), lastScan := Some(now))]
    else users
  }

  /** `UPDATE payments SET status = s WHERE payment_id = p`. */
  function WithStatus(payments: seq<Payment>, paymentId: string, status: string): (r: seq<Payment>)
    ensures |r| == |payments|
    ensures forall i :: 0 <= i < |r| ==>
      r[i] == if payments[i].paymentId == paymentId then payments[i].(status := status) else payments[i]
    decreases |payments|
  {
    if payments == [] then []
    else
      var n := |payments| - 1;
      var p := payments[n];
      WithStatus(payments[..n], paymentId, status) + [if p.paymentId == paymentId then p.(status := status) else p]
  }

  // ---------------------------------------------------------------------
  // Queries

  /** The index of the first payment row with the given `payment_id`. */
  function FirstMatch(payments: seq<Payment>, paymentId: string): (i: nat)
    ensures i <= |payments|
    ensures i < |payments| ==> payments[i].paymentId == paymentId
    ensures forall j :: 0 <= j < i ==> payments[j].paymentId != paymentId
    decreases |payments|
  {
    if payments == [] || payments[0].paymentId == paymentId then 0
    else 1 + FirstMatch(payments[1..], paymentId)
  }

  /** `get_payment_status`: the first row with that `payment_id`, or nothing
      (the empty dictionary). */
  function PaymentStatus(payments: seq<Payment>, paymentId: string): (r: Option<Payment>)
    ensures r.None? <==> forall j :: 0 <= j < |payments| ==> payments[j].paymentId != paymentId
    ensures r.Some? ==> r.value in payments && r.value.paymentId == paymentId
    ensures r.Some? ==>
      exists i :: 0 <= i < |payments| && r.value == payments[i] && forall j :: 0 <= j < i ==> payments[j].paymentId != paymentId
  {
    var i := FirstMatch(payments, paymentId);
    if i < |payments| then Some(payments[i]) else None
  }

  /** The users `WHERE subscription_days > 0` selects; NULL never qualifies. */
  function ActiveIds(users: map<int, UserRow>): (ids: set<int>)
    ensures forall u :: u in ids <==> u in users && users[u].subscriptionDays.Some? && users[u].subscriptionDays.value > 0
  {
    set u | u in users && users[u].subscriptionDays.Some? && users[u].subscriptionDays.value > 0
  }

  /** `get_active_users_count`. */
  function ActiveUsersCount(users: map<int, UserRow>): (n: nat)
    ensures n <= |users|
  {
    ActiveSubset(users);
    |ActiveIds(users)|
  }

  lemma ActiveSubset(users: map<int, UserRow>)
    ensures ActiveIds(users) <= users.Keys
    ensures |ActiveIds(users)| <= |users|
  {
    assert |users| == |users.Keys|;
    SubsetCard(ActiveIds(users), users.Keys);
  }

  lemma {:induction false} SubsetCard(a: set<int>, b: set<int>)
    requires a <= b
    ensures |a| <= |b|
    decreases b
  {
    if forall x :: x !in a {
      assert a == {};
    } else {
      var x :| x in a;
      SubsetCard(a - {x}, b - {x});
    }
  }

  /** What a row adds to `SUM(total_scans)`: NULL adds nothing. */
  function Scans(row: UserRow): int {
    row.totalScans.GetOr(0)
  }

  /** The sum of `Scans` over the rows of `keys`, in any order. */
  ghost function ScanSum(users: map<int, UserRow>, keys: set<int>): int
    requires keys <= users.Keys
    decreases keys
  {
    if forall u :: u !in keys then 0
    else
      var u :| u in keys;
      Scans(users[u]) + ScanSum(users, keys - {u})
  }

  /** `get_total_scans`: the sum over all rows, 0 when there is none. */
  ghost function TotalScans(users: map<int, UserRow>): (t: int)
    ensures users == map[] ==> t == 0
    ensures (forall u :: u in users ==> Scans(users[u]) >= 0) ==> t >= 0
  {
    ScanSumBounds(users, users.Keys);
    ScanSum(users, users.Keys)
  }

  lemma {:induction false} ScanSumBounds(users: map<int, UserRow>, keys: set<int>)
    requires keys <= users.Keys
    ensures keys == {} ==> ScanSum(users, keys) == 0
    ensures (forall u :: u in keys ==> Scans(users[u]) >= 0) ==> ScanSum(users, keys) >= 0
    decreases keys
  {
    if exists u :: u in keys {
      var u :| u in keys && ScanSum(users, keys) == Scans(users[u]) + ScanSum(users, keys - {u});
      ScanSumBounds(users, keys - {u});
    }
  }

  /** The sum does not depend on which row is taken first. */
  lemma {:induction false} ScanSumRemove(users: map<int, UserRow>, keys: set<int>, x: int)
    requires keys <= users.Keys && x in keys
    ensures ScanSum(users, keys) == Scans(users[x]) + ScanSum(users, keys - {x})
    decreases keys
  {
    var u :| u in keys && ScanSum(users, keys) == Scans(users[u]) + ScanSum(users, keys - {u});
    if u != x {
      ScanSumRemove(users, keys - {u}, x);
      ScanSumRemove(users, keys - {x}, u);
      assert keys - {u} - {x} == keys - {x} - {u};
    }
  }

  /** Rows that add the same amount give the same sum. */
  lemma {:induction false} ScanSumAgree(a: map<int, UserRow>, b: map<int, UserRow>, keys: set<int>)
    requires keys <= a.Keys && keys <= b.Keys
    requires forall u :: u in keys ==> Scans(a[u]) == Scans(b[u])
    ensures ScanSum(a, keys) == ScanSum(b, keys)
    decreases keys
  {
    if exists u :: u in keys {
      var u :| u in keys && ScanSum(a, keys) == Scans(a[u]) + ScanSum(a, keys - {u});
      ScanSumRemove(b, keys, u);
      ScanSumAgree(a, b, keys - {u});
    }
  }

  /** A user's summary line in `get_all_users`: the raw column values. */
  datatype UserSummary = UserSummary(
    userId: int,
    username: Option<string>,
    subscriptionDays: Option<int>,
    totalScans: Option<int>,
    lastScan: Option<int>)

  function Summary(userId: int, row: UserRow): UserSummary {
    UserSummary(userId, row.username, row.subscriptionDays, row.totalScans, row.lastScan)
  }

  /** SQL `ORDER BY last_scan DESC`: NULLs, the smallest values, come last. */
  predicate ScanLater(a: Option<int>, b: Option<int>) {
    b.None? || (a.Some? && a.value >= b.value)
  }

  /** `order` is a row order `ORDER BY last_scan DESC` may produce: every
      user exactly once, most recent scan first. */
  ghost predicate ByLastScan(users: map<int, UserRow>, order: seq<int>) {
    && |order| == |users|
    && (forall i :: 0 <= i < |order| ==> order[i] in users)
    && (forall u :: u in users ==> u in order)
    && (forall i, j :: 0 <= i < j < |order| ==> order[i] != order[j])
    && (forall i, j :: 0 <= i < j < |order| ==> ScanLater(users[order[i]].lastScan, users[order[j]].lastScan))
  }

  /** The number of rows `LIMIT limit` lets through; a negative limit
      means no limit. */
  function Limited(limit: int, available: nat): (n: nat)
    ensures n <= available
    ensures limit >= 0 ==> n <= limit
    ensures n == available || n == limit
  {
    if limit < 0 then available else Min(limit, available)
  }

  // ---------------------------------------------------------------------
  // The database

  class Store {
    var users: map<int, UserRow>
    var payments: seq<Payment>
    /** The autoincrement counter of `payments.id`. */
    var lastPaymentId: int

    ghost predicate Valid()
      reads this
    {
      && lastPaymentId >= 0
      && (forall i, j :: 0 <= i < j < |payments| ==> payments[i].id < payments[j].id)
      && (forall i :: 0 <= i < |payments| ==> 0 < payments[i].id <= lastPaymentId)
    }

    /** `init_db` on a fresh file: both tables empty. */
    constructor ()
      ensures Valid()
      ensures users == map[] && payments == [] && lastPaymentId == 0
    {
      users := map[];
      payments := [];
      lastPaymentId := 0;
    }

    /** `save_user_settings`: replaces the user's row (INSERT OR REPLACE). */
    method SaveUserSettings(userId: int, s: Settings)
      requires Valid() && ColumnTyped(s)
      modifies this
      ensures Valid()
      ensures users == old(users)[userId := RowFor(userId, s)]
      ensures payments == old(payments) && lastPaymentId == old(lastPaymentId)
    {
      users := users[userId := RowFor(userId, s)];
    }

    /** `get_user_settings`: reads an existing row, or inserts the defaults
        for a new user and returns them. */
    method GetUserSettings(userId: int) returns (s: Settings)
      requires Valid()
      modifies this
      ensures Valid()
      ensures old(userId in users) ==> s == View(userId, old(users)[userId]) && users == old(users)
      ensures old(userId !in users) ==>
        && s == NewUserSettings(userId)
        && users == old(users)[userId := RowFor(userId, s)]
      ensures userId in users && View(userId, users[userId]) == s
      ensures payments == old(payments) && lastPaymentId == old(lastPaymentId)
    {
      if userId in users {
        s := View(userId, users[userId]);
      } else {
        s := DEFAULT_SETTINGS;
        s := s[USERNAME := Str(DefaultUsername(userId))];
        FirstReadStable(userId);
        SaveUserSettings(userId, s);
      }
    }

    /** `add_subscription_days`. */
    method AddSubscriptionDays(userId: int, days: int)
      requires Valid()
      modifies this
      ensures Valid()
      ensures users == WithDaysAdded(old(users), userId, days)
      ensures payments == old(payments) && lastPaymentId == old(lastPaymentId)
    {
      users := WithDaysAdded(users, userId, days);
    }

    /** `increment_scan_count`; `now` is the statement's CURRENT_TIMESTAMP. */
    method IncrementScanCount(userId: int, now: int)
      requires Valid()
      modifies this
      ensures Valid()
      ensures users == WithScanCounted(old(users), userId, now)
      ensures payments == old(payments) && lastPaymentId == old(lastPaymentId)
    {
      users := WithScanCounted(users, userId, now);
    }

    /** `save_payment`: appends one row with a fresh id. */
    method SavePayment(userId: int, paymentId: string, amount: real, status: string := "pending")
      requires Valid()
      modifies this
      ensures Valid()
      ensures lastPaymentId == old(lastPaymentId) + 1
      ensures payments == old(payments) + [Payment(lastPaymentId, userId, paymentId, amount, status)]
      ensures users == old(users)
    {
      lastPaymentId := lastPaymentId + 1;
      payments := payments + [Payment(lastPaymentId, userId, paymentId, amount, status)];
    }

    /** `update_payment_status`. */
    method UpdatePaymentStatus(paymentId: string, status: string)
      requires Valid()
      modifies this
      ensures Valid()
      ensures payments == WithStatus(old(payments), paymentId, status)
      ensures users == old(users) && lastPaymentId == old(lastPaymentId)
    {
      payments := WithStatus(payments, paymentId, status);
    }

    /** `get_all_users`: the first `limit` rows of `order`, which is the row
        order the query's `ORDER BY last_scan DESC` produced. */
    method GetAllUsers(order: seq<int>, limit: int := 100) returns (r: seq<UserSummary>)
      requires ByLastScan(users, order)
      ensures |r| == Limited(limit, |users|)
      ensures forall i :: 0 <= i < |r| ==> order[i] in users && r[i] == Summary(order[i], users[order[i]])
      ensures forall i, j :: 0 <= i < j < |r| ==> r[i].userId != r[j].userId && ScanLater(r[i].lastScan, r[j].lastScan)
    {
      var n := Limited(limit, |order|);
      r := [];
      var i := 0;
      while i < n
        invariant 0 <= i <= n
        invariant |r| == i
        invariant forall k :: 0 <= k < i ==> r[k] == Summary(order[k], users[order[k]])
      {
        r := r + [Summary(order[i], users[order[i]])];
        i := i + 1;
      }
    }
  }

  // ---------------------------------------------------------------------
  // What the updates do to the queries

  /** Adding days to one user changes only that user's membership of the
      active set, and leaves the scan total alone. */
  lemma AddDaysEffect(users: map<int, UserRow>, userId: int, days: int)
    ensures ActiveIds(WithDaysAdded(users, userId, days)) - {userId} == ActiveIds(users) - {userId}
    ensures userId in users && users[userId].subscriptionDays.Some? ==>
      (userId in ActiveIds(WithDaysAdded(users, userId, days)) <==> users[userId].subscriptionDays.value + days > 0)
    ensures TotalScans(WithDaysAdded(users, userId, days)) == TotalScans(users)
  {
    var r := WithDaysAdded(users, userId, days);
    ScanSumAgree(r, users, users.Keys);
  }

  /** Counting a scan adds exactly one to the total, unless the user is
      missing or their counter is NULL (NULL + 1 stays NULL). */
  lemma ScanCountedTotal(users: map<int, UserRow>, userId: int, now: int)
    ensures TotalScans(WithScanCounted(users, userId, now)) ==
      TotalScans(users) + if userId in users && users[userId].totalScans.Some? then 1 else 0
    ensures ActiveIds(WithScanCounted(users, userId, now)) == ActiveIds(users)
  {
    var r := WithScanCounted(users, userId, now);
    if userId in users {
      ScanSumRemove(r, r.Keys, userId);
      ScanSumRemove(users, users.Keys, userId);
      ScanSumAgree(r, users, users.Keys - {userId});
    } else {
      assert r == users;
    }
  }

  /** A saved payment is found by its id unless an earlier row has the same
      `payment_id`; nothing else is found differently. */
  lemma SavedPaymentFound(payments: seq<Payment>, p: Payment)
    ensures PaymentStatus(payments + [p], p.paymentId) ==
      if PaymentStatus(payments, p.paymentId).Some? then PaymentStatus(payments, p.paymentId) else Some(p)
    ensures forall q :: q != p.paymentId ==> PaymentStatus(payments + [p], q) == PaymentStatus(payments, q)
  {
    forall q ensures FirstMatch(payments + [p], q) == FirstMatch(payments, q) || FirstMatch(payments, q) == |payments| {
      FirstMatchAppend(payments, p, q);
    }
    FirstMatchAppend(payments, p, p.paymentId);
    forall q | q != p.paymentId ensures PaymentStatus(payments + [p], q) == PaymentStatus(payments, q) {
      FirstMatchAppend(payments, p, q);
    }
  }

  lemma {:induction false} FirstMatchAppend(payments: seq<Payment>, p: Payment, q: string)
    ensures FirstMatch(payments, q) < |payments| ==> FirstMatch(payments + [p], q) == FirstMatch(payments, q)
    ensures FirstMatch(payments, q) == |payments| ==>
      FirstMatch(payments + [p], q) == if p.paymentId == q then |payments| else |payments| + 1
    decreases |payments|
  {
    if payments != [] && payments[0].paymentId != q {
      assert (payments + [p])[1..] == payments[1..] + [p];
      FirstMatchAppend(payments[1..], p, q);
    }
  }

  /** After a status update the lookup of that id finds the same row with
      the new status, and lookups of other ids are unchanged. */
  lemma UpdatedStatusFound(payments: seq<Payment>, paymentId: string, status: string)
    ensures PaymentStatus(WithStatus(payments, paymentId, status), paymentId) ==
      if PaymentStatus(payments, paymentId).Some? then Some(PaymentStatus(payments, paymentId).value.(status := status)) else None
    ensures forall q :: q != paymentId ==> PaymentStatus(WithStatus(payments, paymentId, status), q) == PaymentStatus(payments, q)
  {
    var r := WithStatus(payments, paymentId, status);
    forall q ensures FirstMatch(r, q) == FirstMatch(payments, q) {
      FirstMatchSameIds(payments, r, q);
    }
  }

  lemma {:induction false} FirstMatchSameIds(a: seq<Payment>, b: seq<Payment>, q: string)
    requires |a| == |b| && forall i :: 0 <= i < |a| ==> a[i].paymentId == b[i].paymentId
    ensures FirstMatch(a, q) == FirstMatch(b, q)
    decreases |a|
  {
    if a != [] && a[0].paymentId != q {
      FirstMatchSameIds(a[1..], b[1..], q);
    }
  }
}
