/**
 * The user and usage store: a whitelist of users keyed by Telegram id, an
 * append-only log of wallet analyses and an append-only error log, with the
 * windowed usage counts and the daily/monthly limit gate.
 *
 * Time is one integer clock in seconds, passed in by the caller.
 */
module Store {
  import opened Optional
  import opened Text

  const DaySeconds := 86400
  const MonthSeconds := 30 * DaySeconds

  /** Column defaults of the users table. */
  const DefaultDailyLimit := 10
  const DefaultMonthlyLimit := 300

  /** A users row; `rowId` is the AUTOINCREMENT primary key the logs refer to. */
  datatype User = User(
    rowId: nat,
    username: Option<string>,
    isAdmin: bool,
    isActive: bool,
    dailyLimit: int,
    monthlyLimit: int,
    createdAt: int,
    updatedAt: int)

  /** A usage_logs row. A risk score that was not available is None. */
  datatype UsageEntry = UsageEntry(
    userRowId: nat,
    walletAddress: string,
    riskScore: Option<real>,
    decision: Option<string>,
    timestamp: int)

  /** An error_logs row; the user is None when the caller was not given or not known. */
  datatype ErrorEntry = ErrorEntry(
    userRowId: Option<nat>,
    errorType: string,
    message: string,
    walletAddress: Option<string>,
    timestamp: int)

  /** The row an error entry is attributed to: only a non-empty id the store knows. */
  function Attribution(users: map<string, User>, telegramId: string): (r: Option<nat>)
    ensures r.Some? <==> telegramId != "" && telegramId in users
    ensures r.Some? ==> r.value == users[telegramId].rowId
  {
    if telegramId != "" && telegramId in users then Some(users[telegramId].rowId) else None
  }

  // ---------------------------------------------------------------------
  // Windowed counting
  // ---------------------------------------------------------------------

  /** How many entries of the user with row id `rowId` are stamped at or after `since`. */
  function CountSince(log: seq<UsageEntry>, rowId: nat, since: int): nat {
    if log == [] then 0
    else
      var e := log[|log| - 1];
      CountSince(log[..|log| - 1], rowId, since) + (if e.userRowId == rowId && e.timestamp >= since then 1 else 0)
  }

  /** A wider window never counts fewer entries; hence the day count never exceeds the month count. */
  lemma {:induction false} CountSinceMonotone(log: seq<UsageEntry>, rowId: nat, later: int, earlier: int)
    requires earlier <= later
    ensures CountSince(log, rowId, later) <= CountSince(log, rowId, earlier)
  {
    if log != [] {
      CountSinceMonotone(log[..|log| - 1], rowId, later, earlier);
    }
  }

  /** Entries of other users do not count, so a row id above every logged one counts nothing. */
  lemma {:induction false} CountSinceFresh(log: seq<UsageEntry>, rowId: nat, since: int)
    requires forall i :: 0 <= i < |log| ==> log[i].userRowId < rowId
    ensures CountSince(log, rowId, since) == 0
  {
    if log != [] {
      CountSinceFresh(log[..|log| - 1], rowId, since);
    }
  }

  /** Logging one more entry adds one to its own user's counts in every window it falls into, and nothing elsewhere. */
  lemma CountSinceAppend(log: seq<UsageEntry>, e: UsageEntry, rowId: nat, since: int)
    ensures CountSince(log + [e], rowId, since)
         == CountSince(log, rowId, since) + (if e.userRowId == rowId && e.timestamp >= since then 1 else 0)
  {
    assert (log + [e])[..|log|] == log;
  }

  // ---------------------------------------------------------------------
  // The limit gate
  // ---------------------------------------------------------------------

  datatype LimitCheck = LimitCheck(allowed: bool, message: string, remainingDaily: int, remainingMonthly: int)

  const NotAuthorizedMessage := "User not authorized"
  const OkMessage := "OK"

  function DailyLimitMessage(limit: int): string {
    "Daily limit reached (" + IntToString(limit) + " queries/day)"
  }

  function MonthlyLimitMessage(limit: int): string {
    "Monthly limit reached (" + IntToString(limit) + " queries/month)"
  }

  function Max0(x: int): int {
    if x < 0 then 0 else x
  }

  /**
   * The decision of check_usage_limit for a known user, from the counts used
   * in each window and that user's limits.
   */
  function LimitDecision(dailyUsed: int, monthlyUsed: int, dailyLimit: int, monthlyLimit: int): (r: LimitCheck)
    ensures r.remainingDaily >= 0 && r.remainingMonthly >= 0
    ensures dailyUsed <= dailyLimit ==> r.remainingDaily == dailyLimit - dailyUsed
    ensures monthlyUsed <= monthlyLimit ==> r.remainingMonthly == monthlyLimit - monthlyUsed
    ensures dailyUsed >= dailyLimit ==> r.remainingDaily == 0
    ensures monthlyUsed >= monthlyLimit ==> r.remainingMonthly == 0
    ensures r.allowed <==> dailyUsed < dailyLimit && monthlyUsed < monthlyLimit
    ensures r.allowed ==> r.message == OkMessage && r.remainingDaily >= 1 && r.remainingMonthly >= 1
    ensures dailyUsed >= dailyLimit ==> r.message == DailyLimitMessage(dailyLimit)
    ensures dailyUsed < dailyLimit && monthlyUsed >= monthlyLimit ==> r.message == MonthlyLimitMessage(monthlyLimit)
  {
    var remainingDaily := Max0(dailyLimit - dailyUsed);
    var remainingMonthly := Max0(monthlyLimit - monthlyUsed);
    if dailyUsed >= dailyLimit then LimitCheck(false, DailyLimitMessage(dailyLimit), remainingDaily, remainingMonthly)
    else if monthlyUsed >= monthlyLimit then LimitCheck(false, MonthlyLimitMessage(monthlyLimit), remainingDaily, remainingMonthly)
    else LimitCheck(true, OkMessage, remainingDaily, remainingMonthly)
  }

  // ---------------------------------------------------------------------
  // Decisions grouped by value (the GROUP BY decision query)
  // ---------------------------------------------------------------------

  datatype DecisionRow = DecisionRow(decision: Option<string>, count: nat)

  /** The count of the group for `key`, or 0 (a dict lookup with a default). */
  function Lookup(rows: seq<DecisionRow>, key: Option<string>): nat {
    if rows == [] then 0
    else if rows[0].decision == key then rows[0].count
    else Lookup(rows[1..], key)
  }

  /** Add one occurrence of `key`: to its group when there is one, else as a new group at the end. */
  function Insert(rows: seq<DecisionRow>, key: Option<string>): seq<DecisionRow> {
    if rows == [] then [DecisionRow(key, 1)]
    else if rows[0].decision == key then [rows[0].(count := rows[0].count + 1)] + rows[1..]
    else [rows[0]] + Insert(rows[1..], key)
  }

  predicate HasPrefix(key: Option<string>, prefix: string) {
    key.Some? && StartsWith(key.value, prefix)
  }

  /** Sum of the counts of the groups whose (non-null) decision starts with `prefix`. */
  function SumWithPrefix(rows: seq<DecisionRow>, prefix: string): nat {
    if rows == [] then 0
    else (if HasPrefix(rows[0].decision, prefix) then rows[0].count else 0) + SumWithPrefix(rows[1..], prefix)
  }

  lemma {:induction false} InsertLookup(rows: seq<DecisionRow>, key: Option<string>, other: Option<string>)
    ensures Lookup(Insert(rows, key), other) == Lookup(rows, other) + (if key == other then 1 else 0)
  {
    if rows != [] && rows[0].decision != key {
      InsertLookup(rows[1..], key, other);
    }
  }

  lemma {:induction false} InsertSum(rows: seq<DecisionRow>, key: Option<string>, prefix: string)
    ensures SumWithPrefix(Insert(rows, key), prefix) == SumWithPrefix(rows, prefix) + (if HasPrefix(key, prefix) then 1 else 0)
  {
    if rows != [] {
      if rows[0].decision == key {
        assert ([rows[0].(count := rows[0].count + 1)] + rows[1..])[1..] == rows[1..];
      } else {
        InsertSum(rows[1..], key, prefix);
        assert ([rows[0]] + Insert(rows[1..], key))[1..] == Insert(rows[1..], key);
      }
    }
  }

  /** The groups of the user's decisions stamped at or after `since`, in order of first appearance. */
  function GroupDecisions(log: seq<UsageEntry>, rowId: nat, since: int): seq<DecisionRow> {
    if log == [] then []
    else
      var e := log[|log| - 1];
      var rows := GroupDecisions(log[..|log| - 1], rowId, since);
      if e.userRowId == rowId && e.timestamp >= since then Insert(rows, e.decision) else rows
  }

  /** How many of the user's entries stamped at or after `since` carry decision `key`. */
  function CountDecision(log: seq<UsageEntry>, rowId: nat, since: int, key: Option<string>): nat {
    if log == [] then 0
    else
      var e := log[|log| - 1];
      CountDecision(log[..|log| - 1], rowId, since, key)
        + (if e.userRowId == rowId && e.timestamp >= since && e.decision == key then 1 else 0)
  }

  /** How many of the user's entries stamped at or after `since` carry a decision starting with `prefix`. */
  function CountDecisionPrefix(log: seq<UsageEntry>, rowId: nat, since: int, prefix: string): nat {
    if log == [] then 0
    else
      var e := log[|log| - 1];
      CountDecisionPrefix(log[..|log| - 1], rowId, since, prefix)
        + (if e.userRowId == rowId && e.timestamp >= since && HasPrefix(e.decision, prefix) then 1 else 0)
  }

  /** The grouped counts agree with the log, both per exact decision and per decision prefix. */
  lemma {:induction false} GroupDecisionsCounts(log: seq<UsageEntry>, rowId: nat, since: int, key: Option<string>, prefix: string)
    ensures Lookup(GroupDecisions(log, rowId, since), key) == CountDecision(log, rowId, since, key)
    ensures SumWithPrefix(GroupDecisions(log, rowId, since), prefix) == CountDecisionPrefix(log, rowId, since, prefix)
  {
    if log != [] {
      var front := log[..|log| - 1];
      var e := log[|log| - 1];
      GroupDecisionsCounts(front, rowId, since, key, prefix);
      if e.userRowId == rowId && e.timestamp >= since {
        InsertLookup(GroupDecisions(front, rowId, since), e.decision, key);
        InsertSum(GroupDecisions(front, rowId, since), e.decision, prefix);
      }
    }
  }

  // ---------------------------------------------------------------------
  // The store
  // ---------------------------------------------------------------------

  class Database {
    var users: map<string, User>
    var usageLogs: seq<UsageEntry>
    var errorLogs: seq<ErrorEntry>
    /** The next AUTOINCREMENT value of users.id; never reused, even after a removal. */
    var nextRowId: nat

    /**
     * Row ids are below the counter and distinct between users, and every
     * log entry refers to an id already handed out.
     */
    ghost predicate Valid()
      reads this
    {
      && (forall id :: id in users ==> users[id].rowId < nextRowId)
      && (forall a, b :: a in users && b in users && a != b ==> users[a].rowId != users[b].rowId)
      && (forall i :: 0 <= i < |usageLogs| ==> usageLogs[i].userRowId < nextRowId)
      && (forall i :: 0 <= i < |errorLogs| && errorLogs[i].userRowId.Some? ==> errorLogs[i].userRowId.value < nextRowId)
    }

    constructor ()
      ensures Valid()
      ensures users == map[] && usageLogs == [] && errorLogs == []
    {
      users := map[];
      usageLogs := [];
      errorLogs := [];
      nextRowId := 1;
    }

    /** is_user_authorized */
    predicate IsAuthorized(telegramId: string)
      reads this
    {
      telegramId in users && users[telegramId].isActive
    }

    /** is_user_admin */
    predicate IsAdmin(telegramId: string)
      reads this
    {
      telegramId in users && users[telegramId].isAdmin
    }

    /** get_usage_count: the user's entries in the last day or the last 30 days; 0 for an unknown user or period. */
    function UsageCount(telegramId: string, period: string, now: int): nat
      reads this
    {
      if telegramId !in users then 0
      else if period == "day" then CountSince(usageLogs, users[telegramId].rowId, now - DaySeconds)
      else if period == "month" then CountSince(usageLogs, users[telegramId].rowId, now - MonthSeconds)
      else 0
    }

    /** check_usage_limit */
    function LimitCheckFor(telegramId: string, now: int): LimitCheck
      reads this
    {
      if telegramId !in users then LimitCheck(false, NotAuthorizedMessage, 0, 0)
      else
        var u := users[telegramId];
        LimitDecision(UsageCount(telegramId, "day", now), UsageCount(telegramId, "month", now), u.dailyLimit, u.monthlyLimit)
    }

    /** The decision groups of the user's last 30 days; empty for an unknown user. */
    function RecentDecisions(telegramId: string, now: int): seq<DecisionRow>
      reads this
    {
      if telegramId in users then GroupDecisions(usageLogs, users[telegramId].rowId, now - MonthSeconds) else []
    }

    /** get_user */
    method GetUser(telegramId: string) returns (u: Option<User>)
      ensures u.Some? <==> telegramId in users
      ensures u.Some? ==> u.value == users[telegramId]
    {
      if telegramId in users {
        u := Some(users[telegramId]);
      } else {
        u := None;
      }
    }

    /** is_user_authorized */
    method IsUserAuthorized(telegramId: string) returns (b: bool)
      ensures b <==> telegramId in users && users[telegramId].isActive
    {
      var u := GetUser(telegramId);
      b := u.Some? && u.value.isActive;
    }

    /** is_user_admin */
    method IsUserAdmin(telegramId: string) returns (b: bool)
      ensures b <==> telegramId in users && users[telegramId].isAdmin
    {
      var u := GetUser(telegramId);
      b := u.Some? && u.value.isAdmin;
    }

    /**
     * add_user: fails and changes nothing when the id is already present;
     * otherwise inserts one active user with a fresh row id, whose usage
     * counts start at zero even if the id was used before and removed.
     */
    method AddUser(telegramId: string, username: Option<string>, isAdmin: bool, dailyLimit: int, monthlyLimit: int, now: int)
      returns (ok: bool)
      requires Valid()
      modifies this
      ensures Valid()
      ensures ok <==> telegramId !in old(users)
      ensures !ok ==> unchanged(this)
      ensures ok ==> && users == old(users)[telegramId := User(old(nextRowId), username, isAdmin, true, dailyLimit, monthlyLimit, now, now)]
                     && usageLogs == old(usageLogs) && errorLogs == old(errorLogs)
      ensures ok ==> forall since :: CountSince(usageLogs, users[telegramId].rowId, since) == 0
    {
      if telegramId in users {
        return false;
      }
      users := users[telegramId := User(nextRowId, username, isAdmin, true, dailyLimit, monthlyLimit, now, now)];
      forall since {
        CountSinceFresh(usageLogs, nextRowId, since);
      }
      nextRowId := nextRowId + 1;
      ok := true;
    }

    /** remove_user: true exactly when the id was present; afterwards it is absent and every other user is as before. */
    method RemoveUser(telegramId: string) returns (ok: bool)
      requires Valid()
      modifies this
      ensures Valid()
      ensures ok <==> telegramId in old(users)
      ensures !ok ==> unchanged(this)
      ensures users == old(users) - {telegramId}
      ensures usageLogs == old(usageLogs) && errorLogs == old(errorLogs) && nextRowId == old(nextRowId)
    {
      if telegramId !in users {
        assert users - {telegramId} == users;
        return false;
      }
      users := users - {telegramId};
      ok := true;
    }

    /**
     * update_user_limits: with neither limit given it fails and changes
     * nothing; otherwise it changes only the given limits (and the update
     * time) of that user, failing for an unknown id.
     */
    method UpdateUserLimits(telegramId: string, dailyLimit: Option<int>, monthlyLimit: Option<int>, now: int)
      returns (ok: bool)
      requires Valid()
      modifies this
      ensures Valid()
      ensures ok <==> (dailyLimit.Some? || monthlyLimit.Some?) && telegramId in old(users)
      ensures !ok ==> unchanged(this)
      ensures ok ==>
        var u := old(users)[telegramId];
        && users == old(users)[telegramId := u.(dailyLimit := dailyLimit.GetOr(u.dailyLimit),
                                                monthlyLimit := monthlyLimit.GetOr(u.monthlyLimit),
                                                updatedAt := now)]
        && usageLogs == old(usageLogs) && errorLogs == old(errorLogs) && nextRowId == old(nextRowId)
    {
      if dailyLimit.None? && monthlyLimit.None? {
        return false;
      }
      if telegramId !in users {
        return false;
      }
      var u := users[telegramId];
      if dailyLimit.Some? {
        u := u.(dailyLimit := dailyLimit.value);
      }
      if monthlyLimit.Some? {
        u := u.(monthlyLimit := monthlyLimit.value);
      }
      users := users[telegramId := u.(updatedAt := now)];
      ok := true;
    }

    /** toggle_user_status: changes only the active flag (and update time) of that user; true exactly when it exists. */
    method ToggleUserStatus(telegramId: string, isActive: bool, now: int) returns (ok: bool)
      requires Valid()
      modifies this
      ensures Valid()
      ensures ok <==> telegramId in old(users)
      ensures !ok ==> unchanged(this)
      ensures ok ==> && users == old(users)[telegramId := old(users)[telegramId].(isActive := isActive, updatedAt := now)]
                     && usageLogs == old(usageLogs) && errorLogs == old(errorLogs) && nextRowId == old(nextRowId)
    {
      if telegramId !in users {
        return false;
      }
      users := users[telegramId := users[telegramId].(isActive := isActive, updatedAt := now)];
      ok := true;
    }

    /** log_usage: for a known user, appends exactly one entry and leaves the earlier ones alone; otherwise nothing. */
    method LogUsage(telegramId: string, walletAddress: string, riskScore: Option<real>, decision: Option<string>, now: int)
      returns (ok: bool)
      requires Valid()
      modifies this
      ensures Valid()
      ensures ok <==> telegramId in old(users)
      ensures !ok ==> unchanged(this)
      ensures ok ==> && usageLogs == old(usageLogs) + [UsageEntry(old(users)[telegramId].rowId, walletAddress, riskScore, decision, now)]
                     && users == old(users) && errorLogs == old(errorLogs) && nextRowId == old(nextRowId)
    {
      var u := GetUser(telegramId);
      if u.None? {
        return false;
      }
      usageLogs := usageLogs + [UsageEntry(u.value.rowId, walletAddress, riskScore, decision, now)];
      ok := true;
    }

    /** log_error: always appends one entry, attributed to the caller's row when a non-empty, known id is given. */
    method LogError(telegramId: Option<string>, errorType: string, message: string, walletAddress: Option<string>, now: int)
      requires Valid()
      modifies this
      ensures Valid()
      ensures errorLogs == old(errorLogs) + [ErrorEntry(if telegramId.Some? then Attribution(old(users), telegramId.value) else None,
                                                        errorType, message, walletAddress, now)]
      ensures users == old(users) && usageLogs == old(usageLogs) && nextRowId == old(nextRowId)
    {
      var userRowId: Option<nat> := None;
      if telegramId.Some? && telegramId.value != "" {
        var u := GetUser(telegramId.value);
        if u.Some? {
          userRowId := Some(u.value.rowId);
        }
      }
      errorLogs := errorLogs + [ErrorEntry(userRowId, errorType, message, walletAddress, now)];
    }

    /** get_usage_count, counting the log entry by entry. */
    method GetUsageCount(telegramId: string, period: string, now: int) returns (n: nat)
      ensures n == UsageCount(telegramId, period, now)
    {
      var u := GetUser(telegramId);
      if u.None? {
        return 0;
      }
      var threshold;
      if period == "day" {
        threshold := now - DaySeconds;
      } else if period == "month" {
        threshold := now - MonthSeconds;
      } else {
        return 0;
      }
      n := 0;
      var i := 0;
      while i < |usageLogs|
        invariant 0 <= i <= |usageLogs|
        invariant n == CountSince(usageLogs[..i], u.value.rowId, threshold)
      {
        assert usageLogs[..i + 1][..i] == usageLogs[..i];
        if usageLogs[i].userRowId == u.value.rowId && usageLogs[i].timestamp >= threshold {
          n := n + 1;
        }
        i := i + 1;
      }
      assert usageLogs[..i] == usageLogs;
    }

    /** check_usage_limit */
    method CheckUsageLimit(telegramId: string, now: int) returns (r: LimitCheck)
      ensures r == LimitCheckFor(telegramId, now)
      ensures r.allowed ==> telegramId in users && UsageCount(telegramId, "day", now) < users[telegramId].dailyLimit
                                                 && UsageCount(telegramId, "month", now) < users[telegramId].monthlyLimit
    {
      var u := GetUser(telegramId);
      if u.None? {
        return LimitCheck(false, NotAuthorizedMessage, 0, 0);
      }
      var dailyUsage := GetUsageCount(telegramId, "day", now);
      var monthlyUsage := GetUsageCount(telegramId, "month", now);
      var remainingDaily := Max0(u.value.dailyLimit - dailyUsage);
      var remainingMonthly := Max0(u.value.monthlyLimit - monthlyUsage);
      if dailyUsage >= u.value.dailyLimit {
        return LimitCheck(false, DailyLimitMessage(u.value.dailyLimit), remainingDaily, remainingMonthly);
      }
      if monthlyUsage >= u.value.monthlyLimit {
        return LimitCheck(false, MonthlyLimitMessage(u.value.monthlyLimit), remainingDaily, remainingMonthly);
      }
      return LimitCheck(true, OkMessage, remainingDaily, remainingMonthly);
    }
  }

  /** The day count never exceeds the month count. */
  lemma DayWithinMonth(db: Database, telegramId: string, now: int)
    ensures db.UsageCount(telegramId, "day", now) <= db.UsageCount(telegramId, "month", now)
  {
    if telegramId in db.users {
      CountSinceMonotone(db.usageLogs, db.users[telegramId].rowId, now - DaySeconds, now - MonthSeconds);
    }
  }

  /** If both windows are exhausted, the daily message is the one given. */
  lemma DailyMessageFirst(dailyUsed: int, monthlyUsed: int, dailyLimit: int, monthlyLimit: int)
    requires dailyUsed >= dailyLimit && monthlyUsed >= monthlyLimit
    ensures LimitDecision(dailyUsed, monthlyUsed, dailyLimit, monthlyLimit).message == DailyLimitMessage(dailyLimit)
  {
  }
}
