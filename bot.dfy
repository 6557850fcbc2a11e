/**
 * The bodies of the bot's handlers, as sequential procedures over the store:
 * admin bootstrap, the wallet-analysis request, the admin commands that
 * change the whitelist, and the approved/rejected tally of /stats.
 * The caller's id (username, or numeric id as text), the message text, the
 * answer of the assessment API and the clock are parameters.
 */
module Bot {
  import opened Optional
  import opened Text
  import opened Validators
  import opened Compliance
  import opened Store

  /** Limits given to the bootstrapped admin. */
  const AdminDailyLimit := 999
  const AdminMonthlyLimit := 9999

  const ValidationErrorType := "VALIDATION_ERROR"
  const ApiErrorType := "API_ERROR"

  datatype Config = Config(
    adminId: string,
    defaultDailyLimit: int,
    defaultMonthlyLimit: int,
    thresholds: Thresholds,
    numerics: Numerics,
    categoryMapping: map<string, string>)

  /** What the assessment API answered: the parsed assessment, or an error message. */
  datatype ApiResult = ApiSuccess(assessment: Assessment) | ApiFailure(message: string)

  // ---------------------------------------------------------------------
  // Admin bootstrap
  // ---------------------------------------------------------------------

  /**
   * init_admin: adds the configured admin with the admin limits only when
   * absent. Afterwards the admin id is always present, so a second run
   * finds it and changes nothing.
   */
  method InitAdmin(db: Database, adminId: string, now: int)
    requires db.Valid()
    modifies db
    ensures db.Valid()
    ensures adminId in db.users
    ensures old(adminId in db.users) ==> unchanged(db)
    ensures old(adminId !in db.users) ==>
      && db.users == old(db.users)[adminId := User(old(db.nextRowId), Some(adminId), true, true, AdminDailyLimit, AdminMonthlyLimit, now, now)]
      && db.usageLogs == old(db.usageLogs) && db.errorLogs == old(db.errorLogs)
  {
    var existing := db.GetUser(adminId);
    if existing.None? {
      var _ := db.AddUser(adminId, Some(adminId), true, AdminDailyLimit, AdminMonthlyLimit, now);
    }
  }

  // ---------------------------------------------------------------------
  // Wallet analysis
  // ---------------------------------------------------------------------

  datatype Outcome =
    | AccessDenied
    | InvalidAddress(message: string)
    | LimitReached(message: string, remainingDaily: int, remainingMonthly: int)
    | AnalysisFailed(message: string)
    /** The verdict, its decision string and the remaining queries shown after this one. */
    | Analyzed(verdict: Verdict, decision: string, remainingDaily: int, remainingMonthly: int)

  /**
   * analyze_wallet: authorise, validate the stripped text, check the limits,
   * call the API, apply the compliance rules, log the usage. Only an invalid
   * address and an API failure write an error entry, and only a completed
   * analysis writes a usage entry; every other path writes nothing.
   */
  method AnalyzeWallet(db: Database, cfg: Config, callerId: string, text: string, api: ApiResult, now: int)
    returns (outcome: Outcome)
    requires db.Valid()
    modifies db
    ensures db.Valid()
    ensures !old(db.IsAuthorized(callerId)) ==> outcome == AccessDenied && unchanged(db)
    ensures var address := Strip(text);
      var check := ValidateWalletAddress(address);
      old(db.IsAuthorized(callerId)) && !check.isValid ==>
        && outcome == InvalidAddress(check.message)
        && db.errorLogs == old(db.errorLogs) + [ErrorEntry(Attribution(old(db.users), callerId), ValidationErrorType, check.message, Some(address), now)]
        && db.users == old(db.users) && db.usageLogs == old(db.usageLogs) && db.nextRowId == old(db.nextRowId)
    ensures var address := Strip(text);
      var gate := old(db.LimitCheckFor(callerId, now));
      old(db.IsAuthorized(callerId)) && ValidateWalletAddress(address).isValid && !gate.allowed ==>
        outcome == LimitReached(gate.message, gate.remainingDaily, gate.remainingMonthly) && unchanged(db)
    ensures var address := Strip(text);
      var gate := old(db.LimitCheckFor(callerId, now));
      old(db.IsAuthorized(callerId)) && ValidateWalletAddress(address).isValid && gate.allowed && api.ApiFailure? ==>
        && outcome == AnalysisFailed(api.message)
        && db.errorLogs == old(db.errorLogs) + [ErrorEntry(Attribution(old(db.users), callerId), ApiErrorType, api.message, Some(address), now)]
        && db.users == old(db.users) && db.usageLogs == old(db.usageLogs) && db.nextRowId == old(db.nextRowId)
    ensures var address := Strip(text);
      var gate := old(db.LimitCheckFor(callerId, now));
      old(db.IsAuthorized(callerId)) && ValidateWalletAddress(address).isValid && gate.allowed && api.ApiSuccess? ==>
        var v := Evaluate(api.assessment, cfg.categoryMapping, cfg.thresholds, cfg.numerics);
        var decision := DecisionText(v, cfg.numerics);
        && outcome == Analyzed(v, decision, gate.remainingDaily - 1, gate.remainingMonthly - 1)
        && outcome.remainingDaily >= 0 && outcome.remainingMonthly >= 0
        && db.usageLogs == old(db.usageLogs) + [UsageEntry(old(db.users)[callerId].rowId, address, v.riskScore, Some(decision), now)]
        && db.users == old(db.users) && db.errorLogs == old(db.errorLogs) && db.nextRowId == old(db.nextRowId)
  {
    var walletAddress := Strip(text);

    var authorized := db.IsUserAuthorized(callerId);
    if !authorized {
      return AccessDenied;
    }

    var validation := ValidateWalletAddress(walletAddress);
    if !validation.isValid {
      db.LogError(Some(callerId), ValidationErrorType, validation.message, Some(walletAddress), now);
      return InvalidAddress(validation.message);
    }

    var gate := db.CheckUsageLimit(callerId, now);
    if !gate.allowed {
      return LimitReached(gate.message, gate.remainingDaily, gate.remainingMonthly);
    }

    outcome := AnalyzeAllowed(db, cfg, callerId, walletAddress, gate, api, now);
  }

  /**
   * The part of analyze_wallet after the limit check let the request
   * through: an API failure is logged as an error, a success is evaluated
   * and logged as one usage entry carrying the decision.
   */
  method AnalyzeAllowed(db: Database, cfg: Config, callerId: string, walletAddress: string, gate: LimitCheck,
                        api: ApiResult, now: int)
    returns (outcome: Outcome)
    requires db.Valid() && callerId in db.users
    requires gate.allowed && gate.remainingDaily >= 1 && gate.remainingMonthly >= 1
    modifies db
    ensures db.Valid()
    ensures api.ApiFailure? ==>
      && outcome == AnalysisFailed(api.message)
      && db.errorLogs == old(db.errorLogs) + [ErrorEntry(Attribution(old(db.users), callerId), ApiErrorType, api.message, Some(walletAddress), now)]
      && db.users == old(db.users) && db.usageLogs == old(db.usageLogs) && db.nextRowId == old(db.nextRowId)
    ensures api.ApiSuccess? ==>
      var v := Evaluate(api.assessment, cfg.categoryMapping, cfg.thresholds, cfg.numerics);
      var decision := DecisionText(v, cfg.numerics);
      && outcome == Analyzed(v, decision, gate.remainingDaily - 1, gate.remainingMonthly - 1)
      && db.usageLogs == old(db.usageLogs) + [UsageEntry(old(db.users)[callerId].rowId, walletAddress, v.riskScore, Some(decision), now)]
      && db.users == old(db.users) && db.errorLogs == old(db.errorLogs) && db.nextRowId == old(db.nextRowId)
  {
    match api {
      case ApiFailure(message) =>
        db.LogError(Some(callerId), ApiErrorType, message, Some(walletAddress), now);
        return AnalysisFailed(message);
      case ApiSuccess(assessment) =>
        var verdict := ApplyComplianceRules(assessment, cfg.categoryMapping, cfg.thresholds, cfg.numerics);
        var decision := DecisionText(verdict, cfg.numerics);
        var _ := db.LogUsage(callerId, walletAddress, verdict.riskScore, Some(decision), now);
        return Analyzed(verdict, decision, gate.remainingDaily - 1, gate.remainingMonthly - 1);
    }
  }

  // ---------------------------------------------------------------------
  // Admin commands
  // ---------------------------------------------------------------------

  datatype CommandOutcome =
    | NotAdmin
    | UsageHint
    | InvalidInput(message: string)
    | CannotRemoveAdmin
    | Done
    | NotDone

  const NotANumberMessage := "Limits must be valid numbers."

  /**
   * /adduser: an admin adds a validated name (leading '@'s dropped) with the
   * default limits; nothing changes on any other path. The name is checked
   * by the username validator as written, which on newline-free words agrees
   * with the corrected one (UsernameVersionsAgree).
   */
  method AddUserCommand(db: Database, cfg: Config, callerId: string, args: seq<string>, now: int)
    returns (outcome: CommandOutcome)
    requires db.Valid()
    modifies db
    ensures db.Valid()
    ensures outcome != Done ==> unchanged(db)
    ensures !old(db.IsAdmin(callerId)) ==> outcome == NotAdmin
    ensures old(db.IsAdmin(callerId)) && |args| < 1 ==> outcome == UsageHint
    ensures old(db.IsAdmin(callerId)) && |args| >= 1 ==>
      var name := LStripChar(args[0], '@');
      var check := ValidateTelegramUsernameAsWritten(name);
      && (!check.isValid ==> outcome == InvalidInput(check.message))
      && (check.isValid ==> (outcome == Done <==> name !in old(db.users)))
      && (outcome == Done ==>
            && db.users == old(db.users)[name := User(old(db.nextRowId), Some(name), false, true, cfg.defaultDailyLimit, cfg.defaultMonthlyLimit, now, now)]
            && db.usageLogs == old(db.usageLogs) && db.errorLogs == old(db.errorLogs))
  {
    var admin := db.IsUserAdmin(callerId);
    if !admin {
      return NotAdmin;
    }
    if |args| < 1 {
      return UsageHint;
    }
    var newUser := LStripChar(args[0], '@');
    var check := ValidateTelegramUsernameAsWritten(newUser);
    if !check.isValid {
      return InvalidInput(check.message);
    }
    var success := db.AddUser(newUser, Some(newUser), false, cfg.defaultDailyLimit, cfg.defaultMonthlyLimit, now);
    outcome := if success then Done else NotDone;
  }

  /**
   * /removeuser: an admin removes a non-admin user. An admin user is never
   * removed, whoever asks; the logs are never touched.
   */
  method RemoveUserCommand(db: Database, callerId: string, args: seq<string>)
    returns (outcome: CommandOutcome)
    requires db.Valid()
    modifies db
    ensures db.Valid()
    ensures outcome != Done ==> unchanged(db)
    ensures forall u :: u in old(db.users) && old(db.users)[u].isAdmin ==> u in db.users && db.users[u] == old(db.users)[u]
    ensures !old(db.IsAdmin(callerId)) ==> outcome == NotAdmin
    ensures old(db.IsAdmin(callerId)) && |args| < 1 ==> outcome == UsageHint
    ensures old(db.IsAdmin(callerId)) && |args| >= 1 ==>
      var target := LStripChar(args[0], '@');
      && (old(db.IsAdmin(target)) ==> outcome == CannotRemoveAdmin)
      && (!old(db.IsAdmin(target)) ==> (outcome == Done <==> target in old(db.users)))
      && (outcome == Done ==> db.users == old(db.users) - {target} && db.usageLogs == old(db.usageLogs) && db.errorLogs == old(db.errorLogs))
  {
    var admin := db.IsUserAdmin(callerId);
    if !admin {
      return NotAdmin;
    }
    if |args| < 1 {
      return UsageHint;
    }
    var userToRemove := LStripChar(args[0], '@');
    var targetIsAdmin := db.IsUserAdmin(userToRemove);
    if targetIsAdmin {
      return CannotRemoveAdmin;
    }
    var success := db.RemoveUser(userToRemove);
    outcome := if success then Done else NotDone;
  }

  /** Both limits of /setlimit, when both parse as integers and both lie in 1..10000. */
  function AcceptedLimits(dailyText: string, monthlyText: string): (r: Option<(int, int)>)
    ensures r.Some? <==> && ParseInt(dailyText).Some? && ParseInt(monthlyText).Some?
                         && DefaultMinLimit <= ParseInt(dailyText).value <= DefaultMaxLimit
                         && DefaultMinLimit <= ParseInt(monthlyText).value <= DefaultMaxLimit
    ensures r.Some? ==> r.value == (ParseInt(dailyText).value, ParseInt(monthlyText).value)
  {
    match (ParseInt(dailyText), ParseInt(monthlyText))
    case (Some(d), Some(m)) =>
      if ValidateLimit(d, DefaultMinLimit, DefaultMaxLimit).isValid && ValidateLimit(m, DefaultMinLimit, DefaultMaxLimit).isValid
      then Some((d, m)) else None
    case _ => None
  }

  /**
   * /setlimit: the store changes only when an admin asks, both limits parse
   * and pass validate_limit, and the user exists; then exactly that user's
   * two limits change.
   */
  method SetLimitCommand(db: Database, callerId: string, args: seq<string>, now: int)
    returns (outcome: CommandOutcome)
    requires db.Valid()
    modifies db
    ensures db.Valid()
    ensures outcome != Done ==> unchanged(db)
    ensures outcome == Done <==>
      && old(db.IsAdmin(callerId)) && |args| >= 3
      && AcceptedLimits(args[1], args[2]).Some?
      && LStripChar(args[0], '@') in old(db.users)
    ensures outcome == Done ==>
      var target := LStripChar(args[0], '@');
      var (d, m) := AcceptedLimits(args[1], args[2]).value;
      && db.users == old(db.users)[target := old(db.users)[target].(dailyLimit := d, monthlyLimit := m, updatedAt := now)]
      && db.usageLogs == old(db.usageLogs) && db.errorLogs == old(db.errorLogs)
  {
    var admin := db.IsUserAdmin(callerId);
    if !admin {
      return NotAdmin;
    }
    if |args| < 3 {
      return UsageHint;
    }
    var username := LStripChar(args[0], '@');
    var daily := ParseInt(args[1]);
    var monthly := ParseInt(args[2]);
    if daily.None? || monthly.None? {
      return InvalidInput(NotANumberMessage);
    }
    var dailyCheck := ValidateLimit(daily.value, DefaultMinLimit, DefaultMaxLimit);
    if !dailyCheck.isValid {
      return InvalidInput("Daily limit error: " + dailyCheck.message);
    }
    var monthlyCheck := ValidateLimit(monthly.value, DefaultMinLimit, DefaultMaxLimit);
    if !monthlyCheck.isValid {
      return InvalidInput("Monthly limit error: " + monthlyCheck.message);
    }
    var success := db.UpdateUserLimits(username, Some(daily.value), Some(monthly.value), now);
    outcome := if success then Done else NotDone;
  }

  // ---------------------------------------------------------------------
  // The /stats tally
  // ---------------------------------------------------------------------

  /** The approved tally as written: the exact "Approved" group plus every group starting with "Approved". */
  function ApprovedTallyAsWritten(rows: seq<DecisionRow>): nat {
    Lookup(rows, Some("Approved")) + SumWithPrefix(rows, "Approved")
  }

  /** The approved tally, each decision starting with "Approved" counted once. */
  function ApprovedTally(rows: seq<DecisionRow>): nat {
    SumWithPrefix(rows, "Approved")
  }

  function RejectedTally(rows: seq<DecisionRow>): nat {
    SumWithPrefix(rows, "Rejected")
  }

  /** As written, every query whose decision is exactly "Approved" is counted twice. */
  lemma TallyAsWrittenDoubleCounts(log: seq<UsageEntry>, rowId: nat, since: int)
    ensures ApprovedTallyAsWritten(GroupDecisions(log, rowId, since))
         == CountDecisionPrefix(log, rowId, since, "Approved") + CountDecision(log, rowId, since, Some("Approved"))
  {
    GroupDecisionsCounts(log, rowId, since, Some("Approved"), "Approved");
  }

  /** One approved query in the window: the tally as written reports two, the corrected one reports one. */
  lemma TallyAsWrittenCounterexample()
    ensures var log := [UsageEntry(1, "1BoatSLRHtKNngkdXEeobR76b53LETtpyT", Some(1.0), Some("Approved"), 0)];
      var rows := GroupDecisions(log, 1, 0);
      ApprovedTallyAsWritten(rows) == 2 && ApprovedTally(rows) == 1
  {
    var log := [UsageEntry(1, "1BoatSLRHtKNngkdXEeobR76b53LETtpyT", Some(1.0), Some("Approved"), 0)];
    assert log[..0] == [];
    var rows := GroupDecisions(log, 1, 0);
    assert rows == [DecisionRow(Some("Approved"), 1)];
    assert "Approved"[..8] == "Approved";
    assert HasPrefix(Some("Approved"), "Approved");
    assert rows[1..] == [];
    assert Lookup(rows, Some("Approved")) == 1;
    assert SumWithPrefix(rows, "Approved") == 1 + SumWithPrefix(rows[1..], "Approved");
  }

  /** The corrected tallies count the window's entries whose decision starts with "Approved", resp. "Rejected", once each. */
  lemma TalliesCountLog(log: seq<UsageEntry>, rowId: nat, since: int)
    ensures ApprovedTally(GroupDecisions(log, rowId, since)) == CountDecisionPrefix(log, rowId, since, "Approved")
    ensures RejectedTally(GroupDecisions(log, rowId, since)) == CountDecisionPrefix(log, rowId, since, "Rejected")
  {
    GroupDecisionsCounts(log, rowId, since, None, "Approved");
    GroupDecisionsCounts(log, rowId, since, None, "Rejected");
  }

  datatype Tally = Tally(approved: nat, rejected: nat)

  /**
   * /stats for an authorised caller, as the handler is written: the rejected
   * count is the number of the caller's entries of the last 30 days whose
   * decision starts with "Rejected", while the approved count adds the
   * entries whose decision is exactly "Approved" to those starting with
   * "Approved", so each approval is counted twice. None for anyone else.
   */
  method StatsCommand(db: Database, callerId: string, now: int) returns (tally: Option<Tally>)
    ensures !db.IsAuthorized(callerId) ==> tally == None
    ensures db.IsAuthorized(callerId) ==>
      var rowId := db.users[callerId].rowId;
      var since := now - MonthSeconds;
      tally == Some(Tally(CountDecisionPrefix(db.usageLogs, rowId, since, "Approved") + CountDecision(db.usageLogs, rowId, since, Some("Approved")),
                          CountDecisionPrefix(db.usageLogs, rowId, since, "Rejected")))
  {
    var authorized := db.IsUserAuthorized(callerId);
    if !authorized {
      return None;
    }
    var decisions := db.RecentDecisions(callerId, now);
    TallyAsWrittenDoubleCounts(db.usageLogs, db.users[callerId].rowId, now - MonthSeconds);
    TalliesCountLog(db.usageLogs, db.users[callerId].rowId, now - MonthSeconds);
    return Some(Tally(ApprovedTallyAsWritten(decisions), RejectedTally(decisions)));
  }

  // ---------------------------------------------------------------------
  // A whole exchange
  // ---------------------------------------------------------------------

  lemma LowScoreApproved(num: Numerics)
    ensures var v := Evaluate(Assessment(Some(2.0), [], []), map[], DefaultThresholds, num);
      v.approved && v.riskScore == Some(2.0) && DecisionText(v, num) == "Approved"
  {
  }

  /**
   * A user with a daily limit of 1 and no prior usage asks twice in a row
   * about a well-formed address (any text that strips to a valid address)
   * whose assessment has a low score and no exposure: the first request is approved and logged, the second is
   * refused by the daily limit with nothing left for the day.
   */
  method DailyLimitOfOne(text: string, num: Numerics, now: int) returns (first: Outcome, second: Outcome)
    requires ValidateWalletAddress(Strip(text)).isValid
    ensures first.Analyzed? && first.verdict.approved && first.decision == "Approved"
    ensures first.remainingDaily == 0 && first.remainingMonthly == DefaultMonthlyLimit - 1
    ensures second == LimitReached(DailyLimitMessage(1), 0, DefaultMonthlyLimit - 1)
  {
    LowScoreApproved(num);
    var cfg := Config("admin", DefaultDailyLimit, DefaultMonthlyLimit, DefaultThresholds, num, map[]);
    var api := ApiSuccess(Assessment(Some(2.0), [], []));

    var db := new Database();
    var added := db.AddUser("alice", Some("alice"), false, 1, DefaultMonthlyLimit, now);
    assert db.IsAuthorized("alice");
    assert db.UsageCount("alice", "day", now) == 0 && db.UsageCount("alice", "month", now) == 0;

    first := AnalyzeWallet(db, cfg, "alice", text, api, now);
    var rowId := db.users["alice"].rowId;
    assert db.usageLogs == [UsageEntry(rowId, Strip(text), Some(2.0), Some("Approved"), now)];
    assert db.usageLogs[..0] == [];
    assert db.UsageCount("alice", "day", now) == 1 && db.UsageCount("alice", "month", now) == 1;

    second := AnalyzeWallet(db, cfg, "alice", text, api, now);
  }
}
