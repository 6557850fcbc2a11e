# Wallet compliance bot — verified model

This project models the core of a Telegram bot that screens cryptocurrency
wallet addresses. A whitelisted user sends an address. The bot checks that the
user is authorised, validates the address and checks the daily and monthly
query limits. It then asks an external risk-assessment API about the address
and applies a fixed list of compliance rules to the answer. The result is
"Approved" or "Rejected - <reason>", and the query is logged.

The model has six modules, one per concern:

- `Optional` (`option.dfy`): an `Option` type whose `GetOr` plays the part of a
  dict lookup with a default.
- `Text` (`text.dfy`): the Python string behaviour the code relies on:
  `str.strip` (the whitespace set of `str.isspace`), `lstrip('@')`,
  `startswith`, `str(n)` for integers, and `int(s)` on base-10 text with
  PEP 515 underscores.
- `Validators` (`validators.dfy`, after `validators.py`): the wallet-address, username and limit
  validators.
- `Categories` (the category loader in `elliptic_client.py`): the
  id-to-name mapping, folded from the rows of the category table, and the set
  of high-risk ids.
- `Compliance` (`apply_compliance_rules`): a typed assessment payload. The rules
  are first a missing score, then the score threshold, then a walk over every
  contribution, Source before Destination. The walk tests the high-risk
  category, then a high-risk country, then the Gambling special case, and
  logs each contribution in `triggered_rules` before testing it. Three
  nested-loop methods implement the walk. Each is proved against `Walk`, a
  recursive specification over the flattened list of contributions.
- `Store` (`database.py`): a `Database` class. Its fields are a map of users
  keyed by Telegram id, an append-only usage log, an append-only error log and
  the AUTOINCREMENT counter. Its methods cover add, remove, update, toggle,
  logging, the rolling-window usage counts and the daily/monthly limit gate.
- `Bot` (the handler bodies in `bot.py`): admin bootstrap, the wallet-analysis
  request with its fixed gate order, `/adduser`, `/removeuser`, `/setlimit` and
  the `/stats` tally.

Several things are parameters:

- the caller's id
- the message text
- the API's answer (`ApiResult`)
- the clock (integer seconds)
- the configuration: thresholds, category and country sets, and default limits

The shipped configuration values are `Compliance.DefaultThresholds`,
`Store.DefaultDailyLimit` and `Store.DefaultMonthlyLimit`.

Two points of the request path that the model keeps as the code has them:

- The address is validated after the authorisation check and before the limit
  check, and an invalid address is logged as an error.
- Usage entries are counted with `timestamp >= now - window`; the window has no
  upper bound.

The handlers model the code as written, including the two defects listed under
"## Findings": `/stats` uses the double-counting approved tally, and `/adduser`
uses the username validator as written.

## Model

| member | source | states |
|---|---|---|
| Text.StripShape | validators.py:15 | `strip()` leaves no whitespace at either end, and a string without whitespace is unchanged |
| Text.TrimStartShape | validators.py:48 | `lstrip` removes exactly the longest prefix of the stripped characters; what remains is a suffix that does not start with one |
| Text.TrimEndShape | validators.py:15 | the trailing half of `strip()` removes exactly the longest suffix of whitespace |
| Text.ParseIntRoundTrip | bot.py:277-278 | `int()` reads back any integer `str()` writes |
| Validators.ValidateWalletAddress | validators.py:7-37 | a valid result carries the empty message and an invalid one a non-empty message |
| Validators.PatternsAreAlphanumeric | validators.py:22-32 | each specific address pattern (BTC legacy, bc1, 0x, Litecoin) only accepts what the generic 26-90 alphanumeric pattern accepts |
| Validators.AddressPatternIsGeneric | validators.py:34 | on text not ending in a newline, the five-pattern disjunction is the generic pattern alone |
| Validators.WalletAddressValidIff | validators.py:12-37 | an address is valid exactly when its stripped form is 26 to 90 ASCII letters and digits |
| Validators.WalletAddressEmptyOrBlank | validators.py:12-19 | empty input gets the "cannot be empty" message; whitespace-only non-empty input gets the length message |
| Validators.ValidateTelegramUsernameAsWritten | validators.py:39-57 | the username validator as written (`re.match` with `$`); valid exactly when the message is empty |
| Validators.ValidateTelegramUsername | validators.py:39-57 | the username validator requiring the whole name to match; valid exactly when the message is empty |
| Validators.TelegramUsernameValidIff | validators.py:44-57 | after dropping leading '@'s, a username is valid exactly when it has 5 to 32 characters from `[A-Za-z0-9_]` |
| Validators.TrailingNewlineAccepted | validators.py:54 | the validator as written accepts "alice\n"; the corrected one rejects it |
| Validators.UsernameVersionsAgree | validators.py:54 | on input without a newline both versions give the same result |
| Validators.ValidateLimit | validators.py:59-68 | valid exactly when `min_val <= limit <= max_val`, and then the message is empty |
| Categories.LoadCategoryMapping | elliptic_client.py:50-67 | the row-by-row loop builds the mapping the header-skipping fold over the data rows defines |
| Categories.MappingKeys | elliptic_client.py:59-62 | an id is mapped exactly when some data row with at least two fields has that id once stripped |
| Categories.LastRowWins | elliptic_client.py:62 | when an id is defined more than once, the last defining row gives its (stripped) name |
| Categories.ShortRowsIgnored | elliptic_client.py:58-61 | rows with fewer than two fields change nothing, and the first row is never read as data |
| Categories.CategoryName | elliptic_client.py:203 | an id missing from the mapping is named "Unknown" |
| Categories.HighRiskIds | elliptic_client.py:193-196 | the high-risk ids are all known to the mapping |
| Categories.HighRiskIdsIff | elliptic_client.py:193-196 | an id is high-risk exactly when the mapping knows it and names a configured high-risk category |
| Compliance.DecisionTextPrefix | elliptic_client.py:180-268 | the decision starts with "Approved" exactly for approvals (and is then exactly "Approved") and with "Rejected" exactly for rejections |
| Compliance.FirstHighRiskCountry | elliptic_client.py:228-239 | a reported country is listed, is high-risk and the contribution is within the hop limit |
| Compliance.RuleFor | elliptic_client.py:216-261 | a rule on one contribution only yields a category, country or Gambling reason |
| Compliance.Walk | elliptic_client.py:199-261 | a walk that stops logged at least one and at most all contributions and gives a contribution-rule reason; one that does not stop logged one entry per contribution |
| Compliance.Evaluate | elliptic_client.py:167-268 | the verdict keeps the risk score, approves exactly with "No risk score found" or "All compliance checks passed", and logs no more entries per side than that side has contributions |
| Compliance.HitsAt | elliptic_client.py:209-214 | the logged entries correspond one to one and in order to the contributions walked |
| Compliance.WalkAppend | elliptic_client.py:199-205 | walking two stretches in sequence: the second is reached only when nothing fired in the first, and its entries follow the first's |
| Compliance.WalkStoppedPrefix | elliptic_client.py:217-261 | once a rule fires within a prefix, nothing after it is walked or logged |
| Compliance.WalkShape | elliptic_client.py:199-261 | on rejection at contribution k, the log is exactly contributions 0..k, none before k fired and the reason is k's; without rejection nothing fired and every contribution is logged |
| Compliance.ContributionVisitsPrefix | elliptic_client.py:205 | the first contributions of an element are a prefix of its visiting order |
| Compliance.ElementVisitsPrefix | elliptic_client.py:201 | the first matched elements of an exposure are a prefix of its visiting order |
| Compliance.SideVisitsPrefix | elliptic_client.py:200 | the first exposures of a side are a prefix of its visiting order |
| Compliance.CheckContribution | elliptic_client.py:206-261 | the category test, then the country loop in list order, then the two Gambling tests, give the rule's result for that contribution |
| Compliance.WalkContributions | elliptic_client.py:205-261 | the contribution loop logs and tests as the walk specification says |
| Compliance.WalkElements | elliptic_client.py:201-204 | the matched-element loop, with "Unknown" for a missing category id, walks as specified |
| Compliance.WalkSide | elliptic_client.py:199-200 | the exposure loop of one side walks as specified |
| Compliance.ApplyComplianceRules | elliptic_client.py:167-268 | the imperative rule engine computes the verdict `Evaluate` specifies |
| Compliance.RiskScoreGate | elliptic_client.py:172-190 | no score approves and a score at or above the threshold rejects, with both logs empty, whatever the exposures |
| Compliance.EvaluateTrace | elliptic_client.py:199-268 | below the threshold Source is walked before Destination, the first rule that fires decides, and the logs hold exactly the contributions visited up to it; approval means nothing fired and everything was logged |
| Compliance.FirstHighRiskCountryIsFirst | elliptic_client.py:228-239 | a country is reported exactly when one listed code is high-risk within the hop limit, and it is the first such code |
| Compliance.CategoryRuleIff | elliptic_client.py:193-225 | the category rule fires exactly for a mapped id named as a high-risk category within the hop limit; unmapped ids never fire it |
| Compliance.CountryRuleIff | elliptic_client.py:227-239 | the country rule fires exactly when the category rule did not, a listed country is high-risk and the hops are within the limit |
| Compliance.GamblingDefaults | elliptic_client.py:241-261 | with the shipped thresholds, a Gambling contribution listing no country is rejected exactly at up to 2 hops, or at exactly 3 hops above 3.0 percent |
| Compliance.MissingHopsNeverFires | elliptic_client.py:206 | a contribution without a hop count (taken as 999) fires no rule under limits below 999 |
| Compliance.OneContributionVisits | elliptic_client.py:199-205 | an assessment with one Source contribution is walked as that single contribution |
| Compliance.CategoryHopBoundary | elliptic_client.py:217 | a high-risk category exactly at the hop limit rejects; one hop further is approved |
| Compliance.GamblingShareBoundary | elliptic_client.py:252 | at 3 hops a Gambling share equal to the threshold is approved and any larger share rejects |
| Store.CountSinceMonotone | database.py:243-253 | a wider window never counts fewer entries |
| Store.CountSinceFresh | database.py:31 | a row id above every logged row id has no usage |
| Store.CountSinceAppend | database.py:222-225 | a new entry adds one to its own user's count in every window containing it, and nothing to others |
| Store.LimitDecision | database.py:274-286 | remaining figures are `max(0, limit - used)`, so 0 once usage reaches the limit; allowed exactly when both windows have headroom, then the figures are at least 1; the daily message takes priority |
| Store.InsertLookup | database.py:308-314 | adding one decision to the groups adds one to its own group's count and nothing to others |
| Store.InsertSum | database.py:308-314 | adding one decision adds one to the sum over a prefix exactly when that decision has the prefix |
| Store.GroupDecisionsCounts | database.py:308-314 | the grouped counts agree with the log, per decision and per decision prefix |
| Store.Database.constructor | database.py:23-71 | a new store has empty tables |
| Store.Database.GetUser | database.py:113-126 | returns the user exactly when the id is present |
| Store.Database.IsUserAuthorized | database.py:128-131 | true exactly when the user exists and is active |
| Store.Database.IsUserAdmin | database.py:133-136 | true exactly when the user exists and is an admin |
| Store.Database.AddUser | database.py:74-94 | fails and changes nothing for a present id; otherwise inserts one active user with the given admin flag, limits and a fresh row id, with no usage even if the id was used before |
| Store.Database.RemoveUser | database.py:96-111 | true exactly when the id was present; afterwards it is absent, every other user and both logs are unchanged |
| Store.Database.UpdateUserLimits | database.py:138-174 | fails and changes nothing with no limit given or an unknown id; otherwise changes only the given limits and the update time of that user |
| Store.Database.ToggleUserStatus | database.py:176-196 | changes only the active flag and update time of that user; true exactly when it exists |
| Store.Database.LogUsage | database.py:212-231 | an unknown user gets false and nothing appended; otherwise exactly one entry is appended and all else is unchanged |
| Store.Attribution | database.py:349-353 | an error entry is attributed exactly when the id is non-empty and known |
| Store.Database.LogError | database.py:345-366 | appends exactly one entry, attributed only to a non-empty, known id |
| Store.Database.GetUsageCount | database.py:233-260 | the counting loop returns 0 for an unknown user or period, else the user's entries in the last day or 30 days |
| Store.Database.CheckUsageLimit | database.py:262-286 | an unknown user gets (False, "User not authorized", 0, 0); otherwise the limit decision on the two counts, and allowed implies both counts are below the limits |
| Store.DayWithinMonth | database.py:243-246 | the day count never exceeds the month count |
| Store.DailyMessageFirst | database.py:280-284 | with both windows exhausted the daily message is given |
| Bot.InitAdmin | bot.py:33-44 | adds the admin with 999/9999 only when absent; afterwards the admin exists, so a second run changes nothing |
| Bot.AnalyzeWallet | bot.py:351-405 | authorise, validate, check limits, call the API, evaluate, log: an unauthorised caller or a denied limit writes nothing; an invalid address writes one VALIDATION_ERROR entry even when over the limit; an API failure writes one API_ERROR entry; only success appends one usage entry with the decision, and the remaining figures shown are at least 0 |
| Bot.AnalyzeAllowed | bot.py:388-405 | after the limit gate: an API failure logs one error entry; a success logs one usage entry carrying the verdict's decision and score |
| Bot.AddUserCommand | bot.py:192-228 | only an admin with a name (leading '@'s dropped) that the username validator as written accepts adds a user, with the default limits; every other path changes nothing |
| Bot.RemoveUserCommand | bot.py:230-257 | an admin user is never removed or altered; only an admin removes a present non-admin user; nothing else changes |
| Bot.AcceptedLimits | bot.py:276-291 | both limits are accepted exactly when both parse as integers in 1..10000 |
| Bot.SetLimitCommand | bot.py:259-303 | the store changes exactly when an admin gives three arguments, both limits are accepted and the user exists, and then only that user's two limits change |
| Bot.TallyAsWrittenDoubleCounts | bot.py:149 | the approved tally as written equals the entries starting with "Approved" plus those exactly "Approved" |
| Bot.TallyAsWrittenCounterexample | bot.py:149 | one approved query in the window: the tally as written reports 2, the corrected one 1 |
| Bot.TalliesCountLog | bot.py:148-150 | the corrected approved and rejected tallies count the window's entries by decision prefix, once each |
| Bot.StatsCommand | bot.py:134-150 | as written: an authorised caller gets, for the last 30 days, the entries starting with "Approved" plus those exactly "Approved" (each approval twice), and the entries starting with "Rejected"; anyone else gets nothing |
| Bot.LowScoreApproved | elliptic_client.py:263-268 | a score below the threshold with no exposure is approved as "Approved", keeping the score |
| Bot.DailyLimitOfOne | bot.py:358-405 | with a daily limit of 1, a first valid request is analysed and logged, and a second one is refused by the daily limit with 0 left |

## Left out

- Telegram layer: handler registration, replies, Markdown texts and the
  `/start`, `/help`, `/limits`, `/listusers` and `/usage` commands, which only
  display. The caller's id that `get_user_id` derives is a parameter.
- SQLite mechanics: connections, SQL text, schema creation and rows as dicts.
  The tables are a map and two sequences. The paths where an unexpected
  database exception makes a method return False are not modelled.
- Timestamps: the store writes `CURRENT_TIMESTAMP` (UTC) and compares it as
  text with a local-time `datetime.now()`. The decision grouping uses SQLite's
  own `datetime('now', '-30 days')`. One integer clock replaces all three, so
  the time-zone skew is not captured.
- The HTTP client, its retries and the request signing (HMAC-SHA256 as in RFC
  2104, base64 as in section 4 of RFC 4648). The API's answer is the
  `ApiResult` parameter.
- Opening and parsing the category CSV file: the loader takes the rows already
  split. A file that cannot be read gives the empty mapping; the model covers
  this only as an empty row sequence.
- Floating point: scores and percentages are `real`. `round(x, 2)`, `str(x)`
  and `format(x, '.2f')` are the uninterpreted fields of `Compliance.Numerics`.
  The inflow/outflow balance, the report time and the top-5 display of
  triggered rules are presentation.
- JSON fields of the wrong type (a string hop count, say) are not modelled. The
  payload is typed, with absent fields as `None`. A `risk_triggers.country`
  that is not a list counts as absent.
- On the no-score path the source logs the text "N/A" in the numeric
  `risk_score` column. The model logs `None`.
- Concurrency: two requests of one user can both pass the limit check before
  either logs. The model handles one request at a time.
- Configuration reading from the environment: the shipped values are
  constants, and the handlers take them in `Bot.Config`.
- Reporting queries: `get_all_users`, `get_recent_errors`,
  `get_all_usage_stats` and the fields of `get_user_usage_stats` other than the
  decision counts that `/stats` reads.
- Validators.ValidateLimit: does not model the "Limit must be a valid number"
  branch, which the bot never reaches because it passes integers already parsed.
- Text.ParseInt: covers ASCII digits only. Python's `int()` also accepts other
  Unicode decimal digits.
- Bot.InitAdmin: idempotence is stated as "an admin already present means
  nothing changes" together with "afterwards the admin is present". It is not
  stated as an equation between running once and running twice.

## Findings

| source | as written | input that shows it | evidently intended | confidence | as-written member | corrected member |
|---|---|---|---|---|---|---|
| bot.py:149 | the approved tally adds the count of the exact "Approved" group to the sum over all groups starting with "Approved", which already includes it | one usage entry with decision "Approved" in the window: the tally is 2 | each approved query counted once: the sum over decisions starting with "Approved" | high (proved; not executed) | Bot.TallyAsWrittenCounterexample | Bot.TalliesCountLog |
| validators.py:54 | `re.match(r'^[a-zA-Z0-9_]+$', u)` accepts a name followed by one newline, because `$` also matches before a final newline | "alice\n" is accepted as a valid username | the whole name must consist of letters, digits and underscores | medium (proved; not executed; the bot's arguments are split on whitespace, so it cannot pass a newline) | Validators.TrailingNewlineAccepted | Validators.TelegramUsernameValidIff |
