/**
 * Activity inferred from container logs and the web UI's user table
 * (scripts/track-users-openwebui.py).
 *
 * The three log-searching regular expressions of the chat-log scan are
 * parameters (`Matcher`s); the two `key=value` captures of the gateway scan and
 * the `|`-separated database rows are modelled concretely.
 */
module LogMining {
  import opened Wrappers
  import opened Text
  import opened Ranking
  import opened Counters

  /** What running a command gave: an exception, or its exit code and standard output. */
  datatype CommandOutcome = Raised | Completed(returnCode: int, stdout: string)

  /** A regular-expression search: the first capture group of its match in a line, if it matches. */
  type Matcher = string -> Option<string>

  // ---------------------------------------------------------------------
  // Chat activity from the web UI's log

  datatype UserLog = UserLog(requests: nat, timestamps: seq<string>)

  /** Counted users, and the users in the order they were first counted. */
  datatype ChatActivity = ChatActivity(users: map<string, UserLog>, order: seq<string>)

  const NoChat := ChatActivity(map[], [])

  /** One more event for `name`, with the line's timestamp when it has one. */
  function CountEvent(act: ChatActivity, name: string, line: string, timestamp: Matcher): ChatActivity {
    var u := if name in act.users then act.users[name] else UserLog(0, []);
    var stamp := timestamp(line);
    var v := UserLog(u.requests + 1, if stamp.Some? then u.timestamps + [stamp.value] else u.timestamps);
    ChatActivity(act.users[name := v], if name in act.users then act.order else act.order + [name])
  }

  /** One line against the patterns, in order: every pattern that matches counts its capture. */
  function MineLine(act: ChatActivity, line: string, patterns: seq<Matcher>, timestamp: Matcher): ChatActivity
    decreases |patterns|
  {
    if patterns == [] then act
    else
      var before := MineLine(act, line, patterns[..|patterns| - 1], timestamp);
      match patterns[|patterns| - 1](line)
      case None => before
      case Some(name) => CountEvent(before, name, line, timestamp)
  }

  function MineLines(lines: seq<string>, patterns: seq<Matcher>, timestamp: Matcher): ChatActivity
    decreases |lines|
  {
    if lines == [] then NoChat
    else MineLine(MineLines(lines[..|lines| - 1], patterns, timestamp), lines[|lines| - 1], patterns, timestamp)
  }

  /** `get_openwebui_chat_logs`: nothing when the command raised, otherwise every log line mined. */
  function ChatLogs(outcome: CommandOutcome, patterns: seq<Matcher>, timestamp: Matcher): ChatActivity {
    match outcome
    case Raised => NoChat
    case Completed(_, stdout) => MineLines(Split(stdout, '\n'), patterns, timestamp)
  }

  method GetChatLogs(outcome: CommandOutcome, patterns: seq<Matcher>, timestamp: Matcher) returns (act: ChatActivity)
    ensures act == ChatLogs(outcome, patterns, timestamp)
  {
    if outcome.Raised? {
      return NoChat;
    }
    var lines := Split(outcome.stdout, '\n');
    act := NoChat;
    var i := 0;
    while i < |lines|
      invariant 0 <= i <= |lines|
      invariant act == MineLines(lines[..i], patterns, timestamp)
    {
      act := MineLineInto(act, lines[i], patterns, timestamp);
      assert lines[..i + 1][..i] == lines[..i];
      i := i + 1;
    }
    assert lines[..i] == lines;
  }

  /** One log line tried against each pattern in turn, counting an event for each name captured. */
  method MineLineInto(act0: ChatActivity, line: string, patterns: seq<Matcher>, timestamp: Matcher) returns (act: ChatActivity)
    ensures act == MineLine(act0, line, patterns, timestamp)
  {
    var users, order := act0.users, act0.order;
    var j := 0;
    while j < |patterns|
      invariant 0 <= j <= |patterns|
      invariant ChatActivity(users, order) == MineLine(act0, line, patterns[..j], timestamp)
    {
      assert patterns[..j + 1][..j] == patterns[..j];
      var found := patterns[j](line);
      if found.Some? {
        var name := found.value;
        var u := if name in users then users[name] else UserLog(0, []);
        u := u.(requests := u.requests + 1);
        var stamp := timestamp(line);
        if stamp.Some? {
          u := u.(timestamps := u.timestamps + [stamp.value]);
        }
        if name !in users {
          order := order + [name];
        }
        users := users[name := u];
      }
      j := j + 1;
    }
    assert patterns[..j] == patterns;
    act := ChatActivity(users, order);
  }

  function Events(act: ChatActivity, name: string): nat {
    if name in act.users then act.users[name].requests else 0
  }

  /** How many of the patterns capture `name` in `line`. */
  function Matches(line: string, patterns: seq<Matcher>, name: string): nat
    decreases |patterns|
  {
    if patterns == [] then 0
    else Matches(line, patterns[..|patterns| - 1], name) + (if patterns[|patterns| - 1](line) == Some(name) then 1 else 0)
  }

  lemma {:induction false} MatchesAtMostPatterns(line: string, patterns: seq<Matcher>, name: string)
    ensures Matches(line, patterns, name) <= |patterns|
    decreases |patterns|
  {
    if patterns != [] {
      MatchesAtMostPatterns(line, patterns[..|patterns| - 1], name);
    }
  }

  /** A line that no pattern matches changes nothing. */
  lemma {:induction false} UnmatchedLine(act: ChatActivity, line: string, patterns: seq<Matcher>, timestamp: Matcher)
    requires forall j | 0 <= j < |patterns| :: patterns[j](line) == None
    ensures MineLine(act, line, patterns, timestamp) == act
    decreases |patterns|
  {
    if patterns != [] {
      UnmatchedLine(act, line, patterns[..|patterns| - 1], timestamp);
    }
  }

  /**
   * A line adds one event to a user for every pattern that captures that
   * user, with no early exit, so at most one per pattern.
   */
  lemma {:induction false} LineEvents(act: ChatActivity, line: string, patterns: seq<Matcher>, timestamp: Matcher, name: string)
    ensures Events(MineLine(act, line, patterns, timestamp), name) == Events(act, name) + Matches(line, patterns, name)
    ensures Matches(line, patterns, name) <= |patterns|
    decreases |patterns|
  {
    MatchesAtMostPatterns(line, patterns, name);
    if patterns != [] {
      LineEvents(act, line, patterns[..|patterns| - 1], timestamp, name);
    }
  }

  /** Every counted user has at least one event, and no more timestamps than events. */
  ghost predicate ChatOk(act: ChatActivity) {
    && (forall i, j | 0 <= i < j < |act.order| :: act.order[i] != act.order[j])
    && (forall name :: name in act.users <==> name in act.order)
    && (forall name | name in act.users :: 1 <= act.users[name].requests && |act.users[name].timestamps| <= act.users[name].requests)
  }

  lemma {:induction false} MineLineOk(act: ChatActivity, line: string, patterns: seq<Matcher>, timestamp: Matcher)
    requires ChatOk(act)
    ensures ChatOk(MineLine(act, line, patterns, timestamp))
    decreases |patterns|
  {
    if patterns != [] {
      var before := MineLine(act, line, patterns[..|patterns| - 1], timestamp);
      MineLineOk(act, line, patterns[..|patterns| - 1], timestamp);
      var found := patterns[|patterns| - 1](line);
      if found.Some? && found.value !in before.users {
        var after := CountEvent(before, found.value, line, timestamp);
        forall i, j | 0 <= i < j < |after.order| ensures after.order[i] != after.order[j] {
          if j == |before.order| {
            assert after.order[i] == before.order[i];
          } else {
            assert after.order[i] == before.order[i] && after.order[j] == before.order[j];
          }
        }
      }
    }
  }

  /** The whole log: a user's event count is the number of captures of that user over all lines. */
  lemma {:induction false} ChatLogsOutcome(lines: seq<string>, patterns: seq<Matcher>, timestamp: Matcher, name: string)
    ensures ChatOk(MineLines(lines, patterns, timestamp))
    ensures Events(MineLines(lines, patterns, timestamp), name) == TotalMatches(lines, patterns, name)
    decreases |lines|
  {
    if lines != [] {
      var init := lines[..|lines| - 1];
      ChatLogsOutcome(init, patterns, timestamp, name);
      MineLineOk(MineLines(init, patterns, timestamp), lines[|lines| - 1], patterns, timestamp);
      LineEvents(MineLines(init, patterns, timestamp), lines[|lines| - 1], patterns, timestamp, name);
    }
  }

  function TotalMatches(lines: seq<string>, patterns: seq<Matcher>, name: string): nat
    decreases |lines|
  {
    if lines == [] then 0
    else TotalMatches(lines[..|lines| - 1], patterns, name) + Matches(lines[|lines| - 1], patterns, name)
  }

  function EventsOf(act: ChatActivity): string -> int {
    (name: string) => Events(act, name)
  }

  /** `main`'s chat list: users by non-increasing event count, ties in first-counted order. */
  function ChatRanking(act: ChatActivity): seq<string> {
    SortDesc(act.order, EventsOf(act))
  }

  lemma ChatRankingCorrect(act: ChatActivity, n: int)
    ensures multiset(ChatRanking(act)) == multiset(act.order)
    ensures forall i, j | 0 <= i < j < |ChatRanking(act)| ::
      Events(act, ChatRanking(act)[i]) >= Events(act, ChatRanking(act)[j])
    ensures WithKey(ChatRanking(act), EventsOf(act), n) == WithKey(act.order, EventsOf(act), n)
  {
    SortDescPermutes(act.order, EventsOf(act));
    SortDescSorted(act.order, EventsOf(act));
    SortDescStable(act.order, EventsOf(act), n);
  }

  // ---------------------------------------------------------------------
  // Request counts from the gateway's log

  /** The gateway counters; `byProvider` and `byStatus` are kept as the names counted, in order. */
  datatype GatewayStats = GatewayStats(totalRequests: nat, byProvider: seq<string>, byStatus: seq<string>,
                                       successful: nat, errors: nat)

  const NoRequests := GatewayStats(0, [], [], 0, 0)

  const RouteMarker := "route_rule="
  const StatusMarker := "http.status="
  const ProviderMarker := "gen_ai.provider.name="

  /** Whether a status counts as a success (it starts with '2'). */
  predicate IsSuccess(status: string) {
    StartsWith(status, "2")
  }

  /** Whether a status counts as an error (it starts with '4' or '5'). */
  predicate IsError(status: string) {
    StartsWith(status, "4") || StartsWith(status, "5")
  }

  /** One gateway log line: counted only when it mentions both a route rule and a status. */
  function GatewayLine(s: GatewayStats, line: string): GatewayStats {
    if Contains(line, RouteMarker) && Contains(line, StatusMarker) then
      var counted := s.(totalRequests := s.totalRequests + 1);
      var withProvider :=
        match CaptureAfter(line, ProviderMarker, IsWordChar)
        case None => counted
        case Some(provider) => counted.(byProvider := counted.byProvider + [provider]);
      match CaptureAfter(line, StatusMarker, IsDigit)
      case None => withProvider
      case Some(status) =>
        withProvider.(byStatus := withProvider.byStatus + [status],
                      successful := if IsSuccess(status) then withProvider.successful + 1 else withProvider.successful,
                      errors := if !IsSuccess(status) && IsError(status) then withProvider.errors + 1 else withProvider.errors)
    else s
  }

  function GatewayLines(lines: seq<string>): GatewayStats
    decreases |lines|
  {
    if lines == [] then NoRequests else GatewayLine(GatewayLines(lines[..|lines| - 1]), lines[|lines| - 1])
  }

  /** `get_agentgateway_stats`: `None` stands for the empty dict returned when the command raised. */
  function GatewayStatsOf(outcome: CommandOutcome): Option<GatewayStats> {
    match outcome
    case Raised => None
    case Completed(_, stdout) => Some(GatewayLines(Split(stdout, '\n')))
  }

  method GetGatewayStats(outcome: CommandOutcome) returns (r: Option<GatewayStats>)
    ensures r == GatewayStatsOf(outcome)
  {
    if outcome.Raised? {
      return None;
    }
    var lines := Split(outcome.stdout, '\n');
    var total, successful, errors: nat := 0, 0, 0;
    var byProvider, byStatus: seq<string> := [], [];
    var i := 0;
    while i < |lines|
      invariant 0 <= i <= |lines|
      invariant GatewayStats(total, byProvider, byStatus, successful, errors) == GatewayLines(lines[..i])
    {
      var line := lines[i];
      assert lines[..i + 1][..i] == lines[..i];
      if Contains(line, RouteMarker) && Contains(line, StatusMarker) {
        total := total + 1;
        var provider := CaptureAfter(line, ProviderMarker, IsWordChar);
        if provider.Some? {
          byProvider := byProvider + [provider.value];
        }
        var status := CaptureAfter(line, StatusMarker, IsDigit);
        if status.Some? {
          byStatus := byStatus + [status.value];
          if IsSuccess(status.value) {
            successful := successful + 1;
          } else if IsError(status.value) {
            errors := errors + 1;
          }
        }
      }
      i := i + 1;
    }
    assert lines[..i] == lines;
    r := Some(GatewayStats(total, byProvider, byStatus, successful, errors));
  }

  /** Counters never exceed the number of counted lines; successes and errors are disjoint. */
  predicate GatewayOk(s: GatewayStats) {
    && s.successful + s.errors <= |s.byStatus| <= s.totalRequests
    && |s.byProvider| <= s.totalRequests
  }

  /**
   * A line is counted exactly when it mentions both a route rule and a status;
   * each counted line adds at most one provider, one status, and one success
   * or error, and the bounds are kept.
   */
  lemma GatewayLineCounts(s: GatewayStats, line: string)
    requires GatewayOk(s)
    ensures var t := GatewayLine(s, line);
      && t.totalRequests == s.totalRequests + (if Contains(line, RouteMarker) && Contains(line, StatusMarker) then 1 else 0)
      && GatewayOk(t)
  {
  }

  /** A counted status is a success when it starts with '2', an error when it starts with '4' or '5', else neither. */
  lemma {:induction false} StatusClassified(s: GatewayStats, line: string, status: string)
    requires Contains(line, RouteMarker) && Contains(line, StatusMarker)
    requires CaptureAfter(line, StatusMarker, IsDigit) == Some(status)
    ensures GatewayLine(s, line).byStatus == s.byStatus + [status]
    ensures GatewayLine(s, line).successful == s.successful + (if status[0] == '2' then 1 else 0)
    ensures GatewayLine(s, line).errors == s.errors + (if status[0] == '4' || status[0] == '5' then 1 else 0)
  {
    assert IsSuccess(status) <==> status[0] == '2' by {
      assert |status| >= 1;
      assert StartsWith(status, "2") <==> status[..1] == "2";
    }
    assert IsError(status) <==> status[0] == '4' || status[0] == '5' by {
      assert StartsWith(status, "4") <==> status[..1] == "4";
      assert StartsWith(status, "5") <==> status[..1] == "5";
    }
    var t := GatewayLine(s, line);
    var p := CaptureAfter(line, ProviderMarker, IsWordChar);
    assert t.byStatus == s.byStatus + [status];
  }

  /** A line without a route rule or without a status changes nothing. */
  lemma UncountedLine(s: GatewayStats, line: string)
    requires !Contains(line, RouteMarker) || !Contains(line, StatusMarker)
    ensures GatewayLine(s, line) == s
  {
  }

  lemma {:induction false} GatewayLinesOk(lines: seq<string>)
    ensures GatewayOk(GatewayLines(lines))
    decreases |lines|
  {
    if lines != [] {
      GatewayLinesOk(lines[..|lines| - 1]);
      GatewayLineCounts(GatewayLines(lines[..|lines| - 1]), lines[|lines| - 1]);
    }
  }

  // ---------------------------------------------------------------------
  // Recently active users from the database

  datatype ActiveUser = ActiveUser(email: string, name: string, role: string, lastActive: string)

  /** One output row: kept when it has a '|' and at least three fields, mapped by position. */
  function RowOf(line: string): Option<ActiveUser> {
    if '|' in line then
      var parts := Split(line, '|');
      if |parts| >= 3 then
        Some(ActiveUser(parts[0],
                        if |parts| > 1 then parts[1] else "",
                        if |parts| > 2 then parts[2] else "",
                        if |parts| > 3 then parts[3] else ""))
      else None
    else None
  }

  function RowsOf(lines: seq<string>): seq<ActiveUser>
    decreases |lines|
  {
    if lines == [] then []
    else
      var init := RowsOf(lines[..|lines| - 1]);
      match RowOf(lines[|lines| - 1])
      case None => init
      case Some(u) => init + [u]
  }

  /** `get_active_users_from_db`: the rows of a successful query, nothing otherwise. */
  function ActiveUsersOf(outcome: CommandOutcome): seq<ActiveUser> {
    match outcome
    case Raised => []
    case Completed(code, stdout) => if code == 0 then RowsOf(Split(Strip(stdout), '\n')) else []
  }

  method GetActiveUsers(outcome: CommandOutcome) returns (users: seq<ActiveUser>)
    ensures users == ActiveUsersOf(outcome)
  {
    users := [];
    if outcome.Completed? && outcome.returnCode == 0 {
      users := ParseRows(Split(Strip(outcome.stdout), '\n'));
    }
  }

  /** The rows kept from the query's output lines, in order. */
  method ParseRows(lines: seq<string>) returns (users: seq<ActiveUser>)
    ensures users == RowsOf(lines)
  {
    users := [];
    var i := 0;
    while i < |lines|
      invariant 0 <= i <= |lines|
      invariant users == RowsOf(lines[..i])
    {
      assert lines[..i + 1][..i] == lines[..i];
      var row := RowOf(lines[i]);
      if row.Some? {
        users := users + [row.value];
      }
      i := i + 1;
    }
    assert lines[..i] == lines;
  }

  /** A row is kept exactly when it holds at least two '|' separators. */
  lemma RowKept(line: string)
    ensures RowOf(line).Some? <==> multiset(line)['|'] >= 2
  {
    var parts := Split(line, '|');
    assert '|' in line <==> '|' in multiset(line);
  }

  /** A row written from four '|'-free fields is read back as those fields. */
  lemma RowRoundTrip(email: string, name: string, role: string, lastActive: string)
    requires '|' !in email && '|' !in name && '|' !in role && '|' !in lastActive
    ensures RowOf(Join([email, name, role, lastActive], "|")) == Some(ActiveUser(email, name, role, lastActive))
  {
    var fields := [email, name, role, lastActive];
    var line := Join(fields, "|");
    SplitJoin(fields, '|');
    assert line == email + "|" + Join(fields[1..], "|");
    assert line[|email|] == '|';
  }

  /** A row with only three fields has an empty last-active time. */
  lemma ShortRowRoundTrip(email: string, name: string, role: string)
    requires '|' !in email && '|' !in name && '|' !in role
    ensures RowOf(Join([email, name, role], "|")) == Some(ActiveUser(email, name, role, ""))
  {
    var fields := [email, name, role];
    var line := Join(fields, "|");
    SplitJoin(fields, '|');
    assert line == email + "|" + Join(fields[1..], "|");
    assert line[|email|] == '|';
  }

  // ---------------------------------------------------------------------
  // The gateway section of the report

  datatype ProviderLine = ProviderLine(provider: string, count: nat, percent: real)
  datatype StatusLine = StatusLine(status: string, count: nat)

  /** What the gateway section prints: totals, providers most used first, statuses in order. */
  datatype GatewaySection = GatewaySection(totalRequests: nat, successful: nat, errors: nat,
                                           providers: seq<ProviderLine>, statuses: seq<StatusLine>)

  function SectionOf(s: GatewayStats): GatewaySection {
    var names := MostCountedFirst(s.byProvider);
    var codes := KeysAscending(s.byStatus);
    GatewaySection(s.totalRequests, s.successful, s.errors,
                   seq(|names|, i requires 0 <= i < |names| =>
                     ProviderLine(names[i], Count(s.byProvider, names[i]), Percent(Count(s.byProvider, names[i]), s.totalRequests))),
                   seq(|codes|, i requires 0 <= i < |codes| => StatusLine(codes[i], Count(s.byStatus, codes[i]))))
  }

  /**
   * Each provider line is a percentage of all counted requests, between 0 and
   * 100; it would be 0 with no requests, but a provider is only counted on a
   * counted line.
   */
  lemma SectionPercentages(s: GatewayStats)
    requires GatewayOk(s)
    ensures var lines := SectionOf(s).providers;
      forall i | 0 <= i < |lines| ::
        && lines[i].count == Count(s.byProvider, lines[i].provider) > 0
        && 0.0 <= lines[i].percent <= 100.0
        && (s.totalRequests == 0 ==> lines[i].percent == 0.0)
  {
    var names := MostCountedFirst(s.byProvider);
    MostCountedFirstCorrect(s.byProvider);
    forall i | 0 <= i < |names| ensures 0.0 <= Percent(Count(s.byProvider, names[i]), s.totalRequests) <= 100.0 {
      PercentBounds(Count(s.byProvider, names[i]), s.totalRequests);
    }
  }

  /** Why the section cannot be printed: a key missing from the statistics dict. */
  datatype KeyError = KeyError(key: string)

  /**
   * The gateway section as written: after the log command raised, the
   * statistics are the empty dict and reading 'total_requests' raises.
   */
  function GatewaySectionAsWritten(stats: Option<GatewayStats>): Result<GatewaySection, KeyError> {
    match stats
    case None => Failure(KeyError("total_requests"))
    case Some(s) => Success(SectionOf(s))
  }

  /** When the gateway log command raises, the report aborts with a KeyError. */
  lemma GatewaySectionCrashes()
    ensures GatewaySectionAsWritten(GatewayStatsOf(Raised)) == Failure(KeyError("total_requests"))
  {
  }

  /** The evidently intended section: statistics that could not be read count as no requests. */
  function GatewaySectionFixed(stats: Option<GatewayStats>): (r: GatewaySection)
    ensures stats.None? ==> r.totalRequests == 0 && r.successful == 0 && r.errors == 0 && r.providers == [] && r.statuses == []
    ensures stats.Some? ==> GatewaySectionAsWritten(stats) == Success(r)
  {
    match stats
    case None => SectionOf(NoRequests)
    case Some(s) => SectionOf(s)
  }

  /** The corrected section always prints, and its totals satisfy the gateway bounds for any log. */
  lemma GatewaySectionFixedTotals(outcome: CommandOutcome)
    ensures var r := GatewaySectionFixed(GatewayStatsOf(outcome));
      r.successful + r.errors <= r.totalRequests
  {
    if outcome.Completed? {
      GatewayLinesOk(Split(outcome.stdout, '\n'));
    }
  }
}
