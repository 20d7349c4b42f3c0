/**
 * The web UI initialiser (init/openwebui/init-openwebui.py): the outcome
 * recorded for each configured user, the summary's tallies and team
 * grouping, and the configuration script it runs inside the web UI's
 * container. The HTTP exchanges are parameters: `SignupOutcome` is what the
 * sign-up endpoint answered.
 */
module OpenwebuiInit {
  import opened Wrappers
  import opened Text
  import opened JsValues
  import opened Counters
  import opened Ranking
  import opened WebuiDb

  datatype UserConfig = UserConfig(name: string, email: string, password: string, team: string)

  /** A configured user with the outcome of creating it. */
  datatype UserResult = UserResult(user: UserConfig, status: string)

  /** What the sign-up request gave: a status code and body text, or an exception. */
  datatype SignupOutcome = Responded(statusCode: int, text: string) | RequestRaised

  /** `create_user_as_admin`: creating users through an admin API is not available, so it always reports failure. */
  function CreateUserAsAdmin(user: UserConfig): (created: bool)
    ensures !created
  {
    false
  }

  /** The outcome recorded for one user, given the sign-up answer and whether an admin token is held. */
  function SignupStatus(user: UserConfig, outcome: SignupOutcome, hasAdminToken: bool): string {
    match outcome
    case RequestRaised => "failed"
    case Responded(code, text) =>
      if code == 200 then "created"
      else if code == 400 && Contains(Lower(text), "already") then "exists"
      else if hasAdminToken then (if CreateUserAsAdmin(user) then "created" else "failed")
      else "failed"
  }

  /**
   * A user is 'created' exactly on a 200 answer and 'exists' exactly on a 400
   * answer that says 'already' in any case; everything else, with or without
   * an admin token, is 'failed'.
   */
  lemma StatusClassification(user: UserConfig, outcome: SignupOutcome, hasAdminToken: bool)
    ensures var s := SignupStatus(user, outcome, hasAdminToken);
      && (s == "created" <==> outcome.Responded? && outcome.statusCode == 200)
      && (s == "exists" <==> outcome.Responded? && outcome.statusCode == 400 && Contains(Lower(outcome.text), "already"))
      && (s == "failed" <==> !(outcome.Responded? && (outcome.statusCode == 200 ||
                                (outcome.statusCode == 400 && Contains(Lower(outcome.text), "already")))))
  {
  }

  /** `create_users`: one result per configured user, in configuration order. */
  method CreateUsers(users: seq<UserConfig>, outcomes: seq<SignupOutcome>, hasAdminToken: bool)
    returns (results: seq<UserResult>)
    requires |outcomes| == |users|
    ensures |results| == |users|
    ensures forall i | 0 <= i < |users| :: results[i] == UserResult(users[i], SignupStatus(users[i], outcomes[i], hasAdminToken))
  {
    results := [];
    var i := 0;
    while i < |users|
      invariant 0 <= i <= |users|
      invariant |results| == i
      invariant forall j | 0 <= j < i :: results[j] == UserResult(users[j], SignupStatus(users[j], outcomes[j], hasAdminToken))
    {
      var user := users[i];
      var status: string;
      match outcomes[i] {
        case RequestRaised =>
          status := "failed";
        case Responded(code, text) =>
          if code == 200 {
            status := "created";
          } else if code == 400 && Contains(Lower(text), "already") {
            status := "exists";
          } else if hasAdminToken {
            var created := CreateUserAsAdmin(user);
            status := if created then "created" else "failed";
          } else {
            status := "failed";
          }
      }
      results := results + [UserResult(user, status)];
      i := i + 1;
    }
  }

  // ---------------------------------------------------------------------
  // The summary

  /** How many results have `status`. */
  function CountStatus(results: seq<UserResult>, status: string): nat
    decreases |results|
  {
    if results == [] then 0
    else CountStatus(results[..|results| - 1], status) + (if results[|results| - 1].status == status then 1 else 0)
  }

  /** Every result is tallied exactly once: created, existing and failed add up to the number of users. */
  lemma {:induction false} TalliesAddUp(results: seq<UserResult>)
    requires forall i | 0 <= i < |results| :: results[i].status in {"created", "exists", "failed"}
    ensures CountStatus(results, "created") + CountStatus(results, "exists") + CountStatus(results, "failed") == |results|
    decreases |results|
  {
    if results != [] {
      TalliesAddUp(results[..|results| - 1]);
    }
  }

  /** The results of `CreateUsers` are all tallied. */
  lemma CreatedUsersTallied(users: seq<UserConfig>, outcomes: seq<SignupOutcome>, hasAdminToken: bool, results: seq<UserResult>)
    requires |outcomes| == |users| && |results| == |users|
    requires forall i | 0 <= i < |users| :: results[i] == UserResult(users[i], SignupStatus(users[i], outcomes[i], hasAdminToken))
    ensures CountStatus(results, "created") + CountStatus(results, "exists") + CountStatus(results, "failed") == |users|
  {
    TalliesAddUp(results);
  }

  /** The results of one team, in their original order. */
  function OfTeam(results: seq<UserResult>, team: string): seq<UserResult>
    decreases |results|
  {
    if results == [] then []
    else OfTeam(results[..|results| - 1], team) + (if results[|results| - 1].user.team == team then [results[|results| - 1]] else [])
  }

  /** The grouping `print_summary` builds: each result appended to its team's list. */
  function Grouped(results: seq<UserResult>): map<string, seq<UserResult>>
    decreases |results|
  {
    if results == [] then map[]
    else
      var groups := Grouped(results[..|results| - 1]);
      var r := results[|results| - 1];
      groups[r.user.team := (if r.user.team in groups then groups[r.user.team] else []) + [r]]
  }

  method GroupByTeam(results: seq<UserResult>) returns (teams: map<string, seq<UserResult>>)
    ensures teams == Grouped(results)
  {
    teams := map[];
    var i := 0;
    while i < |results|
      invariant 0 <= i <= |results|
      invariant teams == Grouped(results[..i])
    {
      assert results[..i + 1][..i] == results[..i];
      var user := results[i];
      var team := user.user.team;
      if team !in teams {
        teams := teams[team := []];
      }
      teams := teams[team := teams[team] + [user]];
      i := i + 1;
    }
    assert results[..i] == results;
  }

  /**
   * There is a group for exactly the teams that occur, and each group is that
   * team's results in their original order; so every result is in its own
   * team's group and in no other.
   */
  lemma {:induction false} GroupsAreTeams(results: seq<UserResult>)
    ensures forall t :: t in Grouped(results) <==> exists i | 0 <= i < |results| :: results[i].user.team == t
    ensures forall t | t in Grouped(results) :: Grouped(results)[t] == OfTeam(results, t)
    decreases |results|
  {
    if results != [] {
      var init := results[..|results| - 1];
      GroupsAreTeams(init);
      forall t ensures t in Grouped(results) <==> exists i | 0 <= i < |results| :: results[i].user.team == t {
        if exists i | 0 <= i < |results| :: results[i].user.team == t {
          var i :| 0 <= i < |results| && results[i].user.team == t;
          if i < |init| {
            assert init[i].user.team == t;
          }
        }
        if exists i | 0 <= i < |init| :: init[i].user.team == t {
          var i :| 0 <= i < |init| && init[i].user.team == t;
          assert results[i].user.team == t;
        }
      }
      forall t | t in Grouped(results) ensures Grouped(results)[t] == OfTeam(results, t) {
        if t !in Grouped(init) {
          OfTeamEmpty(init, t);
        }
      }
    }
  }

  lemma {:induction false} OfTeamEmpty(results: seq<UserResult>, team: string)
    requires team !in Grouped(results)
    ensures OfTeam(results, team) == []
    decreases |results|
  {
    if results != [] {
      OfTeamEmpty(results[..|results| - 1], team);
    }
  }

  /** Every member of a team's group belongs to that team. */
  lemma {:induction false} OfTeamMembers(results: seq<UserResult>, team: string)
    ensures forall r | r in OfTeam(results, team) :: r.user.team == team && r in results
    decreases |results|
  {
    if results != [] {
      OfTeamMembers(results[..|results| - 1], team);
    }
  }

  /** The teams of the results, one per result. */
  function TeamsOf(results: seq<UserResult>): seq<string> {
    seq(|results|, i requires 0 <= i < |results| => results[i].user.team)
  }

  /** `sorted(teams.keys())`: the order the teams are printed in. */
  function TeamOrder(results: seq<UserResult>): seq<string> {
    KeysAscending(TeamsOf(results))
  }

  /** Each team with a group is printed once, in ascending order. */
  lemma TeamOrderCorrect(results: seq<UserResult>)
    ensures var order := TeamOrder(results);
      && (forall t :: t in order <==> t in Grouped(results))
      && (forall i, j | 0 <= i < j < |order| :: order[i] != order[j] && LexLeq(order[i], order[j]))
  {
    KeysAscendingCorrect(TeamsOf(results));
    GroupsAreTeams(results);
    var teams := TeamsOf(results);
    forall t ensures t in teams <==> exists i | 0 <= i < |results| :: results[i].user.team == t {
      if t in teams {
        var i :| 0 <= i < |teams| && teams[i] == t;
      }
      if exists i | 0 <= i < |results| :: results[i].user.team == t {
        var i :| 0 <= i < |results| && results[i].user.team == t;
        assert teams[i] == t;
      }
    }
  }

  // ---------------------------------------------------------------------
  // The configuration script

  /**
   * The script of `configure_models`: update the document, insert the
   * missing models, then save the document; all committed together, so a
   * failure leaves the database as it was.
   */
  method ConfigureModels(db: Database, now: int) returns (r: Result<nat, ScriptError>)
    modifies db
    ensures r.Failure? ==> db.configRows == old(db.configRows) && db.models == old(db.models)
    ensures db.hasConfigTable == old(db.hasConfigTable)
    ensures r.Failure? <==> !old(db.hasConfigTable) || UpdatedConfig(old(ConfigData(db)), GatewayUrls, GatewayKeys).Failure?
    ensures r.Success? ==>
      && db.configRows == SavedConfig(old(db.configRows), old(db.FirstConfig()), UpdatedConfig(old(ConfigData(db)), GatewayUrls, GatewayKeys).value)
      && Inserted(db.models, r.value) == InsertAll(old(db.models), GatewayModels, now)
  {
    if !db.hasConfigTable {
      return Failure(NoConfigTable);
    }
    var read := db.FirstConfig();
    var data := if read.Some? then read.value.data else Obj(map[]);
    var updated := UpdatedConfig(data, GatewayUrls, GatewayKeys);
    if updated.Failure? {
      return Failure(updated.error);
    }
    var added := db.InsertModels(GatewayModels, now);
    db.SaveConfig(read, updated.value);
    r := Success(added);
  }
}
