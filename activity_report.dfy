/**
 * The report printed from the per-user figures, and the JSON document
 * written instead of it (scripts/analyze-user-activity.py, `print_report` and
 * `main`). Figures are modelled; text layout and number formatting are not.
 */
module ActivityReport {
  import opened Wrappers
  import opened Ranking
  import opened Counters
  import opened TraceActivity
  import JsValues

  // ---------------------------------------------------------------------
  // Figures per user

  function RequestsOf(a: Activity): string -> int {
    (e: string) => Requests(a, e)
  }

  /** Users in report order: most requests first, ties in first-seen order. */
  function RankedUsers(a: Activity): seq<string> {
    SortDesc(a.order, RequestsOf(a))
  }

  /** The report lists every user once, by non-increasing request count, ties in first-seen order. */
  lemma RankedUsersCorrect(a: Activity, n: int)
    ensures multiset(RankedUsers(a)) == multiset(a.order)
    ensures forall i, j | 0 <= i < j < |RankedUsers(a)| ::
      Requests(a, RankedUsers(a)[i]) >= Requests(a, RankedUsers(a)[j])
    ensures WithKey(RankedUsers(a), RequestsOf(a), n) == WithKey(a.order, RequestsOf(a), n)
  {
    SortDescPermutes(a.order, RequestsOf(a));
    SortDescSorted(a.order, RequestsOf(a));
    SortDescStable(a.order, RequestsOf(a), n);
  }

  /** Mean response time in milliseconds; durations are in microseconds. */
  function AvgMs(u: UserStats): real {
    if u.requests > 0 then u.totalDurationUs as real / u.requests as real / 1000.0 else 0.0
  }

  /** The mean times the number of requests gives back the total duration. */
  lemma AvgMsTotal(u: UserStats)
    requires u.requests > 0
    ensures AvgMs(u) * u.requests as real * 1000.0 == u.totalDurationUs as real
  {
  }

  /** The error rate line: present only for a user with requests. */
  function ErrorPercent(u: UserStats): Option<real> {
    if u.requests > 0 then Some(Percent(u.errors, u.requests)) else None
  }

  lemma ErrorPercentBounds(u: UserStats)
    requires UserOk(u)
    ensures ErrorPercent(u).Some? && 0.0 <= ErrorPercent(u).value <= 100.0
  {
    PercentBounds(u.errors, u.requests);
  }

  datatype Share = Share(name: string, count: nat, percent: real)
  datatype CodeCount = CodeCount(code: string, count: nat)

  /** The providers a user used, most used first, with their share of the user's requests. */
  function ProviderShares(u: UserStats): (shares: seq<Share>) {
    var names := MostCountedFirst(u.providers);
    seq(|names|, i requires 0 <= i < |names| =>
      Share(names[i], Count(u.providers, names[i]), Percent(Count(u.providers, names[i]), u.requests)))
  }

  /**
   * Each provider the user used is listed once, with its count, by
   * non-increasing count; the shares are percentages of the user's requests.
   */
  lemma ProviderSharesCorrect(u: UserStats)
    requires UserOk(u)
    ensures var shares := ProviderShares(u);
      && (forall p :: (exists i | 0 <= i < |shares| :: shares[i].name == p) <==> p in u.providers)
      && (forall i, j | 0 <= i < j < |shares| :: shares[i].name != shares[j].name && shares[i].count >= shares[j].count)
      && (forall i | 0 <= i < |shares| ::
            shares[i].count == Count(u.providers, shares[i].name) > 0 && 0.0 <= shares[i].percent <= 100.0)
  {
    var names := MostCountedFirst(u.providers);
    var shares := ProviderShares(u);
    MostCountedFirstCorrect(u.providers);
    forall p ensures (exists i | 0 <= i < |shares| :: shares[i].name == p) <==> p in u.providers {
      if p in names {
        var i :| 0 <= i < |names| && names[i] == p;
        assert shares[i].name == p;
      }
    }
    forall i | 0 <= i < |shares| ensures 0.0 <= shares[i].percent <= 100.0 {
      PercentBounds(shares[i].count, u.requests);
    }
  }

  /** The status codes a user received, in ascending order, each with its count. */
  function StatusLines(u: UserStats): seq<CodeCount> {
    var codes := KeysAscending(u.statusCodes);
    seq(|codes|, i requires 0 <= i < |codes| => CodeCount(codes[i], Count(u.statusCodes, codes[i])))
  }

  /** Each status code received is listed once, in ascending order, with its count. */
  lemma StatusLinesCorrect(u: UserStats)
    ensures var lines := StatusLines(u);
      && (forall c :: (exists i | 0 <= i < |lines| :: lines[i].code == c) <==> c in u.statusCodes)
      && (forall i, j | 0 <= i < j < |lines| :: lines[i].code != lines[j].code && LexLeq(lines[i].code, lines[j].code))
      && (forall i | 0 <= i < |lines| :: lines[i].count == Count(u.statusCodes, lines[i].code) > 0)
  {
    var codes := KeysAscending(u.statusCodes);
    var lines := StatusLines(u);
    KeysAscendingCorrect(u.statusCodes);
    forall c ensures (exists i | 0 <= i < |lines| :: lines[i].code == c) <==> c in u.statusCodes {
      if c in codes {
        var i :| 0 <= i < |codes| && codes[i] == c;
        assert lines[i].code == c;
      }
    }
  }

  /** Everything the report prints about one user. */
  datatype UserLine = UserLine(rank: nat, email: string, requests: nat, avgMs: real, errors: nat,
                               errorPercent: Option<real>, providers: seq<Share>, statusCodes: seq<CodeCount>)

  function LineOf(a: Activity, rank: nat, email: string): UserLine {
    var u := if email in a.stats then a.stats[email] else NewUser;
    UserLine(rank, email, u.requests, AvgMs(u), u.errors, ErrorPercent(u), ProviderShares(u), StatusLines(u))
  }

  // ---------------------------------------------------------------------
  // Summary over all users

  /** The providers of every user, users in first-seen order. */
  function AllProviders(a: Activity, users: seq<string>): seq<string>
    decreases |users|
  {
    if users == [] then []
    else AllProviders(a, users[..|users| - 1]) + ProvidersOf(a, users[|users| - 1])
  }

  function ProvidersOf(a: Activity, email: string): seq<string> {
    if email in a.stats then a.stats[email].providers else []
  }

  /**
   * The provider totals: for each user in turn, each of the user's providers
   * in the order the user first used them adds its count to the provider's
   * total. The totals have the keys and counts of all users' providers together.
   */
  method ProviderTotals(a: Activity) returns (keys: seq<string>, totals: map<string, nat>)
    ensures keys == Keys(AllProviders(a, a.order))
    ensures forall p :: p in totals <==> p in keys
    ensures forall p | p in totals :: totals[p] == Count(AllProviders(a, a.order), p)
  {
    keys, totals := [], map[];
    var i := 0;
    while i < |a.order|
      invariant 0 <= i <= |a.order|
      invariant keys == Keys(AllProviders(a, a.order[..i]))
      invariant forall p :: p in totals <==> p in keys
      invariant forall p | p in totals :: totals[p] == Count(AllProviders(a, a.order[..i]), p)
    {
      ghost var done := AllProviders(a, a.order[..i]);
      var h := ProvidersOf(a, a.order[i]);
      keys, totals := AddProviderCounts(done, h, keys, totals);
      assert a.order[..i + 1][..i] == a.order[..i];
      assert AllProviders(a, a.order[..i + 1]) == done + h;
      i := i + 1;
    }
    assert a.order[..i] == a.order;
  }

  /** The totals after adding, name by name, the count in `h` of each of `names`. */
  function AddCounts(t: map<string, nat>, names: seq<string>, h: seq<string>): map<string, nat>
    decreases |names|
  {
    if names == [] then t
    else
      AddCount(AddCounts(t, names[..|names| - 1], h), names[|names| - 1], h)
  }

  /** One name's count in `h` added to its total, which starts from nothing when it has none. */
  function AddCount(t: map<string, nat>, p: string, h: seq<string>): map<string, nat> {
    if p in t then t[p := t[p] + Count(h, p)] else t[p := Count(h, p)]
  }

  /** A name has a total exactly when it had one before or was added. */
  lemma {:induction false} AddCountsDomain(t: map<string, nat>, names: seq<string>, h: seq<string>, q: string)
    ensures q in AddCounts(t, names, h) <==> q in t || q in names
    decreases |names|
  {
    if names != [] {
      AddCountsDomain(t, names[..|names| - 1], h, q);
      assert names == names[..|names| - 1] + [names[|names| - 1]];
    }
  }

  /** Adding distinct names adds each one's count exactly once to its total. */
  lemma {:induction false} AddCountsValue(t: map<string, nat>, names: seq<string>, h: seq<string>, q: string)
    requires NoDup(names) && q in AddCounts(t, names, h)
    ensures AddCounts(t, names, h)[q] == (if q in t then t[q] else 0) + (if q in names then Count(h, q) else 0)
    decreases |names|
  {
    if names != [] {
      var init := names[..|names| - 1];
      assert names == init + [names[|names| - 1]];
      NoDupPrefix(names, |names| - 1);
      AddCountsDomain(t, init, h, q);
      if q in AddCounts(t, init, h) {
        AddCountsValue(t, init, h, q);
      }
    }
  }

  /** The key order after adding `names` one by one to a counter whose keys are `keys`. */
  function KeysAfter(keys: seq<string>, names: seq<string>): seq<string>
    decreases |names|
  {
    if names == [] then keys
    else
      var k := KeysAfter(keys, names[..|names| - 1]);
      if names[|names| - 1] in k then k else k + [names[|names| - 1]]
  }

  /** Totals and keys kept in step: a name has a total exactly when it is a key. */
  lemma {:induction false} AddCountsKeysAfter(t: map<string, nat>, keys: seq<string>, names: seq<string>, h: seq<string>, q: string)
    requires q in t <==> q in keys
    ensures q in AddCounts(t, names, h) <==> q in KeysAfter(keys, names)
    decreases |names|
  {
    if names != [] {
      AddCountsKeysAfter(t, keys, names[..|names| - 1], h, q);
    }
  }

  /** Adding names to the keys of `done` gives the keys of `done` followed by those names. */
  lemma {:induction false} KeysAfterKeys(done: seq<string>, names: seq<string>)
    ensures KeysAfter(Keys(done), names) == Keys(done + names)
    decreases |names|
  {
    if names == [] {
      assert done + names == done;
    } else {
      var init := names[..|names| - 1];
      KeysAfterKeys(done, init);
      KeysAppend(done + init, names[|names| - 1]);
      KeysCorrect(done + init);
      assert done + names == (done + init) + [names[|names| - 1]];
    }
  }

  /**
   * Adding the counts of `h`'s keys to a counter for `done` gives the counter
   * for `done + h`: its keys in order, and for each of them its count.
   */
  lemma AddCountsTotals(done: seq<string>, keys: seq<string>, t: map<string, nat>, h: seq<string>)
    requires keys == Keys(done)
    requires forall p :: p in t <==> p in keys
    requires forall p | p in t :: t[p] == Count(done, p)
    ensures KeysAfter(keys, Keys(h)) == Keys(done + h)
    ensures forall q :: q in AddCounts(t, Keys(h), h) <==> q in Keys(done + h)
    ensures forall q | q in AddCounts(t, Keys(h), h) :: AddCounts(t, Keys(h), h)[q] == Count(done + h, q)
  {
    var totals := AddCounts(t, Keys(h), h);
    KeysAfterKeys(done, Keys(h));
    KeysOfKeys(done, h);
    KeysCorrect(h);
    KeysCorrect(done);
    forall q ensures q in totals <==> q in Keys(done + h) {
      AddCountsKeysAfter(t, keys, Keys(h), h, q);
    }
    forall q | q in totals ensures totals[q] == Count(done + h, q) {
      AddCountsDomain(t, Keys(h), h, q);
      AddCountsValue(t, Keys(h), h, q);
      assert multiset(done + h) == multiset(done) + multiset(h);
    }
  }

  /** One user's providers added to the totals so far: each of them once, with its count for that user. */
  method AddProviderCounts(ghost done: seq<string>, h: seq<string>, keys0: seq<string>, totals0: map<string, nat>)
    returns (keys: seq<string>, totals: map<string, nat>)
    requires keys0 == Keys(done)
    requires forall p :: p in totals0 <==> p in keys0
    requires forall p | p in totals0 :: totals0[p] == Count(done, p)
    ensures keys == Keys(done + h)
    ensures forall p :: p in totals <==> p in keys
    ensures forall p | p in totals :: totals[p] == Count(done + h, p)
  {
    keys, totals := keys0, totals0;
    var names := Keys(h);
    var j := 0;
    while j < |names|
      invariant 0 <= j <= |names|
      invariant keys == KeysAfter(keys0, names[..j])
      invariant totals == AddCounts(totals0, names[..j], h)
    {
      var p := names[j];
      assert names[..j + 1][..j] == names[..j];
      AddCountsKeysAfter(totals0, keys0, names[..j], h, p);
      if p in totals {
        totals := totals[p := totals[p] + Count(h, p)];
      } else {
        totals := totals[p := Count(h, p)];
        keys := keys + [p];
      }
      j := j + 1;
    }
    assert names[..j] == names;
    AddCountsTotals(done, keys0, totals0, h);
  }

  /** `int(percentage / 2)`: the length of a provider's bar, half a mark per percent. */
  function Bar(count: nat, total: nat): int {
    (Percent(count, total) / 2.0).Floor
  }

  /** A bar is at most 50 marks long and is the whole part of `count * 50 / total`. */
  lemma BarLength(count: nat, total: nat)
    requires count <= total
    ensures 0 <= Bar(count, total) <= 50
    ensures total > 0 ==> Bar(count, total) == count * 50 / total
  {
    PercentBounds(count, total);
    if total > 0 {
      var t := total as real;
      var y := (count * 50) as real / t;
      assert (count * 50) as real == count as real * 50.0;
      ScaleQuotient(count as real, t);
      assert Percent(count, total) / 2.0 == y;
      FloorOfQuotient(count * 50, total);
    }
  }

  lemma ScaleQuotient(c: real, t: real)
    requires t != 0.0
    ensures c / t * 100.0 / 2.0 == (c * 50.0) / t
  {
  }

  /** Real division rounded down is integer division. */
  lemma FloorOfQuotient(m: nat, t: nat)
    requires t > 0
    ensures (m as real / t as real).Floor == m / t
  {
    var q, r := m / t, m % t;
    assert m == q * t + r && 0 <= r < t;
    var x := m as real / t as real;
    assert x == q as real + r as real / t as real;
    assert 0.0 <= r as real / t as real < 1.0;
  }

  datatype BarLine = BarLine(provider: string, count: nat, percent: real, bar: int)

  /** The provider usage distribution: every provider once, most requests first. */
  function Distribution(a: Activity): seq<BarLine> {
    var all := AllProviders(a, a.order);
    var total := SumCounts(Keys(all), all);
    var names := MostCountedFirst(all);
    seq(|names|, i requires 0 <= i < |names| =>
      BarLine(names[i], Count(all, names[i]), Percent(Count(all, names[i]), total), Bar(Count(all, names[i]), total)))
  }

  /**
   * The distribution lists each provider any user used, once, by
   * non-increasing count; the percentages are of all provider-tagged requests
   * and each bar is at most 50 marks.
   */
  lemma DistributionCorrect(a: Activity)
    ensures var lines := Distribution(a);
      && (forall p :: (exists i | 0 <= i < |lines| :: lines[i].provider == p) <==> p in AllProviders(a, a.order))
      && (forall i, j | 0 <= i < j < |lines| ::
            lines[i].provider != lines[j].provider && lines[i].count >= lines[j].count)
      && (forall i | 0 <= i < |lines| ::
            && lines[i].count == Count(AllProviders(a, a.order), lines[i].provider) > 0
            && lines[i].percent == Percent(lines[i].count, |AllProviders(a, a.order)|)
            && 0 <= lines[i].bar <= 50)
  {
    var all := AllProviders(a, a.order);
    var names := MostCountedFirst(all);
    var lines := Distribution(a);
    SumOfCounts(all);
    MostCountedFirstCorrect(all);
    forall p ensures (exists i | 0 <= i < |lines| :: lines[i].provider == p) <==> p in all {
      if p in names {
        var i :| 0 <= i < |names| && names[i] == p;
        assert lines[i].provider == p;
      }
    }
    forall i | 0 <= i < |lines| ensures 0 <= lines[i].bar <= 50 {
      BarLength(lines[i].count, |all|);
    }
  }

  datatype TopUser = TopUser(rank: nat, email: string, requests: nat)

  /** `sorted_users[:5]` */
  function TopUsers(a: Activity): seq<TopUser> {
    var ranked := RankedUsers(a);
    var n := if |ranked| < 5 then |ranked| else 5;
    seq(n, i requires 0 <= i < n => TopUser(i + 1, ranked[i], Requests(a, ranked[i])))
  }

  /** The report: a notice when no user was seen, otherwise the figures of every user and the summary. */
  datatype Report =
    | NoUserActivity(lookback: string)
    | Full(lookback: string, totalTraces: nat, uniqueUsers: nat, users: seq<UserLine>,
           distribution: seq<BarLine>, top: seq<TopUser>)

  function BuildReport(a: Activity, lookback: string): Report {
    if a.stats == map[] then NoUserActivity(lookback)
    else
      var ranked := RankedUsers(a);
      Full(lookback, a.totalTraces, |a.stats|,
           seq(|ranked|, i requires 0 <= i < |ranked| => LineOf(a, i + 1, ranked[i])),
           Distribution(a), TopUsers(a))
  }

  /** Only a result without users gives the notice. */
  lemma NoticeIffNoUsers(a: Activity, lookback: string)
    requires WellFormed(a)
    ensures BuildReport(a, lookback).NoUserActivity? <==> a.order == []
  {
    if a.order != [] {
      assert a.order[0] in a.stats;
    }
  }

  /**
   * For well-formed figures the report has one line per user, ranked 1, 2, …
   * in the order of `RankedUsers`, each with that user's request count.
   */
  lemma {:induction false} ReportLines(a: Activity, lookback: string)
    requires WellFormed(a) && a.order != []
    ensures var r := BuildReport(a, lookback);
      && r.Full?
      && r.uniqueUsers == |r.users| == |a.order|
      && (forall i | 0 <= i < |r.users| ::
            && r.users[i].rank == i + 1
            && r.users[i].email == RankedUsers(a)[i]
            && r.users[i].requests == Requests(a, r.users[i].email))
  {
    NoticeIffNoUsers(a, lookback);
    UsersCounted(a);
    RankedUsersLength(a);
  }

  /** The ranking has one entry per user seen. */
  lemma RankedUsersLength(a: Activity)
    ensures |RankedUsers(a)| == |a.order|
  {
    SortDescPermutes(a.order, RequestsOf(a));
    assert |multiset(RankedUsers(a))| == |multiset(a.order)|;
  }

  /** The top list is the first five lines of the report (all of them when there are fewer). */
  lemma {:induction false} TopIsFirstFive(a: Activity, lookback: string)
    requires WellFormed(a) && a.order != []
    ensures var r := BuildReport(a, lookback);
      && r.Full?
      && |r.top| == (if |r.users| < 5 then |r.users| else 5)
      && (forall i | 0 <= i < |r.top| :: r.top[i] == TopUser(r.users[i].rank, r.users[i].email, r.users[i].requests))
  {
    ReportLines(a, lookback);
  }

  /** A well-formed result holds as many users as its first-seen list. */
  lemma UsersCounted(a: Activity)
    requires WellFormed(a)
    ensures |a.stats| == |a.order|
  {
    var keys := a.stats.Keys;
    assert keys == set e | e in a.order;
    DistinctCardinality(a.order);
  }

  lemma {:induction false} DistinctCardinality(s: seq<string>)
    requires forall i, j | 0 <= i < j < |s| :: s[i] != s[j]
    ensures |set e | e in s| == |s|
    decreases |s|
  {
    if s != [] {
      var init := s[..|s| - 1];
      DistinctCardinality(init);
      assert (set e | e in s) == (set e | e in init) + {s[|s| - 1]};
      assert s[|s| - 1] !in init;
    }
  }

  // ---------------------------------------------------------------------
  // The JSON document

  /** A counter as a JSON object from each name to its count. */
  function CounterJson(h: seq<string>): JsValues.Value {
    JsValues.Obj(map k | k in h :: JsValues.Num(Count(h, k)))
  }

  function UserJson(u: UserStats): JsValues.Value {
    JsValues.Obj(map[
      "requests" := JsValues.Num(u.requests),
      "providers" := CounterJson(u.providers),
      "methods" := CounterJson(u.methods),
      "total_duration_us" := JsValues.Num(u.totalDurationUs),
      "errors" := JsValues.Num(u.errors),
      "status_codes" := CounterJson(u.statusCodes)])
  }

  /** The document written with `--json`. */
  function JsonOutput(a: Activity, lookback: string): JsValues.Value {
    JsValues.Obj(map[
      "lookback" := JsValues.Str(lookback),
      "total_traces" := JsValues.Num(a.totalTraces),
      "unique_users" := JsValues.Num(|a.stats|),
      "users" := JsValues.Obj(map e | e in a.stats :: UserJson(a.stats[e]))])
  }

  lemma CounterJsonKeys(h: seq<string>)
    ensures CounterJson(h).Obj?
    ensures forall k :: k in CounterJson(h).fields <==> k in h
    ensures forall k | k in h :: CounterJson(h).fields[k] == JsValues.Num(Count(h, k))
  {
  }

  /** Two counters with the same JSON object have the same counts. */
  lemma CounterJsonFaithful(h1: seq<string>, h2: seq<string>)
    requires CounterJson(h1) == CounterJson(h2)
    ensures multiset(h1) == multiset(h2)
  {
    CounterJsonKeys(h1);
    CounterJsonKeys(h2);
    forall k ensures multiset(h1)[k] == multiset(h2)[k] {
      if k in h1 {
        assert CounterJson(h1).fields[k] == JsValues.Num(Count(h2, k));
      } else {
        assert k !in h2;
      }
    }
  }

  /** A user's JSON object gives back every figure, and each counter up to the order of its names. */
  lemma UserJsonFaithful(u: UserStats, v: UserStats)
    requires UserJson(u) == UserJson(v)
    ensures u.requests == v.requests && u.errors == v.errors && u.totalDurationUs == v.totalDurationUs
    ensures multiset(u.providers) == multiset(v.providers)
    ensures multiset(u.methods) == multiset(v.methods)
    ensures multiset(u.statusCodes) == multiset(v.statusCodes)
  {
    var fu, fv := UserJson(u).fields, UserJson(v).fields;
    assert fu["requests"] == fv["requests"];
    assert fu["errors"] == fv["errors"];
    assert fu["total_duration_us"] == fv["total_duration_us"];
    assert fu["providers"] == fv["providers"];
    assert fu["methods"] == fv["methods"];
    assert fu["status_codes"] == fv["status_codes"];
    CounterJsonFaithful(u.providers, v.providers);
    CounterJsonFaithful(u.methods, v.methods);
    CounterJsonFaithful(u.statusCodes, v.statusCodes);
  }

  /**
   * The JSON document loses only the order in which names were counted: two
   * results with the same document have the same users and, for each user,
   * the same figures and the same counts.
   */
  lemma JsonFaithful(a: Activity, b: Activity, lookback: string, e: string)
    requires JsonOutput(a, lookback) == JsonOutput(b, lookback)
    ensures a.totalTraces == b.totalTraces
    ensures e in a.stats <==> e in b.stats
    ensures e in a.stats ==>
      var u, v := a.stats[e], b.stats[e];
      && u.requests == v.requests && u.errors == v.errors && u.totalDurationUs == v.totalDurationUs
      && multiset(u.providers) == multiset(v.providers)
      && multiset(u.methods) == multiset(v.methods)
      && multiset(u.statusCodes) == multiset(v.statusCodes)
  {
    var ja, jb := JsonOutput(a, lookback).fields, JsonOutput(b, lookback).fields;
    assert ja["total_traces"] == jb["total_traces"];
    var ua, ub := ja["users"].fields, jb["users"].fields;
    assert ua == ub;
    assert e in a.stats <==> e in ua;
    assert e in b.stats <==> e in ub;
    if e in a.stats {
      assert ua[e] == UserJson(a.stats[e]);
      assert ub[e] == UserJson(b.stats[e]);
      UserJsonFaithful(a.stats[e], b.stats[e]);
    }
  }
}
