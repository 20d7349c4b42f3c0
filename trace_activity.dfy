/**
 * Per-user activity gathered from the gateway's traces
 * (scripts/analyze-user-activity.py, `parse_traces`).
 *
 * Every span that carries a non-empty user e-mail tag counts one request for
 * that user, adds its duration, and tallies its provider (the route name up
 * to the first '-'), HTTP method and status code; a status of 400 or more is
 * an error. A status that is not an integer literal aborts the whole run.
 */
module TraceActivity {
  import opened Wrappers
  import opened Text

  const EmailKey := "http.header.x-user-email"
  const RouteKey := "route.name"
  const MethodKey := "http.method"
  const StatusKey := "http.status"

  /** A span tag; a tag without a key has the empty key, which matches none of the keys above. */
  datatype Tag = Tag(key: string, value: string)
  /** A span; `duration` is absent when the span has none (it then counts as 0). */
  datatype Span = Span(tags: seq<Tag>, duration: Option<int>)
  datatype Trace = Trace(spans: seq<Span>)
  /** One element of the list the trace store returns. */
  datatype Item = Item(traces: seq<Trace>)

  /** The values a span's tags give, `None` where no tag has the key. */
  datatype SpanFields = SpanFields(email: Option<string>, route: Option<string>,
                                   httpMethod: Option<string>, status: Option<string>)

  /**
   * One user's figures. Each of the three counters is kept as the names it
   * was given, in order: a name's count is how often it occurs, and the
   * counter's keys are its distinct names in order of first appearance.
   */
  datatype UserStats = UserStats(requests: nat, providers: seq<string>, methods: seq<string>,
                                 totalDurationUs: int, errors: nat, statusCodes: seq<string>)

  /** The per-user figures, the users in the order they were first seen, and the trace count. */
  datatype Activity = Activity(stats: map<string, UserStats>, order: seq<string>, totalTraces: nat)

  /** Why a run aborts: `int()` of a status value that is not an integer literal. */
  datatype Crash = BadStatus(status: string)

  const NoActivity := Activity(map[], [], 0)
  const NewUser := UserStats(0, [], [], 0, 0, [])

  // ---------------------------------------------------------------------
  // Reading one span

  /** The value of the last tag with `key`: a later tag overrides an earlier one. */
  function LastValue(tags: seq<Tag>, key: string): Option<string>
    decreases |tags|
  {
    if tags == [] then None
    else if tags[|tags| - 1].key == key then Some(tags[|tags| - 1].value)
    else LastValue(tags[..|tags| - 1], key)
  }

  lemma {:induction false} LastValueIsLast(tags: seq<Tag>, key: string, v: string)
    ensures LastValue(tags, key) == Some(v) <==>
      exists i | 0 <= i < |tags| :: tags[i] == Tag(key, v) && forall j | i < j < |tags| :: tags[j].key != key
    decreases |tags|
  {
    if tags != [] {
      var init := tags[..|tags| - 1];
      LastValueIsLast(init, key, v);
      assert forall j | 0 <= j < |init| :: init[j] == tags[j];
      if tags[|tags| - 1].key == key {
        if exists i | 0 <= i < |tags| :: tags[i] == Tag(key, v) && forall j | i < j < |tags| :: tags[j].key != key {
          var i :| 0 <= i < |tags| && tags[i] == Tag(key, v) && forall j | i < j < |tags| :: tags[j].key != key;
          assert i == |tags| - 1;
        }
      } else {
        assert (exists i | 0 <= i < |tags| :: tags[i] == Tag(key, v) && forall j | i < j < |tags| :: tags[j].key != key)
           ==> (exists i | 0 <= i < |init| :: init[i] == Tag(key, v) && forall j | i < j < |init| :: init[j].key != key);
      }
    }
  }

  lemma {:induction false} LastValueAbsent(tags: seq<Tag>, key: string)
    ensures LastValue(tags, key) == None <==> forall i | 0 <= i < |tags| :: tags[i].key != key
    decreases |tags|
  {
    if tags != [] {
      var init := tags[..|tags| - 1];
      LastValueAbsent(init, key);
      assert forall i | 0 <= i < |init| :: init[i] == tags[i];
    }
  }

  /** What the tag loop of one span leaves in its four variables. */
  function Fields(tags: seq<Tag>): SpanFields {
    SpanFields(LastValue(tags, EmailKey), LastValue(tags, RouteKey),
               LastValue(tags, MethodKey), LastValue(tags, StatusKey))
  }

  /** The tag loop of one span: each tag overwrites the variable its key names. */
  method ScanTags(tags: seq<Tag>) returns (f: SpanFields)
    ensures f == Fields(tags)
  {
    var email, route, method_, status: Option<string> := None, None, None, None;
    var i := 0;
    while i < |tags|
      invariant 0 <= i <= |tags|
      invariant email == LastValue(tags[..i], EmailKey)
      invariant route == LastValue(tags[..i], RouteKey)
      invariant method_ == LastValue(tags[..i], MethodKey)
      invariant status == LastValue(tags[..i], StatusKey)
    {
      assert tags[..i + 1][..i] == tags[..i];
      var key, value := tags[i].key, tags[i].value;
      if key == EmailKey {
        email := Some(value);
      } else if key == RouteKey {
        route := Some(value);
      } else if key == MethodKey {
        method_ := Some(value);
      } else if key == StatusKey {
        status := Some(value);
      }
      i := i + 1;
    }
    assert tags[..i] == tags;
    f := SpanFields(email, route, method_, status);
  }

  /** The provider a route name designates: the part before the first '-', or the whole name. */
  function ProviderOf(route: string): (p: string)
    ensures StartsWith(route, p) && '-' !in p
    ensures |p| == |route| || route[|p|] == '-'
  {
    SplitFirst(route, '-');
    if '-' in route then Split(route, '-')[0] else route
  }

  /** The position of the first '-' in a route name, or its length when there is none. */
  function FirstDash(route: string): nat
    decreases |route|
  {
    if route == [] || route[0] == '-' then 0 else 1 + FirstDash(route[1..])
  }

  lemma {:induction false} PrefixBeforeDash(route: string, p: string)
    requires StartsWith(route, p) && '-' !in p
    requires |p| == |route| || route[|p|] == '-'
    ensures |p| == FirstDash(route)
    decreases |p|
  {
    if |p| > 0 {
      assert route[0] == p[0];
      assert route[1..][..|p| - 1] == p[1..];
      PrefixBeforeDash(route[1..], p[1..]);
    }
  }

  /** The provider is determined by the two properties above: no other prefix has them. */
  lemma ProviderOfUnique(route: string, p: string)
    requires StartsWith(route, p) && '-' !in p
    requires |p| == |route| || route[|p|] == '-'
    ensures ProviderOf(route) == p
  {
    var q := ProviderOf(route);
    PrefixBeforeDash(route, p);
    PrefixBeforeDash(route, q);
    assert q == route[..|q|] == p;
  }

  /** "anthropic-claude" designates "anthropic". */
  lemma ProviderOfDashedRoute()
    ensures ProviderOf("anthropic-claude") == "anthropic"
  {
    var route, p := "anthropic-claude", "anthropic";
    assert route == p + "-claude";
    assert route[..|p|] == p && route[|p|] == '-';
    assert '-' !in p;
    ProviderOfUnique(route, p);
  }

  /** "gemini" designates itself. */
  lemma ProviderOfPlainRoute()
    ensures ProviderOf("gemini") == "gemini"
  {
    var route := "gemini";
    assert route[..|route|] == route;
    assert '-' !in route;
    ProviderOfUnique(route, route);
  }

  /** Python truthiness of an optional string: present and non-empty. */
  predicate Present(o: Option<string>) {
    o.Some? && o.value != ""
  }

  /** One more occurrence of `o` when it is present, nothing otherwise. */
  function Once(o: Option<string>): (m: seq<string>)
    ensures |m| <= 1
  {
    if Present(o) then [o.value] else []
  }

  function ProviderField(f: SpanFields): Option<string> {
    match f.route
    case None => None
    case Some(route) => Some(ProviderOf(route))
  }

  function DurationOf(span: Span): int {
    match span.duration
    case None => 0
    case Some(d) => d
  }

  /** The counters one span bumps before its status is looked at. */
  function Counted(u: UserStats, f: SpanFields, duration: int): UserStats {
    u.(requests := u.requests + 1,
       totalDurationUs := u.totalDurationUs + duration,
       providers := u.providers + Once(ProviderField(f)),
       methods := u.methods + Once(f.httpMethod))
  }

  /** The update one span with a user applies to that user's figures. */
  function Tally(u: UserStats, f: SpanFields, duration: int): Result<UserStats, Crash> {
    var counted := Counted(u, f, duration);
    if !Present(f.status) then Success(counted)
    else
      match ParseInt(f.status.value)
      case None => Failure(BadStatus(f.status.value))
      case Some(code) =>
        Success(counted.(statusCodes := counted.statusCodes + [f.status.value],
                         errors := if code >= 400 then counted.errors + 1 else counted.errors))
  }

  /** The request, duration, provider and method updates for one span of a user. */
  method CountSpan(u: UserStats, f: SpanFields, duration: int) returns (v: UserStats)
    ensures v == Counted(u, f, duration)
  {
    v := u.(requests := u.requests + 1);
    v := v.(totalDurationUs := v.totalDurationUs + duration);
    var provider := ProviderField(f);
    if Present(provider) {
      v := v.(providers := v.providers + [provider.value]);
    }
    if Present(f.httpMethod) {
      v := v.(methods := v.methods + [f.httpMethod.value]);
    }
  }

  /** The counter updates for one span of a user, in the order the source applies them. */
  method TallySpan(u: UserStats, f: SpanFields, duration: int) returns (r: Result<UserStats, Crash>)
    ensures r == Tally(u, f, duration)
  {
    var v := CountSpan(u, f, duration);
    if Present(f.status) {
      v := v.(statusCodes := v.statusCodes + [f.status.value]);
      var code := ParseInt(f.status.value);
      if code.None? {
        return Failure(BadStatus(f.status.value));
      }
      if code.value >= 400 {
        v := v.(errors := v.errors + 1);
      }
    }
    r := Success(v);
  }

  // ---------------------------------------------------------------------
  // The whole run

  /** The effect of one span on the figures. */
  function IngestSpan(a: Activity, span: Span): Result<Activity, Crash> {
    var f := Fields(span.tags);
    if !Present(f.email) then Success(a)
    else
      var email := f.email.value;
      var u := if email in a.stats then a.stats[email] else NewUser;
      match Tally(u, f, DurationOf(span))
      case Failure(c) => Failure(c)
      case Success(v) =>
        Success(a.(stats := a.stats[email := v],
                   order := if email in a.stats then a.order else a.order + [email]))
  }

  function IngestSpans(a: Activity, spans: seq<Span>): Result<Activity, Crash>
    decreases |spans|
  {
    if spans == [] then Success(a)
    else
      match IngestSpan(a, spans[0])
      case Failure(c) => Failure(c)
      case Success(b) => IngestSpans(b, spans[1..])
  }

  /** Each trace is counted before its spans are read. */
  function IngestTraces(a: Activity, traces: seq<Trace>): Result<Activity, Crash>
    decreases |traces|
  {
    if traces == [] then Success(a)
    else
      match IngestSpans(a.(totalTraces := a.totalTraces + 1), traces[0].spans)
      case Failure(c) => Failure(c)
      case Success(b) => IngestTraces(b, traces[1..])
  }

  function IngestItems(a: Activity, items: seq<Item>): Result<Activity, Crash>
    decreases |items|
  {
    if items == [] then Success(a)
    else
      match IngestTraces(a, items[0].traces)
      case Failure(c) => Failure(c)
      case Success(b) => IngestItems(b, items[1..])
  }

  /** `parse_traces`: walks every item, trace, span and tag once, in order. */
  method ParseTraces(data: seq<Item>) returns (r: Result<Activity, Crash>)
    ensures r == IngestItems(NoActivity, data)
  {
    var stats: map<string, UserStats> := map[];
    var order: seq<string> := [];
    var totalTraces: nat := 0;
    var i := 0;
    while i < |data|
      invariant 0 <= i <= |data|
      invariant IngestItems(NoActivity, data) == IngestItems(Activity(stats, order, totalTraces), data[i..])
    {
      assert data[i..][0] == data[i] && data[i..][1..] == data[i + 1..];
      var traces := data[i].traces;
      ghost var atItem := Activity(stats, order, totalTraces);
      var j := 0;
      while j < |traces|
        invariant 0 <= j <= |traces|
        invariant IngestTraces(atItem, traces) == IngestTraces(Activity(stats, order, totalTraces), traces[j..])
        invariant IngestItems(NoActivity, data) == IngestItems(atItem, data[i..])
      {
        assert traces[j..][0] == traces[j] && traces[j..][1..] == traces[j + 1..];
        ghost var atTrace := Activity(stats, order, totalTraces);
        totalTraces := totalTraces + 1;
        var spans := traces[j].spans;
        ghost var inTrace := Activity(stats, order, totalTraces);
        var k := 0;
        while k < |spans|
          invariant 0 <= k <= |spans|
          invariant inTrace == atTrace.(totalTraces := atTrace.totalTraces + 1)
          invariant totalTraces == inTrace.totalTraces
          invariant IngestSpans(inTrace, spans) == IngestSpans(Activity(stats, order, totalTraces), spans[k..])
          invariant IngestTraces(atItem, traces) == IngestTraces(atTrace, traces[j..])
          invariant IngestItems(NoActivity, data) == IngestItems(atItem, data[i..])
        {
          assert spans[k..][0] == spans[k] && spans[k..][1..] == spans[k + 1..];
          ghost var current := Activity(stats, order, totalTraces);
          var f := ScanTags(spans[k].tags);
          if Present(f.email) {
            var email := f.email.value;
            var u := if email in stats then stats[email] else NewUser;
            var tallied := TallySpan(u, f, DurationOf(spans[k]));
            if tallied.Failure? {
              r := Failure(tallied.error);
              assert IngestSpan(current, spans[k]) == r;
              return;
            }
            u := tallied.value;
            if email !in stats {
              order := order + [email];
            }
            stats := stats[email := u];
            assert IngestSpan(current, spans[k]) == Success(Activity(stats, order, totalTraces));
          }
          k := k + 1;
        }
        j := j + 1;
      }
      i := i + 1;
    }
    r := Success(Activity(stats, order, totalTraces));
  }

  // ---------------------------------------------------------------------
  // What the run computes

  /** The figures a user may have: every counter is bounded by the request count. */
  predicate UserOk(u: UserStats) {
    && u.requests >= 1
    && u.errors <= |u.statusCodes| <= u.requests
    && |u.providers| <= u.requests
    && |u.methods| <= u.requests
  }

  /** Users are non-empty addresses, listed once each in first-seen order, and their figures are consistent. */
  ghost predicate WellFormed(a: Activity) {
    && (forall i, j | 0 <= i < j < |a.order| :: a.order[i] != a.order[j])
    && (forall e :: e in a.stats <==> e in a.order)
    && (forall e | e in a.stats :: e != "" && UserOk(a.stats[e]))
  }

  /** How many requests the figures attribute to `email`. */
  function Requests(a: Activity, email: string): nat {
    if email in a.stats then a.stats[email].requests else 0
  }

  /** Whether a span is attributed to the user `email`. */
  predicate SpanOf(span: Span, email: string) {
    var f := Fields(span.tags);
    Present(f.email) && f.email.value == email
  }

  function CountSpans(spans: seq<Span>, email: string): nat
    decreases |spans|
  {
    if spans == [] then 0 else (if SpanOf(spans[0], email) then 1 else 0) + CountSpans(spans[1..], email)
  }

  function CountInTraces(traces: seq<Trace>, email: string): nat
    decreases |traces|
  {
    if traces == [] then 0 else CountSpans(traces[0].spans, email) + CountInTraces(traces[1..], email)
  }

  function CountInItems(items: seq<Item>, email: string): nat
    decreases |items|
  {
    if items == [] then 0 else CountInTraces(items[0].traces, email) + CountInItems(items[1..], email)
  }

  function TraceCount(items: seq<Item>): nat
    decreases |items|
  {
    if items == [] then 0 else |items[0].traces| + TraceCount(items[1..])
  }

  /** A span's update keeps every counter within its bounds. */
  lemma TallyKeepsBounds(u: UserStats, f: SpanFields, duration: int)
    requires u == NewUser || UserOk(u)
    ensures Tally(u, f, duration).Success? ==> UserOk(Tally(u, f, duration).value)
  {
  }

  /**
   * A status written as the decimal numeral of `code` never aborts the run,
   * is tallied, and counts as an error exactly when `code` is at least 400.
   */
  lemma {:induction false} StatusCountsError(u: UserStats, f: SpanFields, duration: int, code: nat)
    requires f.status == Some(NatToString(code))
    ensures Tally(u, f, duration).Success?
    ensures Tally(u, f, duration).value.errors == if code >= 400 then u.errors + 1 else u.errors
    ensures Tally(u, f, duration).value.statusCodes == u.statusCodes + [NatToString(code)]
  {
    ParseNatural(code);
  }

  /** A span without a non-empty user e-mail leaves the figures as they are. */
  lemma SpanWithoutUser(a: Activity, span: Span)
    requires !Present(Fields(span.tags).email)
    ensures IngestSpan(a, span) == Success(a)
  {
  }

  /** One span with a user adds one request to that user and to nobody else. */
  lemma {:induction false} IngestSpanRequests(a: Activity, span: Span, b: Activity, email: string)
    requires IngestSpan(a, span) == Success(b)
    ensures Requests(b, email) == Requests(a, email) + (if SpanOf(span, email) then 1 else 0)
    ensures b.totalTraces == a.totalTraces
  {
  }

  /**
   * A span with a user adds one request and the span's duration (0 when it
   * has none) to that user, creating the user with zero figures if new, and
   * leaves every other user as it was.
   */
  lemma IngestSpanRecords(a: Activity, span: Span, b: Activity, other: string)
    requires IngestSpan(a, span) == Success(b)
    requires Present(Fields(span.tags).email)
    ensures var email := Fields(span.tags).email.value;
      var before := if email in a.stats then a.stats[email] else NewUser;
      && email in b.stats
      && b.stats[email].requests == before.requests + 1
      && b.stats[email].totalDurationUs == before.totalDurationUs + DurationOf(span)
      && b.stats[email].errors <= before.errors + 1
      && (other != email ==> (other in b.stats <==> other in a.stats))
      && (other != email && other in a.stats ==> b.stats[other] == a.stats[other])
  {
  }

  lemma {:induction false} IngestSpanWellFormed(a: Activity, span: Span, b: Activity)
    requires WellFormed(a) && IngestSpan(a, span) == Success(b)
    ensures WellFormed(b)
  {
    var f := Fields(span.tags);
    if Present(f.email) {
      var email := f.email.value;
      var u := if email in a.stats then a.stats[email] else NewUser;
      TallyKeepsBounds(u, f, DurationOf(span));
      if email !in a.stats {
        assert email !in a.order;
        forall i, j | 0 <= i < j < |b.order| ensures b.order[i] != b.order[j] {
          if j == |a.order| {
            assert b.order[j] == email && b.order[i] == a.order[i];
          } else {
            assert b.order[i] == a.order[i] && b.order[j] == a.order[j];
          }
        }
      }
    }
  }

  lemma {:induction false} IngestSpansFacts(a: Activity, spans: seq<Span>, b: Activity, email: string)
    requires IngestSpans(a, spans) == Success(b)
    ensures Requests(b, email) == Requests(a, email) + CountSpans(spans, email)
    ensures b.totalTraces == a.totalTraces
    ensures WellFormed(a) ==> WellFormed(b)
    decreases |spans|
  {
    if spans != [] {
      var mid := IngestSpan(a, spans[0]).value;
      IngestSpanRequests(a, spans[0], mid, email);
      if WellFormed(a) {
        IngestSpanWellFormed(a, spans[0], mid);
      }
      IngestSpansFacts(mid, spans[1..], b, email);
    }
  }

  lemma {:induction false} IngestTracesFacts(a: Activity, traces: seq<Trace>, b: Activity, email: string)
    requires IngestTraces(a, traces) == Success(b)
    ensures Requests(b, email) == Requests(a, email) + CountInTraces(traces, email)
    ensures b.totalTraces == a.totalTraces + |traces|
    ensures WellFormed(a) ==> WellFormed(b)
    decreases |traces|
  {
    if traces != [] {
      var counted := a.(totalTraces := a.totalTraces + 1);
      var mid := IngestSpans(counted, traces[0].spans).value;
      IngestSpansFacts(counted, traces[0].spans, mid, email);
      IngestTracesFacts(mid, traces[1..], b, email);
    }
  }

  lemma {:induction false} IngestItemsFacts(a: Activity, items: seq<Item>, b: Activity, email: string)
    requires IngestItems(a, items) == Success(b)
    ensures Requests(b, email) == Requests(a, email) + CountInItems(items, email)
    ensures b.totalTraces == a.totalTraces + TraceCount(items)
    ensures WellFormed(a) ==> WellFormed(b)
    decreases |items|
  {
    if items != [] {
      var mid := IngestTraces(a, items[0].traces).value;
      IngestTracesFacts(a, items[0].traces, mid, email);
      IngestItemsFacts(mid, items[1..], b, email);
    }
  }

  /**
   * A run that completes counts every trace, gives each user exactly as many
   * requests as there are spans carrying that user's e-mail, and leaves
   * well-formed figures.
   */
  lemma ParseTracesOutcome(data: seq<Item>, email: string)
    requires IngestItems(NoActivity, data).Success?
    ensures var a := IngestItems(NoActivity, data).value;
      && a.totalTraces == TraceCount(data)
      && Requests(a, email) == CountInItems(data, email)
      && WellFormed(a)
  {
    IngestItemsFacts(NoActivity, data, IngestItems(NoActivity, data).value, email);
  }

  /** A user appears in the figures exactly when some span carries that user's e-mail. */
  lemma UserListed(data: seq<Item>, email: string)
    requires IngestItems(NoActivity, data).Success?
    ensures email in IngestItems(NoActivity, data).value.stats <==> CountInItems(data, email) > 0
  {
    var a := IngestItems(NoActivity, data).value;
    ParseTracesOutcome(data, email);
    if email in a.stats {
      assert UserOk(a.stats[email]);
    }
  }
}
