/** What the service counts about itself: requests and errors, event-loop lag, and query times.
    Durations are real numbers; rounding is not modelled. */
module Telemetry {
  import opened Validation

  // ---- requests ----------------------------------------------------------------------------

  const EXCLUDED_PREFIX := "/health/"
  const UNMATCHED_ROUTE := "unmatched"
  const UNKNOWN_CODE := "UNKNOWN"

  datatype Scope = Scope(kind: string, path: string, verb: string)

  datatype Sent = ResponseStart(status: int) | ResponseBody

  datatype Outcome = Returned | Raised | Cancelled

  /** One call of the inner application: what it sends, in order, how it ends, and what it leaves in
      the scope. A failed send is part of this too: whether the application catches it or not, it
      shows in the outcome. */
  datatype AppRun = AppRun(sends: seq<Sent>, outcome: Outcome, route: Option<string>, errorCode: Option<string>)

  /** One data point of each counter. */
  datatype RequestPoint = RequestPoint(verb: string, route: string, status: int)
  datatype ErrorPoint = ErrorPoint(verb: string, route: string, code: string)

  function Starts(sends: seq<Sent>): nat {
    if sends == [] then 0
    else Starts(sends[..|sends| - 1]) + if sends[|sends| - 1].ResponseStart? then 1 else 0
  }

  /** The status a client was told last, or 500 if it was told none. */
  function ToldStatus(sends: seq<Sent>): int {
    if sends == [] then 500
    else if sends[|sends| - 1].ResponseStart? then sends[|sends| - 1].status
    else ToldStatus(sends[..|sends| - 1])
  }

  predicate Counted(scope: Scope) {
    scope.kind == "http" && !(EXCLUDED_PREFIX <= scope.path)
  }

  /** A failure is a 500 whatever the client was told before. */
  function CountedStatus(run: AppRun): int {
    if run.outcome.Raised? then 500 else ToldStatus(run.sends)
  }

  function Point(scope: Scope, run: AppRun): RequestPoint {
    RequestPoint(scope.verb, if run.route.Some? then run.route.value else UNMATCHED_ROUTE, CountedStatus(run))
  }

  /** The k-th message is the last that starts a response. */
  predicate LastStart(sends: seq<Sent>, k: nat) {
    && k < |sends| && sends[k].ResponseStart?
    && forall i | k < i < |sends| :: !sends[i].ResponseStart?
  }

  /** The status a run is counted with: 500 if it raises or starts no response, and else that of the
      last response it starts. */
  predicate CountsWith(run: AppRun, status: int) {
    if run.outcome.Raised? || (forall k | 0 <= k < |run.sends| :: !run.sends[k].ResponseStart?) then status == 500
    else exists k | 0 <= k < |run.sends| :: LastStart(run.sends, k) && status == run.sends[k].status
  }

  lemma {:induction false} ToldByLastStart(sends: seq<Sent>)
    ensures if forall k | 0 <= k < |sends| :: !sends[k].ResponseStart? then ToldStatus(sends) == 500
            else exists k | 0 <= k < |sends| :: LastStart(sends, k) && ToldStatus(sends) == sends[k].status
  {
    if sends != [] {
      var n := |sends| - 1;
      if sends[n].ResponseStart? {
        assert LastStart(sends, n);
      } else {
        ToldByLastStart(sends[..n]);
        if k :| 0 <= k < n && LastStart(sends[..n], k) && ToldStatus(sends[..n]) == sends[..n][k].status {
          assert LastStart(sends, k);
        }
      }
    }
  }

  /** What one counted request adds: its verb, its route template or "unmatched", and that status.
      Requests under "/health/" and other traffic are not counted. */
  lemma PointTells(scope: Scope, run: AppRun)
    ensures Counted(scope) <==> scope.kind == "http" && !("/health/" <= scope.path)
    ensures CountsWith(run, CountedStatus(run))
    ensures var point := Point(scope, run);
            && point.verb == scope.verb && point.status == CountedStatus(run)
            && point.route == match run.route { case Some(route) => route case None => "unmatched" }
  {
    ToldByLastStart(run.sends);
  }

  /** Where the last start is, the status is the one it has. */
  lemma CountedWithLastStart(run: AppRun, k: nat)
    requires LastStart(run.sends, k)
    ensures CountedStatus(run) == if run.outcome.Raised? then 500 else run.sends[k].status
  {
    ToldByLastStart(run.sends);
  }

  lemma {:induction false} StartsCount(sends: seq<Sent>)
    ensures Starts(sends) == |set k | 0 <= k < |sends| && sends[k].ResponseStart?|
  {
    if sends != [] {
      var n := |sends| - 1;
      StartsCount(sends[..n]);
      var before := set k | 0 <= k < n && sends[..n][k].ResponseStart?;
      assert (set k | 0 <= k < |sends| && sends[k].ResponseStart?) ==
             before + if sends[n].ResponseStart? then {n} else {};
    }
  }

  function Failures(points: seq<RequestPoint>): nat {
    if points == [] then 0
    else Failures(points[..|points| - 1]) + if points[|points| - 1].status >= 400 then 1 else 0
  }

  class RequestMetricsMiddleware {
    var requests: seq<RequestPoint>
    var errors: seq<ErrorPoint>
    var durations: nat

    /** The error total is the number of requests whose status was 400 or more. */
    predicate Valid()
      reads this
    {
      |errors| == Failures(requests) && durations == |requests|
    }

    constructor ()
      ensures Valid() && requests == []
    {
      requests, errors, durations := [], [], 0;
    }

    /** `send_wrapper`, for each message the application sends. */
    static method Forward(sends: seq<Sent>) returns (sent: seq<Sent>, status: int, started: bool)
      ensures sent == sends && status == ToldStatus(sends) && (started <==> Starts(sends) > 0)
    {
      sent, status, started := [], 500, false;
      var k := 0;
      while k < |sends|
        invariant 0 <= k <= |sends| && sent == sends[..k]
        invariant status == ToldStatus(sent) && (started <==> Starts(sent) > 0)
      {
        assert sends[..k + 1][..k] == sends[..k];
        var message := sends[k];
        if message.ResponseStart? {
          status, started := message.status, true;
        }
        sent := sent + [message];
        k := k + 1;
      }
      assert sends[..k] == sends;
    }

    /** A counted request adds exactly one point, however it ends. If the application starts at most
        one response, at most one leaves; and when it fails before starting one, a 500 does. */
    method Call(scope: Scope, run: AppRun, errorSendFails: bool) returns (sent: seq<Sent>, escaped: bool)
      requires Valid()
      modifies this
      ensures Valid()
      ensures requests == if Counted(scope) then old(requests) + [Point(scope, run)] else old(requests)
      ensures Counted(scope) ==>
                var status := requests[|requests| - 1].status;
                CountsWith(run, status) && (|errors| == |old(errors)| + if status >= 400 then 1 else 0)
      ensures errors == if Counted(scope) && CountedStatus(run) >= 400
                        then old(errors) + [ErrorPoint(scope.verb, Point(scope, run).route,
                               if run.errorCode.Some? then run.errorCode.value else "UNKNOWN")]
                        else old(errors)
      ensures run.sends <= sent
      ensures Starts(run.sends) <= 1 ==> Starts(sent) <= 1
      ensures Counted(scope) && run.outcome.Raised? && Starts(run.sends) == 0 ==>
                sent == run.sends + [ResponseStart(500)] + (if errorSendFails then [] else [ResponseBody])
      ensures !Counted(scope) || !run.outcome.Raised? || Starts(run.sends) > 0 ==> sent == run.sends
      ensures escaped <==>
                || run.outcome.Cancelled?
                || (run.outcome.Raised? && (Counted(scope) ==> Starts(run.sends) == 0 && errorSendFails))
    {
      if scope.kind != "http" || EXCLUDED_PREFIX <= scope.path {
        return run.sends, !run.outcome.Returned?;
      }
      hide Starts, ToldStatus, CountsWith, Failures;
      var status, started;
      sent, status, started := Forward(run.sends);
      escaped := run.outcome.Cancelled?;
      if run.outcome.Raised? {
        status := 500;
        if !started {
          StartsOfAppended(sent, ResponseStart(500));
          sent := sent + [ResponseStart(500)];
          if errorSendFails {
            escaped := true;
          } else {
            StartsOfAppended(sent, ResponseBody);
            sent := sent + [ResponseBody];
          }
        }
      }
      Record(scope, run, status);
      PointTells(scope, run);
    }

    /** The `finally` block. */
    method Record(scope: Scope, run: AppRun, status: int)
      requires Valid() && status == CountedStatus(run)
      modifies this
      ensures Valid() && requests == old(requests) + [Point(scope, run)]
      ensures errors == if status >= 400
                        then old(errors) + [ErrorPoint(scope.verb, Point(scope, run).route,
                               if run.errorCode.Some? then run.errorCode.value else "UNKNOWN")]
                        else old(errors)
    {
      var route := if run.route.Some? then run.route.value else UNMATCHED_ROUTE;
      durations := durations + 1;
      requests := requests + [RequestPoint(scope.verb, route, status)];
      if status >= 400 {
        var code := if run.errorCode.Some? then run.errorCode.value else UNKNOWN_CODE;
        errors := errors + [ErrorPoint(scope.verb, route, code)];
      }
      assert requests[..|requests| - 1] == old(requests);
    }
  }

  lemma StartsOfAppended(sends: seq<Sent>, message: Sent)
    ensures Starts(sends + [message]) == Starts(sends) + if message.ResponseStart? then 1 else 0
  {
    assert (sends + [message])[..|sends|] == sends;
  }

  // ---- event-loop lag ----------------------------------------------------------------------

  const WINDOW := 3000

  function KeepLast(s: seq<real>): seq<real> {
    if |s| <= WINDOW then s else s[|s| - WINDOW..]
  }

  /** The last 3000 of all samples, or all of them. */
  lemma WindowIsLast(s: seq<real>)
    ensures |KeepLast(s)| == if |s| < 3000 then |s| else 3000
    ensures KeepLast(s) == s[|s| - |KeepLast(s)|..]
  {
  }

  function Insert(x: real, s: seq<real>): (r: seq<real>)
    ensures |r| == |s| + 1
  {
    if s == [] || x <= s[0] then [x] + s else [s[0]] + Insert(x, s[1..])
  }

  /** `sorted` */
  function Sorted(s: seq<real>): seq<real> {
    if s == [] then [] else Insert(s[0], Sorted(s[1..]))
  }

  predicate Ascending(s: seq<real>) {
    forall i, j | 0 <= i < j < |s| :: s[i] <= s[j]
  }

  lemma {:induction false} InsertIsPermutation(x: real, s: seq<real>)
    ensures multiset(Insert(x, s)) == multiset(s) + multiset{x}
  {
    if s != [] && x > s[0] {
      InsertIsPermutation(x, s[1..]);
      assert s == [s[0]] + s[1..];
    }
  }

  /** Everything inserted into comes no earlier than a lower bound of it. */
  lemma {:induction false} InsertAscends(x: real, s: seq<real>, low: real)
    requires Ascending(s) && low <= x && (s != [] ==> low <= s[0])
    ensures Ascending(Insert(x, s)) && low <= Insert(x, s)[0]
  {
    if s != [] && x > s[0] {
      InsertAscends(x, s[1..], s[0]);
    }
  }

  lemma {:induction false} SortedSorts(s: seq<real>)
    ensures Ascending(Sorted(s)) && multiset(Sorted(s)) == multiset(s) && |Sorted(s)| == |s|
  {
    if s != [] {
      SortedSorts(s[1..]);
      var rest := Sorted(s[1..]);
      InsertIsPermutation(s[0], rest);
      InsertAscends(s[0], rest, if rest != [] && rest[0] < s[0] then rest[0] else s[0]);
      assert s == [s[0]] + s[1..];
    }
    assert |multiset(Sorted(s))| == |Sorted(s)| && |multiset(s)| == |s|;
  }

  /** How many samples exceed a value, and how many are below it. */
  function Above(s: seq<real>, x: real): nat {
    if s == [] then 0 else Above(s[1..], x) + if s[0] > x then 1 else 0
  }

  function Below(s: seq<real>, x: real): nat {
    if s == [] then 0 else Below(s[1..], x) + if s[0] < x then 1 else 0
  }

  function P99(samples: seq<real>): real {
    if samples == [] then 0.0
    else
      SortedSorts(samples);
      Sorted(samples)[99 * (|samples| - 1) / 100]
  }

  lemma {:induction false} InsertCounts(y: real, s: seq<real>, x: real)
    ensures Above(Insert(y, s), x) == Above(s, x) + if y > x then 1 else 0
    ensures Below(Insert(y, s), x) == Below(s, x) + if y < x then 1 else 0
  {
    if s == [] || y <= s[0] {
      assert ([y] + s)[1..] == s;
    } else {
      InsertCounts(y, s[1..], x);
      assert ([s[0]] + Insert(y, s[1..]))[1..] == Insert(y, s[1..]);
    }
  }

  lemma {:induction false} SortedCounts(s: seq<real>, x: real)
    ensures Above(Sorted(s), x) == Above(s, x) && Below(Sorted(s), x) == Below(s, x)
  {
    if s != [] {
      SortedCounts(s[1..], x);
      InsertCounts(s[0], Sorted(s[1..]), x);
    }
  }

  /** In an ascending sequence at most the elements behind a place exceed the one there, and at most
      those in front are below it. */
  lemma {:induction false} PlaceCounts(s: seq<real>, i: int, x: real)
    requires Ascending(s) && i < |s|
    requires i >= 0 ==> s[i] == x
    requires i < 0 ==> forall k | 0 <= k < |s| :: x <= s[k]
    ensures Above(s, x) <= if i >= 0 then |s| - 1 - i else |s|
    ensures Below(s, x) <= if i >= 0 then i else 0
  {
    if s != [] {
      PlaceCounts(s[1..], if i >= 0 then i - 1 else i, x);
    }
  }

  /** Of m kept samples at most ceil((m - 1) / 100) exceed the 99th percentile, which is one of
      them, and at most 99 in 100 of the others are below it. */
  lemma P99IsOrderStatistic(samples: seq<real>)
    requires samples != []
    ensures P99(samples) in samples
    ensures Above(samples, P99(samples)) <= (|samples| - 1 + 99) / 100
    ensures Below(samples, P99(samples)) <= 99 * (|samples| - 1) / 100
  {
    SortedSorts(samples);
    var i := 99 * (|samples| - 1) / 100;
    var x := Sorted(samples)[i];
    assert x in multiset(Sorted(samples));
    SortedCounts(samples, x);
    PlaceCounts(Sorted(samples), i, x);
  }

  class LoopLagMonitor {
    var samples: seq<real>
    ghost var appended: seq<real>

    /** The window is the last 3000 of all samples so far, or all of them. */
    ghost predicate Valid()
      reads this
    {
      samples == KeepLast(appended) && forall i | 0 <= i < |samples| :: samples[i] >= 0.0
    }

    constructor ()
      ensures Valid() && appended == []
    {
      samples, appended := [], [];
    }

    /** One turn of the sampling loop: how long a 20 ms sleep took, in seconds. */
    method Sample(slept: real)
      requires Valid()
      modifies this
      ensures Valid()
      ensures appended == old(appended) + [if slept > 0.02 then (slept - 0.02) * 1000.0 else 0.0]
    {
      var lag := (slept - 0.02) * 1000.0;
      if lag < 0.0 {
        lag := 0.0;
      }
      appended := appended + [lag];
      samples := if |samples| == WINDOW then samples[1..] + [lag] else samples + [lag];
    }

    /** Nothing kept yet reads as no lag; otherwise no more than 30 kept samples exceed the value. */
    method Read() returns (p99: real)
      requires Valid()
      ensures p99 == P99(KeepLast(appended)) && p99 >= 0.0
      ensures appended != [] ==> p99 in KeepLast(appended) && Above(KeepLast(appended), p99) <= 30
    {
      p99 := P99(samples);
      if samples != [] {
        P99IsOrderStatistic(samples);
      }
    }
  }

  // ---- query times -------------------------------------------------------------------------

  datatype Held = Held(totalMs: real, count: nat)

  function Average(h: Held): real {
    if h.count > 0 then h.totalMs / h.count as real else 0.0
  }

  class QueryStats {
    var totalMs: real
    var count: nat

    function Now(): Held
      reads this
    {
      Held(totalMs, count)
    }

    constructor ()
      ensures Now() == Held(0.0, 0)
    {
      totalMs, count := 0.0, 0;
    }

    method Add(ms: real)
      modifies this
      ensures Now() == After(old(Now()), Query(ms))
    {
      totalMs := totalMs + ms;
      count := count + 1;
    }

    method TakeAverage() returns (avg: real)
      modifies this
      ensures avg == Average(old(Now())) && Now() == After(old(Now()), Collection)
    {
      avg := if count > 0 then totalMs / count as real else 0.0;
      totalMs, count := 0.0, 0;
    }
  }

  datatype Event = Query(ms: real) | Collection

  function After(h: Held, e: Event): Held {
    match e
    case Query(ms) => Held(h.totalMs + ms, h.count + 1)
    case Collection => Held(0.0, 0)
  }

  function HeldAfter(events: seq<Event>): Held {
    if events == [] then Held(0.0, 0)
    else After(HeldAfter(events[..|events| - 1]), events[|events| - 1])
  }

  /** What the collections have reported: each average times the number of queries behind it. */
  function Reported(events: seq<Event>): real {
    if events == [] then 0.0
    else
      var before := events[..|events| - 1];
      Reported(before) +
      if events[|events| - 1].Collection? then Average(HeldAfter(before)) * HeldAfter(before).count as real else 0.0
  }

  function AddedUp(events: seq<Event>): real {
    if events == [] then 0.0
    else
      AddedUp(events[..|events| - 1]) +
      if events[|events| - 1].Query? then events[|events| - 1].ms else 0.0
  }

  /** No query is lost or reported twice: what has been reported and what is still held add up to
      everything added. */
  lemma {:induction false} NothingIsLost(events: seq<Event>)
    ensures Reported(events) + HeldAfter(events).totalMs == AddedUp(events)
    ensures HeldAfter(events).count == 0 ==> HeldAfter(events).totalMs == 0.0
  {
    if events != [] {
      var before := events[..|events| - 1];
      NothingIsLost(before);
      var h := HeldAfter(before);
      if h.count > 0 {
        assert h.totalMs / h.count as real * h.count as real == h.totalMs;
      }
    }
  }

  /** What is held is the sum and the number of the queries since the last collection, and what the
      next collection reports is their average, or zero if there are none. */
  lemma {:induction false} HeldSince(events: seq<Event>, k: nat)
    requires k <= |events| && (k > 0 ==> events[k - 1].Collection?)
    requires forall i | k <= i < |events| :: events[i].Query?
    ensures HeldAfter(events) == Held(AddedUp(events[k..]), |events| - k)
    ensures Average(HeldAfter(events)) ==
            if |events| == k then 0.0 else AddedUp(events[k..]) / (|events| - k) as real
    decreases |events|
  {
    if |events| > k {
      var n := |events| - 1;
      HeldSince(events[..n], k);
      assert events[k..][..n - k] == events[..n][k..];
    }
  }
}
