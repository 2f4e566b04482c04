/** The `GatusHealthMonitor` class of tests/conftest.py: a client of a Gatus
    dashboard that checks its `/health` endpoint with a bounded number of
    attempts and reads the endpoint statuses once.

    `requests.get` is not part of this model: what the request of attempt `i`
    returns is an oracle, `replies(i)`. The log records, per attempt, the
    request made (URL and credentials) and whether a sleep followed it. */
module Gatus {
  import opened Base
  import opened Retry

  /** A monitor as `__init__` leaves it. Its fields are never changed
      afterwards. */
  datatype Monitor = Monitor(baseUrl: string, username: Option<string>, password: Option<string>)

  /** `s.rstrip(c)`: the longest prefix of `s` that does not end with `c`. */
  function RStrip(s: string, c: char): (t: string)
    ensures t <= s
    ensures t == [] || t[|t| - 1] != c
    ensures forall i :: |t| <= i < |s| ==> s[i] == c
    decreases |s|
  {
    if s != [] && s[|s| - 1] == c then RStrip(s[..|s| - 1], c) else s
  }

  /** Trailing copies of `c` do not change the result. */
  lemma {:induction false} RStripAppend(s: string, c: char, n: nat)
    ensures RStrip(s + seq(n, _ => c), c) == RStrip(s, c)
    decreases n
  {
    if n > 0 {
      var t := s + seq(n, _ => c);
      assert t[..|t| - 1] == s + seq(n - 1, _ => c);
      RStripAppend(s, c, n - 1);
    } else {
      assert s + seq(n, _ => c) == s;
    }
  }

  /** `GatusHealthMonitor(base_url, username, password)`: the base URL is
      kept without its trailing slashes, the credentials as given. */
  function NewMonitor(baseUrl: string, username: Option<string>, password: Option<string>): (m: Monitor)
    ensures m.baseUrl <= baseUrl && (m.baseUrl == [] || m.baseUrl[|m.baseUrl| - 1] != '/')
    ensures forall i :: |m.baseUrl| <= i < |baseUrl| ==> baseUrl[i] == '/'
    ensures m.username == username && m.password == password
  {
    Monitor(RStrip(baseUrl, '/'), username, password)
  }

  /** `auth = (username, password) if username and password else None`. */
  function Auth(m: Monitor): (auth: Option<(string, string)>)
    ensures auth.Some? <==> Truthy(m.username) && Truthy(m.password)
    ensures auth.Some? ==> auth.value == (m.username.value, m.password.value)
  {
    if Truthy(m.username) && Truthy(m.password) then Some((m.username.value, m.password.value)) else None
  }

  /** `urljoin(base_url + "/", path)` for an http(s) base URL with no query,
      fragment, dot segments or empty path segments: the path under the base
      URL. */
  function Endpoint(m: Monitor, path: string): string {
    m.baseUrl + "/" + path
  }

  const HealthPath: string := "health"
  const StatusPath: string := "api/v1/endpoints/statuses"

  /** Monitors built from base URLs that differ only in trailing slashes
      query the same URLs. */
  lemma TrailingSlashesIgnored(baseUrl: string, n: nat, username: Option<string>, password: Option<string>, path: string)
    ensures Endpoint(NewMonitor(baseUrl + seq(n, _ => '/'), username, password), path)
            == Endpoint(NewMonitor(baseUrl, username, password), path)
  {
    RStripAppend(baseUrl, '/', n);
  }

  /** The health URL a monitor queries has exactly one slash before
      `health`, whatever the base URL ended with. */
  lemma HealthUrlShape(baseUrl: string, username: Option<string>, password: Option<string>)
    ensures var m := NewMonitor(baseUrl, username, password);
            var url := Endpoint(m, HealthPath);
            && url[..|m.baseUrl|] <= baseUrl
            && url[|m.baseUrl|..] == "/health"
            && (|m.baseUrl| == 0 || url[|m.baseUrl| - 1] != '/')
  {
  }

  /** What one `requests.get` does. */
  datatype Body = Decoded(value: Json) | NotJson(error: string)
  datatype Reply =
    | Response(status: int, text: string, body: Body)
    | RequestFailed(error: string)

  /** The request an attempt makes. */
  datatype Request = Get(url: string, auth: Option<(string, string)>)

  type HttpLog = seq<Attempt<Request>>

  predicate Healthy(reply: Reply) {
    reply.Response? && reply.status == 200
  }

  function HealthSuccesses(replies: nat -> Reply): nat -> bool {
    (i: nat) => Healthy(replies(i))
  }

  /** `last_error` after a failed attempt. */
  function ReplyError(reply: Reply): string {
    match reply
    case Response(status, text, _) => "HTTP " + IntToString(status) + ": " + text
    case RequestFailed(e) => e
  }

  function LastReplyError(replies: nat -> Reply, maxRetries: int): string {
    if maxRetries <= 0 then "" else ReplyError(replies(maxRetries - 1))
  }

  /** Attempt `i` of `check_health` sleeps unless it is the last or it
      succeeds. */
  function HealthSleeps(replies: nat -> Reply, maxRetries: int): nat -> bool {
    (i: nat) => i < maxRetries - 1 && !Healthy(replies(i))
  }

  /** The keyword arguments of `check_health`. */
  datatype HealthPolicy = HealthPolicy(maxRetries: int, retryDelay: int, timeout: int)

  const DefaultHealthPolicy: HealthPolicy := HealthPolicy(5, 10, 30)

  /** One pass of `check_health`'s loop body and the sleep that follows it
      unless it returns or is the last. */
  method HealthTry(request: Request, reply: Reply, isLast: bool)
    returns (entry: Attempt<Request>, succeeded: bool, message: string)
    ensures entry.actions == [request]
    ensures succeeded == Healthy(reply)
    ensures entry.slept <==> !isLast && !succeeded
    ensures message == if succeeded then "Gatus healthy: " + reply.text else ReplyError(reply)
  {
    match reply {
      case Response(status, text, _) =>
        succeeded := status == 200;
        message := if succeeded then "Gatus healthy: " + text else "HTTP " + IntToString(status) + ": " + text;
      case RequestFailed(e) =>
        // except requests.exceptions.RequestException
        succeeded, message := false, e;
    }
    entry := Attempt([request], !isLast && !succeeded);
  }

  /** Every attempt requested the health URL with the monitor's credentials. */
  predicate HealthRequests(log: HttpLog, m: Monitor) {
    forall i :: 0 <= i < |log| ==> log[i].actions == [Get(Endpoint(m, HealthPath), Auth(m))]
  }

  lemma HealthRequestsAppend(log: HttpLog, a: Attempt<Request>, m: Monitor)
    requires HealthRequests(log, m)
    requires a.actions == [Get(Endpoint(m, HealthPath), Auth(m))]
    ensures HealthRequests(log + [a], m)
  {
    assert forall i :: 0 <= i < |log| ==> (log + [a])[i] == log[i];
  }

  /** `check_health` sleeps after every attempt but the one that succeeds,
      and after every attempt but the last when none does. */
  lemma HealthSleepCount(log: HttpLog, replies: nat -> Reply, maxRetries: int)
    requires SleptExactly(log, HealthSleeps(replies, maxRetries))
    requires |log| <= Max0(maxRetries)
    requires forall j: nat :: j < |log| - 1 ==> !Healthy(replies(j))
    ensures |log| >= 1 && Healthy(replies(|log| - 1)) ==> SleepCount(log) == |log| - 1
    ensures |log| == Max0(maxRetries) && (|log| == 0 || !Healthy(replies(|log| - 1))) ==>
              SleepCount(log) == Max0(maxRetries - 1)
  {
    if |log| >= 1 && Healthy(replies(|log| - 1)) {
      SleepCountBelow(log, |log| - 1);
    } else if |log| == Max0(maxRetries) {
      SleepCountBelow(log, maxRetries - 1);
    }
  }

  /** `GatusHealthMonitor.check_health`: it succeeds exactly when some
      attempt below `max_retries` gets HTTP 200, and returns at the first
      such attempt; otherwise it reports the error of the last attempt. */
  method CheckHealth(m: Monitor, policy: HealthPolicy, replies: nat -> Reply)
    returns (success: bool, message: string, log: HttpLog)
    ensures var first := FirstSuccess(HealthSuccesses(replies), policy.maxRetries);
            && success == first.Some?
            && (first.Some? ==>
                  && |log| == first.value + 1
                  && Healthy(replies(first.value))
                  && message == "Gatus healthy: " + replies(first.value).text)
            && (first.None? ==>
                  && |log| == Max0(policy.maxRetries)
                  && message == Exhausted(policy.maxRetries, "error", LastReplyError(replies, policy.maxRetries)))
    ensures HealthRequests(log, m)
    ensures SleptExactly(log, HealthSleeps(replies, policy.maxRetries))
    ensures SleepCount(log) == if success then |log| - 1 else Max0(policy.maxRetries - 1)
  {
    var request := Get(Endpoint(m, HealthPath), Auth(m));
    var lastError := "";
    log := [];
    var attempt: nat := 0;
    while attempt < policy.maxRetries
      invariant |log| == attempt
      invariant attempt == 0 || attempt <= policy.maxRetries
      invariant forall j: nat :: j < attempt ==> !Healthy(replies(j))
      invariant lastError == if attempt == 0 then "" else ReplyError(replies(attempt - 1))
      invariant HealthRequests(log, m)
      invariant SleptExactly(log, HealthSleeps(replies, policy.maxRetries))
    {
      var entry, succeeded, attemptMessage := HealthTry(request, replies(attempt), attempt == policy.maxRetries - 1);
      HealthRequestsAppend(log, entry, m);
      SleptExactlyAppend(log, entry, HealthSleeps(replies, policy.maxRetries));
      log := log + [entry];
      if succeeded {
        FirstSuccessCharacterized(HealthSuccesses(replies), policy.maxRetries, attempt);
        HealthSleepCount(log, replies, policy.maxRetries);
        return true, attemptMessage, log;
      }
      lastError := attemptMessage;
      attempt := attempt + 1;
    }
    FirstSuccessCharacterized(HealthSuccesses(replies), policy.maxRetries, 0);
    HealthSleepCount(log, replies, policy.maxRetries);
    success, message := false, Exhausted(policy.maxRetries, "error", lastError);
  }

  /** What `get_status` returns next to its flag: the decoded statuses, or an
      error message. */
  datatype StatusData = Statuses(value: Json) | StatusError(message: string)

  /** `GatusHealthMonitor.get_status`: one request, to the statuses URL with
      the monitor's credentials, which is returned next to the outcome.
      It succeeds exactly on HTTP 200 with a JSON body, whose value is
      returned. A body that is not JSON raises a `RequestException` subclass
      and is reported like a failed request. */
  function GetStatus(m: Monitor, reply: Reply): (r: (bool, StatusData, Request))
    ensures r.2.url == Endpoint(m, StatusPath) && r.2.auth == Auth(m)
    ensures r.0 <==> Healthy(reply) && reply.body.Decoded?
    ensures r.0 ==> r.1 == Statuses(reply.body.value)
    ensures !r.0 ==> r.1.StatusError?
    ensures reply.Response? && reply.status != 200 ==> r.1 == StatusError(ReplyError(reply))
    ensures reply.RequestFailed? ==> r.1 == StatusError(reply.error)
    ensures reply.Response? && reply.status == 200 && reply.body.NotJson? ==> r.1 == StatusError(reply.body.error)
  {
    var request := Get(Endpoint(m, StatusPath), Auth(m));
    match reply
    case RequestFailed(e) => (false, StatusError(e), request)
    case Response(status, text, body) =>
      if status == 200 then
        match body
        case Decoded(value) => (true, Statuses(value), request)
        case NotJson(e) => (false, StatusError(e), request)
      else (false, StatusError("HTTP " + IntToString(status) + ": " + text), request)
  }
}
