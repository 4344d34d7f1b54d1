/** `check_wms` (scripts/strict_check.py:157-303) and `check_wms_endpoint`
    (305-333): a WMS GetMap URL template checked against the capabilities
    of the service it points to. Fetching a URL is an oracle `fetch` from the
    GetCapabilities query to a response; `validators.url` is an oracle
    `urlValid`. */
module WmsCheck {
  import opened Strings
  import opened Capabilities
  import opened Messages

  /** A query string as the `(key, value)` pairs `parse_qsl` yields, in order. */
  type Query = seq<(string, string)>

  /** What fetching a URL gave: an exception from the HTTP client, or a body
      and what the XML parser made of it. */
  datatype Response = TransportError(reason: string) | Body(doc: Document)

  /** The parts of a `wms` source record the checker reads: the URL template,
      the pairs of its query string, and the optional `available_projections`. */
  datatype WmsSource = WmsSource(url: string, query: Query, availableProjections: Option<seq<string>>)

  // ---------------------------------------------------------------------
  // Checks on the URL template (lines 173-180)
  // ---------------------------------------------------------------------

  const Placeholders: seq<string> := ["{proj}", "{bbox}", "{width}", "{height}"]

  /** The elements of `ps` that do not occur in `url`, in order. */
  function Absent(ps: seq<string>, url: string): (r: seq<string>)
    ensures |r| <= |ps|
    ensures forall p :: p in r <==> p in ps && !Contains(url, p)
  {
    if ps == [] then []
    else (if Contains(url, ps[0]) then [] else [ps[0]]) + Absent(ps[1..], url)
  }

  /** The errors about the template itself: it must be a valid URL once its
      braces are dropped, and it must hold every GetMap placeholder. */
  function UrlErrors(url: string, urlValid: string -> bool): seq<Msg>
  {
    var missing := Absent(Placeholders, url);
    (if urlValid(RemoveBraces(url)) then [] else [UrlValidationError(url)])
      + (if missing == [] then [] else [MissingPlaceholders(missing)])
  }

  /** The template is reported invalid exactly when its brace-free form is
      not a URL, and as lacking placeholders exactly when one of `{proj}`,
      `{bbox}`, `{width}`, `{height}` does not occur in it. */
  lemma UrlErrorsMeaning(url: string, urlValid: string -> bool)
    ensures UrlValidationError(url) in UrlErrors(url, urlValid) <==> !urlValid(RemoveBraces(url))
    ensures MissingPlaceholders(Absent(Placeholders, url)) in UrlErrors(url, urlValid)
      <==> exists p :: p in Placeholders && !Contains(url, p)
  {
    var missing := Absent(Placeholders, url);
    if missing != [] {
      assert missing[0] in missing;
    }
  }

  // ---------------------------------------------------------------------
  // The case-folded query parameters (lines 182-186)
  // ---------------------------------------------------------------------

  /** `wms_args`: every key lower-cased, a later pair overwriting an earlier
      one with the same lower-cased key. */
  function ArgsOf(q: Query): map<string, string>
    decreases |q|
  {
    if q == [] then map[]
    else ArgsOf(q[..|q| - 1])[Lower(q[|q| - 1].0) := q[|q| - 1].1]
  }

  /** No later pair of `q` has the same lower-cased key as pair `i`. */
  predicate LastOfKey(q: Query, i: int)
    requires 0 <= i < |q|
  {
    forall j :: i < j < |q| ==> Lower(q[j].0) != Lower(q[i].0)
  }

  /** The lower-cased keys of a query. */
  function LoweredKeys(q: Query): set<string>
  {
    set i | 0 <= i < |q| :: Lower(q[i].0)
  }

  /** The keys of `wms_args` are the lower-cased keys of the query. */
  lemma {:induction false} ArgsKeys(q: Query)
    ensures ArgsOf(q).Keys == LoweredKeys(q)
    decreases |q|
  {
    if q != [] {
      var init := q[..|q| - 1];
      ArgsKeys(init);
      forall k | k in LoweredKeys(q)
        ensures k in LoweredKeys(init) + {Lower(q[|q| - 1].0)}
      {
        var i :| 0 <= i < |q| && Lower(q[i].0) == k;
        if i < |init| {
          assert Lower(init[i].0) == k;
        }
      }
      forall k | k in LoweredKeys(init)
        ensures k in LoweredKeys(q)
      {
        var i :| 0 <= i < |init| && Lower(init[i].0) == k;
        assert Lower(q[i].0) == k;
      }
      assert Lower(q[|q| - 1].0) in LoweredKeys(q);
    }
  }

  /** Each key of `wms_args` holds the value of the last pair with that key. */
  lemma {:induction false} ArgsValue(q: Query, i: int)
    requires 0 <= i < |q| && LastOfKey(q, i)
    ensures Lower(q[i].0) in ArgsOf(q) && ArgsOf(q)[Lower(q[i].0)] == q[i].1
    decreases |q|
  {
    var init := q[..|q| - 1];
    var last := q[|q| - 1];
    assert ArgsOf(q) == ArgsOf(init)[Lower(last.0) := last.1];
    if i < |init| {
      assert init[i] == q[i];
      assert LastOfKey(init, i) by {
        forall j | i < j < |init| ensures Lower(init[j].0) != Lower(init[i].0) {
          assert init[j] == q[j];
        }
      }
      ArgsValue(init, i);
    }
  }

  lemma ArgsOfSnoc(q: Query, key: string, value: string)
    ensures ArgsOf(q + [(key, value)]) == ArgsOf(q)[Lower(key) := value]
  {
    assert (q + [(key, value)])[..|q|] == q;
  }

  /** The loop filling `wms_args`. */
  method BuildArgs(q: Query) returns (args: map<string, string>)
    ensures args == ArgsOf(q)
  {
    args := map[];
    var i := 0;
    while i < |q|
      invariant 0 <= i <= |q|
      invariant args == ArgsOf(q[..i])
    {
      assert q[..i + 1][..i] == q[..i];
      args := args[Lower(q[i].0) := q[i].1];
      i := i + 1;
    }
    assert q[..i] == q;
  }

  // ---------------------------------------------------------------------
  // Mandatory GetMap parameters (lines 188-202)
  // ---------------------------------------------------------------------

  /** The GetMap parameters that are always required (Table 8, section 7.3.2
      of OGC WMS 1.3.0). */
  const GetMapParameters: seq<string> := ["version", "request", "layers", "bbox", "width", "height", "format"]

  /** Whether parameter `p` is required: the fixed ones always, `crs` for a
      request of version 1.3.0, `srs` for a request of any other version. */
  predicate Required(args: map<string, string>, p: string)
  {
    || p in GetMapParameters
    || (p == "crs" && "version" in args && args["version"] == "1.3.0")
    || (p == "srs" && "version" in args && args["version"] != "1.3.0")
  }

  /** The required parameters the query lacks. */
  function MissingOf(args: map<string, string>): set<string>
  {
    set p | p in GetMapParameters + ["crs", "srs"] && Required(args, p) && p !in args
  }

  /** Nothing is missing exactly when the seven fixed parameters are there,
      `crs` is there for version 1.3.0, and `srs` for any other version; `crs`
      and `srs` are never both reported. */
  lemma MissingOfMeaning(args: map<string, string>)
    ensures MissingOf(args) == {} <==>
      && (forall p :: p in GetMapParameters ==> p in args)
      && ("version" in args && args["version"] == "1.3.0" ==> "crs" in args)
      && ("version" in args && args["version"] != "1.3.0" ==> "srs" in args)
    ensures !("crs" in MissingOf(args) && "srs" in MissingOf(args))
  {
    if MissingOf(args) == {} {
      forall p | p in GetMapParameters ensures p in args {
        assert p in GetMapParameters + ["crs", "srs"];
        assert p !in MissingOf(args);
      }
      MissingMember(args, "crs");
      MissingMember(args, "srs");
    } else {
      var p :| p in MissingOf(args);
      assert p in GetMapParameters + ["crs", "srs"] && Required(args, p) && p !in args;
    }
  }

  lemma MissingMember(args: map<string, string>, p: string)
    ensures p in GetMapParameters + ["crs", "srs"] && Required(args, p) && p !in args ==> p in MissingOf(args)
  {
  }

  /** The loop and the two version-dependent checks building
      `missing_request_parameters`. */
  method FindMissingParameters(args: map<string, string>) returns (missing: set<string>)
    ensures missing == MissingOf(args)
  {
    missing := {};
    var i := 0;
    while i < |GetMapParameters|
      invariant 0 <= i <= |GetMapParameters|
      invariant missing == set p | p in GetMapParameters[..i] && p !in args
    {
      var p := GetMapParameters[i];
      assert GetMapParameters[..i + 1] == GetMapParameters[..i] + [p];
      if p !in args {
        missing := missing + {p};
      }
      i := i + 1;
    }
    assert GetMapParameters[..i] == GetMapParameters;
    if "version" in args && args["version"] == "1.3.0" {
      if "crs" !in args {
        missing := missing + {"crs"};
      }
    } else if "version" in args && args["version"] != "1.3.0" {
      if "srs" !in args {
        missing := missing + {"srs"};
      }
    }
    assert "crs" !in GetMapParameters && "srs" !in GetMapParameters;
  }

  // ---------------------------------------------------------------------
  // The GetCapabilities query (lines 207-219)
  // ---------------------------------------------------------------------

  /** `get_capabilities_args`: the parameters of the GetCapabilities request
      for `version` (`None` asks the server for its highest version). */
  function CapabilitiesArgs(version: Option<string>, args: map<string, string>): map<string, string>
  {
    var base := map["service" := "WMS", "request" := "GetCapabilities"];
    var withVersion := if version.Some? then base["version" := version.value] else base;
    if "map" in args then withVersion["map" := args["map"]] else withVersion
  }

  /** `get_GetCapabilities_url(version)`: the query string that replaces the
      template's, the pairs of `get_capabilities_args` in insertion order. */
  function CapabilitiesQuery(version: Option<string>, args: map<string, string>): Query
  {
    [("service", "WMS"), ("request", "GetCapabilities")]
      + (if version.Some? then [("version", version.value)] else [])
      + (if "map" in args then [("map", args["map"])] else [])
  }

  /** Read back as parameters, the GetCapabilities query is exactly
      `get_capabilities_args`: service, request, the version when one is
      given, and the `map` of the original URL when it had one. */
  lemma CapabilitiesQueryRoundTrip(version: Option<string>, args: map<string, string>)
    ensures ArgsOf(CapabilitiesQuery(version, args)) == CapabilitiesArgs(version, args)
  {
    var base: Query := [("service", "WMS"), ("request", "GetCapabilities")];
    BaseQueryArgs();
    var withVersion := base + (if version.Some? then [("version", version.value)] else []);
    if version.Some? {
      LowerOfLowerCase("version");
      ArgsOfSnoc(base, "version", version.value);
    } else {
      assert withVersion == base;
    }
    if "map" in args {
      LowerOfLowerCase("map");
      ArgsOfSnoc(withVersion, "map", args["map"]);
    } else {
      assert CapabilitiesQuery(version, args) == withVersion;
    }
  }

  lemma BaseQueryArgs()
    ensures ArgsOf([("service", "WMS"), ("request", "GetCapabilities")]) == map["service" := "WMS", "request" := "GetCapabilities"]
  {
    LowerOfLowerCase("service");
    LowerOfLowerCase("request");
    ArgsOfSnoc([("service", "WMS")], "request", "GetCapabilities");
    ArgsOfSnoc([], "service", "WMS");
    assert [("service", "WMS")] == [] + [("service", "WMS")];
  }

  // ---------------------------------------------------------------------
  // Version negotiation (lines 221-247)
  // ---------------------------------------------------------------------

  /** The versions tried, in order; `None` leaves the choice to the server
      (section 6.2 of OGC WMS 1.3.0). */
  const Versions: seq<Option<string>> := [None, Some("1.3.0"), Some("1.1.1"), Some("1.1.0"), Some("1.0.0")]

  /** How an attempt is named in its error message. */
  function VersionLabel(version: Option<string>): string
  {
    if version.None? then "-" else version.value
  }

  /** One attempt, given what fetching its query gave: the capabilities, or
      the text of the exception it raised. */
  function Attempt(response: Response): Result<Capabilities, string>
  {
    match response
    case TransportError(reason) => Failure(reason)
    case Body(doc) =>
      match CapabilitiesOf(doc)
      case Success(caps) => Success(caps)
      case Failure(err) => Failure(err.Message())
  }

  /** Every attempt against the server `fetch` stands for. */
  function AttemptsOf(fetch: Query -> Response): Query -> Result<Capabilities, string>
  {
    q => Attempt(fetch(q))
  }

  /** One attempt of the loop: how messages name it and its query. */
  datatype Try = Try(versionLabel: string, query: Query)

  /** The five attempts for a URL with parameters `args`. */
  function Tries(args: map<string, string>): (tries: seq<Try>)
    ensures |tries| == |Versions|
    ensures forall i :: 0 <= i < |Versions| ==>
      tries[i] == Try(VersionLabel(Versions[i]), CapabilitiesQuery(Versions[i], args))
  {
    seq(|Versions|, i requires 0 <= i < |Versions| => Try(VersionLabel(Versions[i]), CapabilitiesQuery(Versions[i], args)))
  }

  /** The outcome of the negotiation loop: the capabilities if some attempt
      succeeded, the messages of the failed attempts, and every query sent. */
  datatype Negotiation = Negotiation(caps: Option<Capabilities>, failures: seq<Msg>, requests: seq<Query>)

  /** The attempts `tries[i..]`, stopping at the first success. */
  function NegotiateFrom(attempt: Query -> Result<Capabilities, string>, tries: seq<Try>, i: nat): Negotiation
    decreases |tries| - i
  {
    if i >= |tries| then Negotiation(None, [], [])
    else
      var q := tries[i].query;
      match attempt(q)
      case Success(caps) => Negotiation(Some(caps), [], [q])
      case Failure(reason) =>
        var rest := NegotiateFrom(attempt, tries, i + 1);
        Negotiation(rest.caps, [AttemptFailed(tries[i].versionLabel, reason)] + rest.failures, [q] + rest.requests)
  }

  /** Attempt `i` failed. */
  predicate FailsAt(attempt: Query -> Result<Capabilities, string>, tries: seq<Try>, i: nat)
    requires i < |tries|
  {
    attempt(tries[i].query).Failure?
  }

  /** The message for failed attempt `i`. */
  function FailureAt(attempt: Query -> Result<Capabilities, string>, tries: seq<Try>, i: nat): Msg
    requires i < |tries| && FailsAt(attempt, tries, i)
  {
    AttemptFailed(tries[i].versionLabel, attempt(tries[i].query).error)
  }

  /** Attempt `k` is the first success from `i` on, and `n` holds what it
      gave, one failure message per earlier attempt, and the queries up to
      and including attempt `k`. */
  predicate FirstSuccess(attempt: Query -> Result<Capabilities, string>, tries: seq<Try>, i: nat, k: nat, n: Negotiation)
    requires i <= k < |tries|
  {
    && (forall j :: i <= j < k ==> FailsAt(attempt, tries, j))
    && attempt(tries[k].query).Success?
    && n.caps == Some(attempt(tries[k].query).value)
    && |n.failures| == k - i
    && (forall j :: i <= j < k ==> n.failures[j - i] == FailureAt(attempt, tries, j))
    && |n.requests| == k - i + 1
  }

  /** `n` sent the queries of the attempts from `i` on, in order, and no
      more than remain. */
  predicate SentInOrder(tries: seq<Try>, i: nat, n: Negotiation)
  {
    && |n.requests| <= |tries| - i
    && forall j :: 0 <= j < |n.requests| ==> i + j < |tries| && n.requests[j] == tries[i + j].query
  }

  /** When `n` holds no capabilities, every attempt from `i` on failed, each
      failure is reported in order and every remaining query was sent. */
  predicate AllFailedReported(attempt: Query -> Result<Capabilities, string>, tries: seq<Try>, i: nat, n: Negotiation)
    requires i <= |tries|
  {
    n.caps.None? ==>
      && (forall j :: i <= j < |tries| ==> FailsAt(attempt, tries, j))
      && |n.failures| == |tries| - i
      && (forall j :: i <= j < |tries| ==> n.failures[j - i] == FailureAt(attempt, tries, j))
      && |n.requests| == |tries| - i
  }

  /** When `n` holds capabilities, they come from the first attempt from
      `i` on that succeeded. */
  predicate SomeFirstSuccess(attempt: Query -> Result<Capabilities, string>, tries: seq<Try>, i: nat, n: Negotiation)
    requires i <= |tries|
  {
    n.caps.Some? ==> exists k :: i <= k < |tries| && FirstSuccess(attempt, tries, i, k, n)
  }

  lemma {:induction false} NegotiateSent(attempt: Query -> Result<Capabilities, string>, tries: seq<Try>, i: nat)
    requires i <= |tries|
    ensures SentInOrder(tries, i, NegotiateFrom(attempt, tries, i))
    decreases |tries| - i
  {
    if i < |tries| && attempt(tries[i].query).Failure? {
      NegotiateSent(attempt, tries, i + 1);
      var rest := NegotiateFrom(attempt, tries, i + 1);
      var r := [tries[i].query] + rest.requests;
      assert NegotiateFrom(attempt, tries, i).requests == r;
      assert forall j :: 1 <= j < |r| ==> r[j] == rest.requests[j - 1];
    }
  }

  lemma {:induction false} NegotiateNone(attempt: Query -> Result<Capabilities, string>, tries: seq<Try>, i: nat)
    requires i <= |tries|
    ensures AllFailedReported(attempt, tries, i, NegotiateFrom(attempt, tries, i))
    decreases |tries| - i
  {
    if i < |tries| && attempt(tries[i].query).Failure? {
      NegotiateNone(attempt, tries, i + 1);
      var n := NegotiateFrom(attempt, tries, i);
      var rest := NegotiateFrom(attempt, tries, i + 1);
      assert n.failures == [FailureAt(attempt, tries, i)] + rest.failures;
      assert n.requests == [tries[i].query] + rest.requests;
    }
  }

  lemma {:induction false} NegotiateSome(attempt: Query -> Result<Capabilities, string>, tries: seq<Try>, i: nat)
    requires i <= |tries|
    ensures SomeFirstSuccess(attempt, tries, i, NegotiateFrom(attempt, tries, i))
    decreases |tries| - i
  {
    if i < |tries| {
      var n := NegotiateFrom(attempt, tries, i);
      if attempt(tries[i].query).Success? {
        assert FirstSuccess(attempt, tries, i, i, n);
      } else {
        NegotiateSome(attempt, tries, i + 1);
        var rest := NegotiateFrom(attempt, tries, i + 1);
        if rest.caps.Some? {
          var k :| i + 1 <= k < |tries| && FirstSuccess(attempt, tries, i + 1, k, rest);
          FirstSuccessBack(attempt, tries, i, k, rest);
        }
      }
    }
  }

  /** A first success from `i + 1` on, behind a failure at `i`, is the
      first success from `i` on. */
  lemma FirstSuccessBack(attempt: Query -> Result<Capabilities, string>, tries: seq<Try>, i: nat, k: nat, rest: Negotiation)
    requires i + 1 <= k < |tries| && FailsAt(attempt, tries, i)
    requires FirstSuccess(attempt, tries, i + 1, k, rest)
    ensures FirstSuccess(attempt, tries, i, k,
      Negotiation(rest.caps, [FailureAt(attempt, tries, i)] + rest.failures, [tries[i].query] + rest.requests))
  {
    var failures := [FailureAt(attempt, tries, i)] + rest.failures;
    assert forall m :: 1 <= m < |failures| ==> failures[m] == rest.failures[m - 1];
  }

  /** From attempt `i` on: the loop stops at the first attempt that succeeds
      and returns its capabilities, having sent the queries up to and
      including that one and collected one message per failure before it, in
      order; when none succeeds, every remaining query was sent and every
      failure is reported. */
  lemma NegotiateFromMeaning(attempt: Query -> Result<Capabilities, string>, tries: seq<Try>, i: nat)
    requires i <= |tries|
    ensures SentInOrder(tries, i, NegotiateFrom(attempt, tries, i))
    ensures AllFailedReported(attempt, tries, i, NegotiateFrom(attempt, tries, i))
    ensures SomeFirstSuccess(attempt, tries, i, NegotiateFrom(attempt, tries, i))
  {
    NegotiateSent(attempt, tries, i);
    NegotiateNone(attempt, tries, i);
    NegotiateSome(attempt, tries, i);
  }

  /** Failing without a version and with 1.3.0 but succeeding with 1.1.1
      sends exactly three requests, the third asking for version 1.1.1, and
      yields what that request gave. */
  lemma ThirdVersionAnswers(attempt: Query -> Result<Capabilities, string>, args: map<string, string>)
    requires attempt(CapabilitiesQuery(None, args)).Failure?
    requires attempt(CapabilitiesQuery(Some("1.3.0"), args)).Failure?
    requires attempt(CapabilitiesQuery(Some("1.1.1"), args)).Success?
    ensures var n := NegotiateFrom(attempt, Tries(args), 0);
      && n.requests == [CapabilitiesQuery(None, args), CapabilitiesQuery(Some("1.3.0"), args), CapabilitiesQuery(Some("1.1.1"), args)]
      && n.caps == Some(attempt(CapabilitiesQuery(Some("1.1.1"), args)).value)
  {
    var tries := Tries(args);
    var q0, q1, q2 := tries[0].query, tries[1].query, tries[2].query;
    assert q0 == CapabilitiesQuery(None, args);
    assert q1 == CapabilitiesQuery(Some("1.3.0"), args);
    assert q2 == CapabilitiesQuery(Some("1.1.1"), args);
    assert NegotiateFrom(attempt, tries, 2) == Negotiation(Some(attempt(q2).value), [], [q2]);
    assert NegotiateFrom(attempt, tries, 1).requests == [q1, q2];
  }

  /** The negotiation loop; it reads each response with `ParseWms`. */
  method Negotiate(fetch: Query -> Response, args: map<string, string>) returns (n: Negotiation)
    ensures n == NegotiateFrom(AttemptsOf(fetch), Tries(args), 0)
  {
    ghost var attempts := AttemptsOf(fetch);
    ghost var tries := Tries(args);
    ghost var goal := NegotiateFrom(attempts, tries, 0);
    var caps: Option<Capabilities> := None;
    var failures: seq<Msg> := [];
    var requests: seq<Query> := [];
    var i := 0;
    while i < |Versions| && caps.None?
      invariant 0 <= i <= |Versions|
      invariant caps.None? ==> goal == Prefixed(failures, requests, NegotiateFrom(attempts, tries, i))
      invariant caps.Some? ==> goal == Negotiation(caps, failures, requests)
      decreases |Versions| - i
    {
      var versionLabel := VersionLabel(Versions[i]);
      var q := CapabilitiesQuery(Versions[i], args);
      assert tries[i] == Try(versionLabel, q);
      NegotiateStep(attempts, tries, i, failures, requests);
      requests := requests + [q];
      var result := TryVersion(fetch, q);
      assert result == attempts(q);
      if result.Success? {
        caps := Some(result.value);
      } else {
        failures := failures + [AttemptFailed(versionLabel, result.error)];
      }
      i := i + 1;
    }
    n := Negotiation(caps, failures, requests);
  }

  /** One pass of the loop body: fetch the query and parse the body. */
  method TryVersion(fetch: Query -> Response, q: Query) returns (result: Result<Capabilities, string>)
    ensures result == Attempt(fetch(q))
  {
    result := ReadResponse(fetch(q));
  }

  /** Parses a fetched body with the capabilities reader; a transport error
      or a parse error becomes the text of its exception. */
  method ReadResponse(response: Response) returns (result: Result<Capabilities, string>)
    ensures result == Attempt(response)
  {
    if response.TransportError? {
      result := Failure(response.reason);
    } else {
      var parsed := ParseWms(response.doc);
      result := if parsed.Success? then Success(parsed.value) else Failure(parsed.error.Message());
    }
  }

  /** `n` behind the failures and requests of earlier attempts. */
  function Prefixed(failures: seq<Msg>, requests: seq<Query>, n: Negotiation): Negotiation
  {
    Negotiation(n.caps, failures + n.failures, requests + n.requests)
  }

  /** One pass of the negotiation loop, seen from the failures and requests
      collected so far. */
  lemma NegotiateStep(attempt: Query -> Result<Capabilities, string>, tries: seq<Try>, i: nat,
                      failures: seq<Msg>, requests: seq<Query>)
    requires i < |tries|
    ensures attempt(tries[i].query).Success? ==>
      Prefixed(failures, requests, NegotiateFrom(attempt, tries, i))
        == Negotiation(Some(attempt(tries[i].query).value), failures, requests + [tries[i].query])
    ensures attempt(tries[i].query).Failure? ==>
      Prefixed(failures, requests, NegotiateFrom(attempt, tries, i))
        == Prefixed(failures + [AttemptFailed(tries[i].versionLabel, attempt(tries[i].query).error)],
                    requests + [tries[i].query], NegotiateFrom(attempt, tries, i + 1))
  {
    if attempt(tries[i].query).Failure? {
      var rest := NegotiateFrom(attempt, tries, i + 1);
      var m := AttemptFailed(tries[i].versionLabel, attempt(tries[i].query).error);
      assert failures + ([m] + rest.failures) == failures + [m] + rest.failures;
      assert requests + ([tries[i].query] + rest.requests) == requests + [tries[i].query] + rest.requests;
    }
  }

  // ---------------------------------------------------------------------
  // Cross-checks against the capabilities (lines 249-303)
  // ---------------------------------------------------------------------

  /** The requested layer names the capabilities do not list, in order. */
  function Unadvertised(names: seq<string>, layers: map<Text, Layer>): (r: seq<string>)
    ensures |r| <= |names|
    ensures forall n :: n in r <==> n in names && Some(n) !in layers
    decreases |names|
  {
    if names == [] then []
    else
      var init := names[..|names| - 1];
      var last := names[|names| - 1];
      assert names == init + [last];
      Unadvertised(init, layers) + (if Some(last) in layers then [] else [last])
  }

  /** The `not_found_layers` loop. */
  method FindUnadvertised(names: seq<string>, layers: map<Text, Layer>) returns (r: seq<string>)
    ensures r == Unadvertised(names, layers)
  {
    r := [];
    var i := 0;
    while i < |names|
      invariant 0 <= i <= |names|
      invariant r == Unadvertised(names[..i], layers)
    {
      assert names[..i + 1][..i] == names[..i];
      if Some(names[i]) !in layers {
        r := r + [names[i]];
      }
      i := i + 1;
    }
    assert names[..i] == names;
  }

  /** Style values that need not be advertised: `default`, empty, or one
      comma per requested layer. */
  predicate StyleExempt(style: string, layerCount: nat)
  {
    style == "default" || style == "" || style == Repeat(',', layerCount)
  }

  /** A non-empty style paired with a known layer that does not list it. */
  predicate StyleUnsupported(layer: string, style: string, layers: map<Text, Layer>)
  {
    |style| > 0 && Some(layer) in layers && Some(style) !in layers[Some(layer)].styles
  }

  /** One error per (layer, style) pair, in order, whose style the layer lacks. */
  function StyleMismatches(names: seq<string>, styles: seq<string>, layers: map<Text, Layer>): (r: seq<Msg>)
    requires |names| == |styles|
    ensures |r| <= |names|
    decreases |names|
  {
    if names == [] then []
    else
      var k := |names| - 1;
      StyleMismatches(names[..k], styles[..k], layers)
        + (if StyleUnsupported(names[k], styles[k], layers) then [StyleNotSupported(names[k], styles[k])] else [])
  }

  /** Exactly the pairs whose style the layer lacks are reported. */
  lemma {:induction false} StyleMismatchesMeaning(names: seq<string>, styles: seq<string>, layers: map<Text, Layer>, m: Msg)
    requires |names| == |styles|
    ensures m in StyleMismatches(names, styles, layers) <==>
      exists k :: 0 <= k < |names| && m == StyleNotSupported(names[k], styles[k]) && StyleUnsupported(names[k], styles[k], layers)
    decreases |names|
  {
    if names != [] {
      var k := |names| - 1;
      StyleMismatchesMeaning(names[..k], styles[..k], layers, m);
      if exists j :: 0 <= j < |names| && m == StyleNotSupported(names[j], styles[j]) && StyleUnsupported(names[j], styles[j], layers) {
        var j :| 0 <= j < |names| && m == StyleNotSupported(names[j], styles[j]) && StyleUnsupported(names[j], styles[j], layers);
        if j < k {
          assert names[..k][j] == names[j] && styles[..k][j] == styles[j];
        }
      }
      if exists j :: 0 <= j < k && m == StyleNotSupported(names[..k][j], styles[..k][j]) && StyleUnsupported(names[..k][j], styles[..k][j], layers) {
        var j :| 0 <= j < k && m == StyleNotSupported(names[..k][j], styles[..k][j]) && StyleUnsupported(names[..k][j], styles[..k][j], layers);
        assert names[..k][j] == names[j] && styles[..k][j] == styles[j];
      }
    }
  }

  /** The style check (lines 261-273). */
  function StyleFindings(names: seq<string>, style: string, layers: map<Text, Layer>): seq<Msg>
  {
    if StyleExempt(style, |names|) then []
    else
      var styles := Split(style, ',');
      if |styles| != |names| then [StyleCountMismatch]
      else StyleMismatches(names, styles, layers)
  }

  lemma {:induction false} EmptyStylesMatch(names: seq<string>, styles: seq<string>, layers: map<Text, Layer>)
    requires |names| == |styles|
    requires forall k :: 0 <= k < |styles| ==> styles[k] == ""
    ensures StyleMismatches(names, styles, layers) == []
    decreases |names|
  {
    if names != [] {
      var k := |names| - 1;
      EmptyStylesMatch(names[..k], styles[..k], layers);
    }
  }

  /** `n` commas for `n + 1` layers (`,,` for three layers, say) never give a
      style error, whatever the layer names: every layer gets the empty style. */
  lemma CommasBetweenLayers(names: seq<string>, layers: map<Text, Layer>)
    requires |names| >= 1
    ensures StyleFindings(names, Repeat(',', |names| - 1), layers) == []
  {
    var n := |names| - 1;
    SplitRepeat(',', n);
    var styles := Split(Repeat(',', n), ',');
    if !StyleExempt(Repeat(',', n), |names|) {
      EmptyStylesMatch(names, styles, layers);
    }
  }

  /** One comma per layer splits into one token too many, so without the
      exemption it would be a count mismatch; with it, nothing is reported. */
  lemma CommaPerLayer(names: seq<string>, layers: map<Text, Layer>)
    ensures |Split(Repeat(',', |names|), ',')| == |names| + 1
    ensures StyleFindings(names, Repeat(',', |names|), layers) == []
  {
    SplitRepeat(',', |names|);
  }

  /** The zip loop reporting unsupported styles. */
  method ReportStyleMismatches(names: seq<string>, styles: seq<string>, layers: map<Text, Layer>, sink: MessageSink)
    requires |names| == |styles|
    modifies sink
    ensures sink.Contents() == old(sink.Contents()).Then(Errors(StyleMismatches(names, styles, layers)))
  {
    ghost var start := sink.Contents();
    var i := 0;
    while i < |names|
      invariant 0 <= i <= |names|
      invariant sink.Contents() == start.Then(Errors(StyleMismatches(names[..i], styles[..i], layers)))
    {
      assert names[..i + 1][..i] == names[..i] && styles[..i + 1][..i] == styles[..i];
      if StyleUnsupported(names[i], styles[i], layers) {
        sink.Error(StyleNotSupported(names[i], styles[i]));
      }
      i := i + 1;
    }
    assert names[..i] == names && styles[..i] == styles;
  }

  /** The declared projections whose upper-cased form a layer's CRS set lacks. */
  function Unsupported(projections: seq<string>, crs: set<string>): set<string>
  {
    set p | p in projections && Upper(p) !in crs
  }

  /** The `not_supported_crs` loop. */
  method FindUnsupported(projections: seq<string>, crs: set<string>) returns (r: set<string>)
    ensures r == Unsupported(projections, crs)
  {
    r := {};
    var i := 0;
    while i < |projections|
      invariant 0 <= i <= |projections|
      invariant r == Unsupported(projections[..i], crs)
    {
      assert projections[..i + 1] == projections[..i] + [projections[i]];
      if Upper(projections[i]) !in crs {
        r := r + {projections[i]};
      }
      i := i + 1;
    }
    assert projections[..i] == projections;
  }

  /** What the CRS check reports for requested layer `name`. */
  function CrsFinding(name: string, projections: seq<string>, layers: map<Text, Layer>): seq<Msg>
  {
    if Some(name) !in layers then []
    else
      var crs := layers[Some(name)].crs;
      var missing := Unsupported(projections, crs);
      if missing == {} then [] else [CrsNotSupported(missing, crs)]
  }

  /** The CRS check over the requested layers, in order (repeats included). */
  function CrsFindings(names: seq<string>, projections: seq<string>, layers: map<Text, Layer>): (r: seq<Msg>)
    ensures |r| <= |names|
    decreases |names|
  {
    if names == [] then []
    else
      var k := |names| - 1;
      CrsFindings(names[..k], projections, layers) + CrsFinding(names[k], projections, layers)
  }

  /** `name` is unknown, or its CRS set holds every declared projection,
      upper-cased. */
  predicate SupportsAll(name: string, projections: seq<string>, layers: map<Text, Layer>)
  {
    Some(name) in layers ==> forall p :: p in projections ==> Upper(p) in layers[Some(name)].crs
  }

  lemma CrsFindingOne(name: string, projections: seq<string>, layers: map<Text, Layer>)
    ensures CrsFinding(name, projections, layers) == [] <==> SupportsAll(name, projections, layers)
  {
    if Some(name) in layers && !SupportsAll(name, projections, layers) {
      var p :| p in projections && Upper(p) !in layers[Some(name)].crs;
      assert p in Unsupported(projections, layers[Some(name)].crs);
    }
  }

  /** The CRS check is silent exactly when every requested layer the
      capabilities know advertises every declared projection, upper-cased. */
  lemma {:induction false} CrsFindingsSilent(names: seq<string>, projections: seq<string>, layers: map<Text, Layer>)
    ensures CrsFindings(names, projections, layers) == [] <==>
      forall k :: 0 <= k < |names| ==> SupportsAll(names[k], projections, layers)
    decreases |names|
  {
    if names != [] {
      var k := |names| - 1;
      var init := names[..k];
      CrsFindingsSilent(init, projections, layers);
      CrsFindingOne(names[k], projections, layers);
      assert forall j :: 0 <= j < k ==> init[j] == names[j];
    }
  }

  /** Whatever the CRS check reports names a non-empty set of declared
      projections. */
  lemma {:induction false} CrsFindingsReported(names: seq<string>, projections: seq<string>, layers: map<Text, Layer>, m: Msg)
    requires m in CrsFindings(names, projections, layers)
    ensures m.CrsNotSupported? && m.unsupported != {}
    ensures forall p :: p in m.unsupported ==> p in projections
    decreases |names|
  {
    var k := |names| - 1;
    if m !in CrsFinding(names[k], projections, layers) {
      CrsFindingsReported(names[..k], projections, layers, m);
    }
  }

  /** The loop over the requested layers reporting unsupported projections. */
  method ReportCrs(names: seq<string>, projections: seq<string>, layers: map<Text, Layer>, sink: MessageSink)
    modifies sink
    ensures sink.Contents() == old(sink.Contents()).Then(Errors(CrsFindings(names, projections, layers)))
  {
    ghost var start := sink.Contents();
    var i := 0;
    while i < |names|
      invariant 0 <= i <= |names|
      invariant sink.Contents() == start.Then(Errors(CrsFindings(names[..i], projections, layers)))
    {
      assert names[..i + 1][..i] == names[..i];
      var name := names[i];
      if Some(name) in layers {
        var missing := FindUnsupported(projections, layers[Some(name)].crs);
        if missing != {} {
          sink.Error(CrsNotSupported(missing, layers[Some(name)].crs));
        }
      }
      i := i + 1;
    }
    assert names[..i] == names;
  }

  /** The `not_found_layers` error (lines 250-259). */
  function UnknownLayerErrors(names: seq<string>, layers: map<Text, Layer>): seq<Msg>
  {
    var unknown := Unadvertised(names, layers);
    if unknown == [] then [] else [LayersNotAdvertised(unknown)]
  }

  /** The style check, when a `styles` parameter is present (lines 261-273). */
  function StyleErrors(names: seq<string>, args: map<string, string>, layers: map<Text, Layer>): seq<Msg>
  {
    if "styles" in args then StyleFindings(names, args["styles"], layers) else []
  }

  /** The CRS check (lines 275-289). */
  function ProjectionErrors(src: WmsSource, names: seq<string>, layers: map<Text, Layer>): seq<Msg>
  {
    match src.availableProjections
    case None => [MissingAvailableProjections]
    case Some(projections) => CrsFindings(names, projections, layers)
  }

  /** The errors of the layer, style and CRS checks (lines 250-289). */
  function LayerErrors(src: WmsSource, args: map<string, string>, layers: map<Text, Layer>): seq<Msg>
    requires "layers" in args
  {
    var names := Split(args["layers"], ',');
    UnknownLayerErrors(names, layers) + StyleErrors(names, args, layers) + ProjectionErrors(src, names, layers)
  }

  /** The format texts, unless one of them is missing (which makes the join
      at line 297 raise). */
  function FormatStrings(formats: seq<Text>): (r: Option<seq<string>>)
    ensures r.Some? <==> forall k :: 0 <= k < |formats| ==> formats[k].Some?
    ensures r.Some? ==> |r.value| == |formats| && forall k :: 0 <= k < |formats| ==> formats[k] == Some(r.value[k])
    decreases |formats|
  {
    if formats == [] then Some([])
    else
      match FormatStrings(formats[1..])
      case None => None
      case Some(rest) =>
        if formats[0].None? then None
        else
          assert forall k :: 1 <= k < |formats| ==> formats[k] == formats[1..][k - 1];
          Some([formats[0].value] + rest)
  }

  /** `'jpeg' in "', '".join(formats)`: the separator cannot be part of a
      match, so this holds exactly when one of the formats mentions jpeg. */
  lemma {:induction false} JpegInJoinedFormats(fs: seq<string>)
    ensures Contains(Join(fs, "', '"), "jpeg") <==> exists k :: 0 <= k < |fs| && Contains(fs[k], "jpeg")
    decreases |fs|
  {
    if |fs| == 1 {
      assert fs[0] == fs[0];
    } else if |fs| > 1 {
      JpegInJoinedFormats(fs[1..]);
      ContainsAcrossSeparator(fs[0], "', '", Join(fs[1..], "', '"), "jpeg");
      if exists k :: 1 <= k < |fs| && Contains(fs[k], "jpeg") {
        var k :| 1 <= k < |fs| && Contains(fs[k], "jpeg");
        assert fs[1..][k - 1] == fs[k];
      }
      if exists k :: 0 <= k < |fs| - 1 && Contains(fs[1..][k], "jpeg") {
        var k :| 0 <= k < |fs| - 1 && Contains(fs[1..][k], "jpeg");
        assert fs[1..][k] == fs[k + 1];
      }
    } else {
      assert !Contains("", "jpeg");
    }
  }

  /** The outcome of the checks after a successful negotiation. */
  datatype Checked = Checked(report: Report, crashed: bool)

  /** The lexicographic version comparison (lines 291-293). */
  function VersionWarnings(requested: string, server: string): seq<Msg>
  {
    if LexLess(requested, server) then [VersionBehind(requested, server)] else []
  }

  /** The format check (lines 296-298). */
  function FormatErrors(format: string, fs: seq<string>): seq<Msg>
  {
    if format in fs then [] else [FormatNotAdvertised(format, fs)]
  }

  /** The jpeg suggestion (lines 300-303). */
  function JpegWarnings(format: string, fs: seq<string>): seq<Msg>
  {
    if !Contains(format, "jpeg") && Contains(Join(fs, "', '"), "jpeg") then [JpegAvailable(format, fs)] else []
  }

  /** Lines 249-303, once capabilities are in hand. */
  function CrossChecks(src: WmsSource, args: map<string, string>, caps: Capabilities): Checked
    requires "version" in args && "format" in args
  {
    var layerErrors := if "layers" in args then LayerErrors(src, args, caps.layers) else [];
    var versionWarnings := VersionWarnings(args["version"], caps.version);
    match FormatStrings(caps.formats)
    case None => Checked(Report([], versionWarnings, layerErrors), true)
    case Some(fs) =>
      var format := args["format"];
      Checked(Report([], versionWarnings + JpegWarnings(format, fs), layerErrors + FormatErrors(format, fs)), false)
  }

  /** A format without text makes the checks crash; the version warning is
      given exactly when the requested version sorts before the server's as a
      string. */
  lemma CrossChecksVersion(src: WmsSource, args: map<string, string>, caps: Capabilities)
    requires "version" in args && "format" in args
    ensures CrossChecks(src, args, caps).crashed <==> exists k :: 0 <= k < |caps.formats| && caps.formats[k].None?
    ensures VersionBehind(args["version"], caps.version) in CrossChecks(src, args, caps).report.warnings
      <==> LexLess(args["version"], caps.version)
  {
  }

  /** With every format text present: the format error is given exactly when
      the requested format is not advertised, and the jpeg warning exactly
      when the requested format does not mention jpeg but an advertised one
      does. */
  lemma CrossChecksFormats(src: WmsSource, args: map<string, string>, caps: Capabilities, fs: seq<string>)
    requires "version" in args && "format" in args
    requires |fs| == |caps.formats| && forall k :: 0 <= k < |fs| ==> caps.formats[k] == Some(fs[k])
    ensures !CrossChecks(src, args, caps).crashed
    ensures FormatNotAdvertised(args["format"], fs) in CrossChecks(src, args, caps).report.errors
      <==> args["format"] !in fs
    ensures JpegAvailable(args["format"], fs) in CrossChecks(src, args, caps).report.warnings
      <==> !Contains(args["format"], "jpeg") && exists k :: 0 <= k < |fs| && Contains(fs[k], "jpeg")
  {
    var r := FormatStrings(caps.formats);
    assert r.Some?;
    assert r.value == fs;
    JpegInJoinedFormats(fs);
    var layerErrors := if "layers" in args then LayerErrors(src, args, caps.layers) else [];
    if "layers" in args {
      forall m | m in layerErrors
        ensures !m.FormatNotAdvertised?
      {
        LayerErrorKinds(src, args, caps.layers, m);
      }
    }
  }

  // ---------------------------------------------------------------------
  // The whole check
  // ---------------------------------------------------------------------

  /** What one `check_wms` call appends, which GetCapabilities queries it
      sends, and whether it ends in an uncaught exception. */
  datatype WmsOutcome = WmsOutcome(report: Report, requests: seq<Query>, crashed: bool)

  /** What `check_wms` appends once every mandatory parameter is present:
      the styles warning, then the negotiation and either its failures or
      the cross-checks. */
  function Negotiated(src: WmsSource, args: map<string, string>, fetch: Query -> Response): WmsOutcome
    requires "version" in args && "format" in args
  {
    var stylesWarning := Report([], if "styles" in args then [] else [StylesMissing], []);
    var n := NegotiateFrom(AttemptsOf(fetch), Tries(args), 0);
    match n.caps
    case None => WmsOutcome(stylesWarning.Then(Errors(n.failures)), n.requests, false)
    case Some(caps) =>
      var checked := CrossChecks(src, args, caps);
      WmsOutcome(stylesWarning.Then(checked.report), n.requests, checked.crashed)
  }

  /** `check_wms(source)` against the server `fetch` stands for. */
  function WmsRun(src: WmsSource, urlValid: string -> bool, fetch: Query -> Response): WmsOutcome
  {
    var urlErrors := Errors(UrlErrors(src.url, urlValid));
    var args := ArgsOf(src.query);
    var missing := MissingOf(args);
    if missing != {} then WmsOutcome(urlErrors.Then(Errors([MissingParameters(missing)])), [], false)
    else
      MissingOfMeaning(args);
      assert "version" in GetMapParameters && "format" in GetMapParameters;
      var rest := Negotiated(src, args, fetch);
      WmsOutcome(urlErrors.Then(rest.report), rest.requests, rest.crashed)
  }

  /** With every mandatory parameter present, the run is the URL errors
      followed by what the negotiation and the cross-checks give. */
  lemma RunPastParameters(src: WmsSource, urlValid: string -> bool, fetch: Query -> Response)
    requires MissingOf(ArgsOf(src.query)) == {}
    ensures "version" in ArgsOf(src.query) && "format" in ArgsOf(src.query)
    ensures var rest := Negotiated(src, ArgsOf(src.query), fetch);
      WmsRun(src, urlValid, fetch) == WmsOutcome(Errors(UrlErrors(src.url, urlValid)).Then(rest.report), rest.requests, rest.crashed)
  {
    MissingOfMeaning(ArgsOf(src.query));
    assert "version" in GetMapParameters && "format" in GetMapParameters;
  }

  /** Every message the negotiation collects reports a failed attempt. */
  lemma {:induction false} FailuresAreAttempts(attempt: Query -> Result<Capabilities, string>, tries: seq<Try>, i: nat)
    ensures forall m :: m in NegotiateFrom(attempt, tries, i).failures ==> m.AttemptFailed?
    decreases |tries| - i
  {
    if i < |tries| && attempt(tries[i].query).Failure? {
      FailuresAreAttempts(attempt, tries, i + 1);
    }
  }

  /** The layer, style and CRS checks only report their own kinds of error. */
  lemma LayerErrorKinds(src: WmsSource, args: map<string, string>, layers: map<Text, Layer>, m: Msg)
    requires "layers" in args
    requires m in LayerErrors(src, args, layers)
    ensures m.LayersNotAdvertised? || m.StyleCountMismatch? || m.StyleNotSupported?
      || m.MissingAvailableProjections? || m.CrsNotSupported?
  {
    var names := Split(args["layers"], ',');
    if m in StyleErrors(names, args, layers) {
      var styles := Split(args["styles"], ',');
      if !StyleExempt(args["styles"], |names|) && |styles| == |names| {
        StyleMismatchesMeaning(names, styles, layers, m);
      }
    }
    if src.availableProjections.Some? && m in CrsFindings(names, src.availableProjections.value, layers) {
      CrsFindingsReported(names, src.availableProjections.value, layers, m);
    }
  }

  /** A missing mandatory parameter gives exactly one `MissingParameters`
      error, after the URL errors; then no capabilities request is sent,
      nothing is warned about and nothing crashes. */
  lemma MissingParametersStop(src: WmsSource, urlValid: string -> bool, fetch: Query -> Response)
    requires MissingOf(ArgsOf(src.query)) != {}
    ensures var o := WmsRun(src, urlValid, fetch);
      && o.report.errors == UrlErrors(src.url, urlValid) + [MissingParameters(MissingOf(ArgsOf(src.query)))]
      && o.report.warnings == [] && o.report.good == [] && o.requests == [] && !o.crashed
  {
  }

  /** Past the parameter check, no error reports a missing parameter. */
  lemma NegotiatedErrorKinds(src: WmsSource, args: map<string, string>, fetch: Query -> Response, m: Msg)
    requires "version" in args && "format" in args
    requires m in Negotiated(src, args, fetch).report.errors
    ensures !m.MissingParameters?
  {
    var n := NegotiateFrom(AttemptsOf(fetch), Tries(args), 0);
    FailuresAreAttempts(AttemptsOf(fetch), Tries(args), 0);
    if n.caps.Some? {
      var caps := n.caps.value;
      if "layers" in args && m in LayerErrors(src, args, caps.layers) {
        LayerErrorKinds(src, args, caps.layers, m);
      }
    }
  }

  /** With every mandatory parameter present, no error reports a missing
      parameter. */
  lemma NoMissingParametersError(src: WmsSource, urlValid: string -> bool, fetch: Query -> Response)
    requires MissingOf(ArgsOf(src.query)) == {}
    ensures forall m :: m in WmsRun(src, urlValid, fetch).report.errors ==> !m.MissingParameters?
  {
    var args := ArgsOf(src.query);
    RunPastParameters(src, urlValid, fetch);
    var rest := Negotiated(src, args, fetch);
    var urlErrors := UrlErrors(src.url, urlValid);
    assert WmsRun(src, urlValid, fetch).report.errors == urlErrors + rest.report.errors;
    forall m | m in urlErrors + rest.report.errors
      ensures !m.MissingParameters?
    {
      if m in urlErrors {
        UrlErrorKinds(src.url, urlValid, m);
      } else {
        NegotiatedErrorKinds(src, args, fetch, m);
      }
    }
  }

  /** The template checks give only URL and placeholder errors. */
  lemma UrlErrorKinds(url: string, urlValid: string -> bool, m: Msg)
    requires m in UrlErrors(url, urlValid)
    ensures m.UrlValidationError? || m.MissingPlaceholders?
  {
  }

  /** Past the parameter check, the styles warning is given exactly when
      there is no `styles` parameter. */
  lemma NegotiatedStyles(src: WmsSource, args: map<string, string>, fetch: Query -> Response)
    requires "version" in args && "format" in args
    ensures StylesMissing in Negotiated(src, args, fetch).report.warnings <==> "styles" !in args
  {
    var n := NegotiateFrom(AttemptsOf(fetch), Tries(args), 0);
    if n.caps.Some? {
      var checked := CrossChecks(src, args, n.caps.value);
      assert StylesMissing !in checked.report.warnings;
    }
  }

  /** With every mandatory parameter present, the styles warning is given
      exactly when the URL has no `styles` parameter. */
  lemma StylesWarning(src: WmsSource, urlValid: string -> bool, fetch: Query -> Response)
    requires MissingOf(ArgsOf(src.query)) == {}
    ensures StylesMissing in WmsRun(src, urlValid, fetch).report.warnings <==> "styles" !in ArgsOf(src.query)
  {
    var args := ArgsOf(src.query);
    RunPastParameters(src, urlValid, fetch);
    NegotiatedStyles(src, args, fetch);
    assert WmsRun(src, urlValid, fetch).report.warnings == [] + Negotiated(src, args, fetch).report.warnings;
  }

  /** `check_wms` never reports anything as good. */
  lemma NothingGood(src: WmsSource, urlValid: string -> bool, fetch: Query -> Response)
    ensures WmsRun(src, urlValid, fetch).report.good == []
  {
    var args := ArgsOf(src.query);
    if MissingOf(args) == {} {
      MissingOfMeaning(args);
      assert "version" in GetMapParameters && "format" in GetMapParameters;
    }
  }

  /** When every attempt fails, the negotiation sends every query and
      collects one failure per attempt, in order. */
  lemma {:induction false} EveryAttemptFails(attempt: Query -> Result<Capabilities, string>, tries: seq<Try>, i: nat)
    requires i <= |tries|
    requires forall k :: i <= k < |tries| ==> FailsAt(attempt, tries, k)
    ensures var n := NegotiateFrom(attempt, tries, i);
      && n.caps.None?
      && n.failures == seq(|tries| - i, j requires 0 <= j < |tries| - i => FailureAt(attempt, tries, i + j))
      && n.requests == seq(|tries| - i, j requires 0 <= j < |tries| - i => tries[i + j].query)
    decreases |tries| - i
  {
    if i < |tries| {
      EveryAttemptFails(attempt, tries, i + 1);
      var rest := NegotiateFrom(attempt, tries, i + 1);
      var n := NegotiateFrom(attempt, tries, i);
      assert n.failures == [FailureAt(attempt, tries, i)] + rest.failures;
      assert n.requests == [tries[i].query] + rest.requests;
    }
  }

  /** The failure messages when every version fails. */
  function AllFailures(fetch: Query -> Response, args: map<string, string>): seq<Msg>
    requires forall i :: 0 <= i < |Versions| ==> Attempt(fetch(CapabilitiesQuery(Versions[i], args))).Failure?
  {
    seq(|Versions|, i requires 0 <= i < |Versions| =>
      AttemptFailed(VersionLabel(Versions[i]), Attempt(fetch(CapabilitiesQuery(Versions[i], args))).error))
  }

  /** The queries for the five versions, in order. */
  function AllQueries(args: map<string, string>): seq<Query>
  {
    seq(|Versions|, i requires 0 <= i < |Versions| => CapabilitiesQuery(Versions[i], args))
  }

  /** When all five versions fail, the negotiation sends the five queries
      in order and collects one failure per version in the same order. */
  lemma NegotiationAllFail(fetch: Query -> Response, args: map<string, string>)
    requires forall i :: 0 <= i < |Versions| ==> Attempt(fetch(CapabilitiesQuery(Versions[i], args))).Failure?
    ensures var n := NegotiateFrom(AttemptsOf(fetch), Tries(args), 0);
      n.caps.None? && n.failures == AllFailures(fetch, args) && n.requests == AllQueries(args)
  {
    var attempts := AttemptsOf(fetch);
    var tries := Tries(args);
    var failures := AllFailures(fetch, args);
    forall k | 0 <= k < |tries|
      ensures FailsAt(attempts, tries, k)
      ensures FailureAt(attempts, tries, k) == failures[k]
    {
      assert attempts(tries[k].query) == Attempt(fetch(CapabilitiesQuery(Versions[k], args)));
    }
    EveryAttemptFails(attempts, tries, 0);
    var n := NegotiateFrom(attempts, tries, 0);
    assert forall k :: 0 <= k < |tries| ==> n.failures[k] == failures[k];
    assert n.failures == failures;
    assert n.requests == AllQueries(args);
  }

  /** When all five versions fail, five requests are sent, one per version
      in order, and after the styles warning (if any) come exactly five
      errors, one per attempt in the same order; no cross-check runs. With
      `RunPastParameters`, this is what `check_wms` appends after the URL
      errors. */
  lemma AllVersionsFail(src: WmsSource, args: map<string, string>, fetch: Query -> Response)
    requires "version" in args && "format" in args
    requires forall i :: 0 <= i < |Versions| ==> Attempt(fetch(CapabilitiesQuery(Versions[i], args))).Failure?
    ensures var o := Negotiated(src, args, fetch);
      && !o.crashed
      && o.requests == AllQueries(args)
      && o.report == Report([], if "styles" in args then [] else [StylesMissing], AllFailures(fetch, args))
  {
    NegotiationAllFail(fetch, args);
  }

  /** Lines 173-180. */
  method CheckUrl(url: string, urlValid: string -> bool, sink: MessageSink)
    modifies sink
    ensures sink.Contents() == old(sink.Contents()).Then(Errors(UrlErrors(url, urlValid)))
  {
    if !urlValid(RemoveBraces(url)) {
      sink.Error(UrlValidationError(url));
    }
    var missing := Absent(Placeholders, url);
    if |missing| > 0 {
      sink.Error(MissingPlaceholders(missing));
    }
  }

  /** `for msg in exceptions: error_msgs.append(msg)`. */
  method ReportFailures(failures: seq<Msg>, sink: MessageSink)
    modifies sink
    ensures sink.Contents() == old(sink.Contents()).Then(Errors(failures))
  {
    ghost var start := sink.Contents();
    var i := 0;
    while i < |failures|
      invariant 0 <= i <= |failures|
      invariant sink.Contents() == start.Then(Errors(failures[..i]))
    {
      assert failures[..i + 1] == failures[..i] + [failures[i]];
      sink.Error(failures[i]);
      i := i + 1;
    }
    assert failures[..i] == failures;
  }

  /** Lines 250-259. */
  method CheckUnknownLayers(names: seq<string>, layers: map<Text, Layer>, sink: MessageSink)
    modifies sink
    ensures sink.Contents() == old(sink.Contents()).Then(Errors(UnknownLayerErrors(names, layers)))
  {
    var unknown := FindUnadvertised(names, layers);
    if |unknown| > 0 {
      sink.Error(LayersNotAdvertised(unknown));
    }
  }

  /** Lines 261-273. */
  method CheckStyles(names: seq<string>, args: map<string, string>, layers: map<Text, Layer>, sink: MessageSink)
    modifies sink
    ensures sink.Contents() == old(sink.Contents()).Then(Errors(StyleErrors(names, args, layers)))
  {
    if "styles" in args {
      var style := args["styles"];
      if !StyleExempt(style, |names|) {
        var styles := Split(style, ',');
        if |styles| != |names| {
          sink.Error(StyleCountMismatch);
        } else {
          ReportStyleMismatches(names, styles, layers, sink);
        }
      }
    }
  }

  /** Lines 275-289. */
  method CheckProjections(src: WmsSource, names: seq<string>, layers: map<Text, Layer>, sink: MessageSink)
    modifies sink
    ensures sink.Contents() == old(sink.Contents()).Then(Errors(ProjectionErrors(src, names, layers)))
  {
    match src.availableProjections {
      case None =>
        sink.Error(MissingAvailableProjections);
      case Some(projections) =>
        ReportCrs(names, projections, layers, sink);
    }
  }

  /** Lines 250-289: the layer, style and CRS checks. */
  method CheckLayers(src: WmsSource, args: map<string, string>, layers: map<Text, Layer>, sink: MessageSink)
    requires "layers" in args
    modifies sink
    ensures sink.Contents() == old(sink.Contents()).Then(Errors(LayerErrors(src, args, layers)))
  {
    ghost var start := sink.Contents();
    var names := Split(args["layers"], ',');
    ghost var unknown, styles, projections := UnknownLayerErrors(names, layers), StyleErrors(names, args, layers), ProjectionErrors(src, names, layers);
    assert LayerErrors(src, args, layers) == unknown + styles + projections;
    CheckUnknownLayers(names, layers, sink);
    CheckStyles(names, args, layers, sink);
    CheckProjections(src, names, layers, sink);
    ErrorsInTurn(start, unknown, styles, projections);
  }

  /** Lines 296-303, once every format has a text. */
  method CheckFormats(format: string, fs: seq<string>, sink: MessageSink)
    modifies sink
    ensures sink.Contents() == old(sink.Contents()).Then(Report([], JpegWarnings(format, fs), FormatErrors(format, fs)))
  {
    if format !in fs {
      sink.Error(FormatNotAdvertised(format, fs));
    }
    if !Contains(format, "jpeg") && Contains(Join(fs, "', '"), "jpeg") {
      sink.Warn(JpegAvailable(format, fs));
    }
  }

  /** Lines 249-303, once capabilities are in hand; `true` when the format
      join raises. */
  method CheckAgainst(src: WmsSource, args: map<string, string>, caps: Capabilities, sink: MessageSink)
    returns (crashed: bool)
    requires "version" in args && "format" in args
    modifies sink
    ensures sink.Contents() == old(sink.Contents()).Then(CrossChecks(src, args, caps).report)
    ensures crashed == CrossChecks(src, args, caps).crashed
  {
    ghost var start := sink.Contents();
    ghost var checked := CrossChecks(src, args, caps);
    if "layers" in args {
      CheckLayers(src, args, caps.layers, sink);
    }
    ghost var layerErrors := if "layers" in args then LayerErrors(src, args, caps.layers) else [];
    ghost var afterLayers := sink.Contents();
    assert afterLayers == start.Then(Errors(layerErrors));
    if LexLess(args["version"], caps.version) {
      sink.Warn(VersionBehind(args["version"], caps.version));
    }
    ghost var versionWarnings := VersionWarnings(args["version"], caps.version);
    assert sink.Contents() == afterLayers.Then(Report([], versionWarnings, []));
    ThenAssociative(start, Errors(layerErrors), Report([], versionWarnings, []));
    ghost var checkedSoFar := Report([], versionWarnings, layerErrors);
    assert sink.Contents() == start.Then(checkedSoFar);
    var fs := FormatStrings(caps.formats);
    if fs.None? {
      assert checked == Checked(checkedSoFar, true);
      crashed := true;
    } else {
      ghost var format := args["format"];
      ghost var formatReport := Report([], JpegWarnings(format, fs.value), FormatErrors(format, fs.value));
      assert checked == Checked(checkedSoFar.Then(formatReport), false);
      CheckFormats(args["format"], fs.value, sink);
      ThenAssociative(start, checkedSoFar, formatReport);
      crashed := false;
    }
  }

  /** Lines 204-247 and what follows, once every mandatory parameter is present. */
  method CheckNegotiated(src: WmsSource, args: map<string, string>, fetch: Query -> Response, sink: MessageSink)
    returns (requests: seq<Query>, crashed: bool)
    requires "version" in args && "format" in args
    modifies sink
    ensures sink.Contents() == old(sink.Contents()).Then(Negotiated(src, args, fetch).report)
    ensures requests == Negotiated(src, args, fetch).requests
    ensures crashed == Negotiated(src, args, fetch).crashed
  {
    ghost var start := sink.Contents();
    ghost var outcome := Negotiated(src, args, fetch);
    ghost var stylesWarning := Report([], if "styles" in args then [] else [StylesMissing], []);
    if "styles" !in args {
      sink.Warn(StylesMissing);
    }
    assert sink.Contents() == start.Then(stylesWarning);
    var n := Negotiate(fetch, args);
    requests := n.requests;
    if n.caps.None? {
      assert outcome == WmsOutcome(stylesWarning.Then(Errors(n.failures)), n.requests, false);
      ReportFailures(n.failures, sink);
      crashed := false;
      ThenAssociative(start, stylesWarning, Errors(n.failures));
    } else {
      ghost var checked := CrossChecks(src, args, n.caps.value);
      assert outcome == WmsOutcome(stylesWarning.Then(checked.report), n.requests, checked.crashed);
      crashed := CheckAgainst(src, args, n.caps.value, sink);
      ThenAssociative(start, stylesWarning, checked.report);
    }
  }

  /** `check_wms`; returns the GetCapabilities queries it sent and whether it
      ended in an uncaught exception. */
  method CheckWms(src: WmsSource, urlValid: string -> bool, fetch: Query -> Response, sink: MessageSink)
    returns (requests: seq<Query>, crashed: bool)
    modifies sink
    ensures sink.Contents() == old(sink.Contents()).Then(WmsRun(src, urlValid, fetch).report)
    ensures requests == WmsRun(src, urlValid, fetch).requests
    ensures crashed == WmsRun(src, urlValid, fetch).crashed
  {
    ghost var start := sink.Contents();
    ghost var outcome := WmsRun(src, urlValid, fetch);
    ghost var urlErrors := Errors(UrlErrors(src.url, urlValid));
    CheckUrl(src.url, urlValid, sink);
    var args := BuildArgs(src.query);
    var missing := FindMissingParameters(args);
    if missing != {} {
      assert outcome == WmsOutcome(urlErrors.Then(Errors([MissingParameters(missing)])), [], false);
      sink.Error(MissingParameters(missing));
      requests, crashed := [], false;
      ThenAssociative(start, urlErrors, Errors([MissingParameters(missing)]));
    } else {
      MissingOfMeaning(args);
      assert "version" in GetMapParameters && "format" in GetMapParameters;
      ghost var rest := Negotiated(src, args, fetch);
      assert outcome == WmsOutcome(urlErrors.Then(rest.report), rest.requests, rest.crashed);
      requests, crashed := CheckNegotiated(src, args, fetch, sink);
      ThenAssociative(start, urlErrors, rest.report);
    }
  }

  // ---------------------------------------------------------------------
  // check_wms_endpoint (lines 305-333)
  // ---------------------------------------------------------------------

  /** `check_wms_endpoint`: one `Exception:` error when fetching or parsing
      the endpoint fails, nothing otherwise. */
  function EndpointErrors(response: Response): (errors: seq<Msg>)
    ensures |errors| <= 1
    ensures errors == [] <==> response.Body? && CapabilitiesOf(response.doc).Success?
  {
    match Attempt(response)
    case Success(_) => []
    case Failure(reason) => [Exception(reason)]
  }

  method CheckWmsEndpoint(url: string, fetchUrl: string -> Response, sink: MessageSink)
    modifies sink
    ensures sink.Contents() == old(sink.Contents()).Then(Errors(EndpointErrors(fetchUrl(url))))
  {
    var result := ReadResponse(fetchUrl(url));
    if result.Failure? {
      sink.Error(Exception(result.error));
    }
  }
}
