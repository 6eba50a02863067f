/**
 * The routing middleware of core/proxy/middleware/pocker.go: configuration
 * checks at construction, then per request the deployment lookup, the four
 * access gates in a fixed order, the legacy/local/neighbor classification,
 * and for legacy deployments the Host rewrite, the secret header and the
 * choice of upstream proxy. Proxying itself, gin and TLS are not modelled:
 * a request's outcome is a Reply value.
 */
module Pocker {
  import opened Wrappers
  import Ubermax

  datatype PockerMiddlewareConfig = PockerMiddlewareConfig(
    legacyOriginUrl: string,
    legacyOriginHelperProxyUrl: string,
    legacyApexDomain: string,
    legacyOriginHelperMachineId: string,
    phSecret: string)

  /** url.Parse, as far as the middleware needs it: None when the text parses, else the error text. */
  type UrlParser = string -> Option<string>

  /** The state a successfully built middleware closes over. */
  datatype Pocker = Pocker(
    legacyOriginUrl: string,
    legacyOriginHelperProxyUrl: string,
    legacyApexDomain: string,
    legacyOriginHelperMachineId: string,
    secret: string,
    thisMachineId: string)
  {
    predicate IsLegacyOriginHelper() {
      thisMachineId == legacyOriginHelperMachineId
    }
  }

  // ---------------------------------------------------------------------------
  // Checks run in order; the first failing one decides.
  // ---------------------------------------------------------------------------

  /** The first failing check of `checks`, or Pass when all pass. */
  function FirstFailure<E>(checks: seq<Outcome<E>>): (r: Outcome<E>)
    ensures r.Pass? <==> forall i :: 0 <= i < |checks| ==> checks[i].Pass?
    ensures r.Fail? ==> exists i :: 0 <= i < |checks| && checks[i] == r && forall j :: 0 <= j < i ==> checks[j].Pass?
  {
    if checks == [] then Pass
    else if checks[0].Fail? then checks[0]
    else
      var r := FirstFailure(checks[1..]);
      assert r.Fail? ==> exists i :: 1 <= i < |checks| && checks[i] == r && forall j :: 0 <= j < i ==> checks[j].Pass? by {
        if r.Fail? {
          var i :| 0 <= i < |checks[1..]| && checks[1..][i] == r && forall j :: 0 <= j < i ==> checks[1..][j].Pass?;
          assert forall j :: 0 <= j < i + 1 ==> checks[j].Pass? by {
            forall j | 0 <= j < i + 1
              ensures checks[j].Pass?
            {
              if j > 0 {
                assert checks[j] == checks[1..][j - 1];
              }
            }
          }
        }
      }
      r
  }

  lemma FirstFailureStep<E>(checks: seq<Outcome<E>>)
    requires checks != []
    ensures FirstFailure(checks) == if checks[0].Fail? then checks[0] else FirstFailure(checks[1..])
  {
  }

  /** Runs FirstFailureStep down a list of checks. */
  lemma FirstFailureUnfold<E>(checks: seq<Outcome<E>>)
    ensures FirstFailure(checks) == if checks == [] then Pass
                                    else if checks[0].Fail? then checks[0]
                                    else FirstFailure(checks[1..])
  {
    if checks != [] {
      FirstFailureStep(checks);
    }
  }

  /** PockerMiddleware's construction checks, in the order it makes them, each with its panic message. */
  function ConfigChecks(config: PockerMiddlewareConfig, parse: UrlParser): (c: seq<Outcome<string>>)
    ensures |c| == 5
    ensures (forall i :: 0 <= i < |c| ==> c[i].Pass?) <==>
              parse(config.legacyOriginUrl).None? && parse(config.legacyOriginHelperProxyUrl).None? &&
              config.legacyApexDomain != "" && config.legacyOriginHelperMachineId != "" && config.phSecret != ""
  {
    var c :=
      [ if parse(config.legacyOriginUrl).Some? then Fail("Failed to parse legacy origin url: " + parse(config.legacyOriginUrl).value) else Pass,
        if parse(config.legacyOriginHelperProxyUrl).Some? then Fail("Failed to parse legacy origin helper proxy url: " + parse(config.legacyOriginHelperProxyUrl).value) else Pass,
        if config.legacyApexDomain == "" then Fail("Legacy apex domain is required") else Pass,
        if config.legacyOriginHelperMachineId == "" then Fail("Legacy origin helper machine id is required") else Pass,
        if config.phSecret == "" then Fail("PH secret is required") else Pass ];
    assert (forall i :: 0 <= i < |c| ==> c[i].Pass?) <==> c[0].Pass? && c[1].Pass? && c[2].Pass? && c[3].Pass? && c[4].Pass?;
    c
  }

  /**
   * PockerMiddleware's construction: a panic becomes a Failure carrying its
   * message. The middleware is built exactly when both URLs parse and the
   * apex domain, the helper machine id and the secret are all non-empty.
   */
  function NewPocker(config: PockerMiddlewareConfig, thisMachineId: string, parse: UrlParser): (r: Result<Pocker, string>)
    ensures r.Success? <==>
              parse(config.legacyOriginUrl).None? && parse(config.legacyOriginHelperProxyUrl).None? &&
              config.legacyApexDomain != "" && config.legacyOriginHelperMachineId != "" && config.phSecret != ""
    ensures r.Success? ==>
              r.value.legacyOriginUrl == config.legacyOriginUrl &&
              r.value.legacyOriginHelperProxyUrl == config.legacyOriginHelperProxyUrl &&
              r.value.legacyApexDomain == config.legacyApexDomain &&
              r.value.legacyOriginHelperMachineId == config.legacyOriginHelperMachineId &&
              r.value.secret == config.phSecret && r.value.thisMachineId == thisMachineId
  {
    if parse(config.legacyOriginUrl).Some? then
      Failure("Failed to parse legacy origin url: " + parse(config.legacyOriginUrl).value)
    else if parse(config.legacyOriginHelperProxyUrl).Some? then
      Failure("Failed to parse legacy origin helper proxy url: " + parse(config.legacyOriginHelperProxyUrl).value)
    else if config.legacyApexDomain == "" then
      Failure("Legacy apex domain is required")
    else if config.legacyOriginHelperMachineId == "" then
      Failure("Legacy origin helper machine id is required")
    else if config.phSecret == "" then
      Failure("PH secret is required")
    else
      Success(Pocker(config.legacyOriginUrl, config.legacyOriginHelperProxyUrl, config.legacyApexDomain,
                     config.legacyOriginHelperMachineId, config.phSecret, thisMachineId))
  }

  /** Construction fails with the message of the first failing check, in the source's order. */
  lemma NewPockerFirstFailure(config: PockerMiddlewareConfig, thisMachineId: string, parse: UrlParser)
    ensures NewPocker(config, thisMachineId, parse).Success? <==> FirstFailure(ConfigChecks(config, parse)).Pass?
    ensures NewPocker(config, thisMachineId, parse).Failure? ==>
              FirstFailure(ConfigChecks(config, parse)) == Fail(NewPocker(config, thisMachineId, parse).error)
  {
    var c := ConfigChecks(config, parse);
    FirstFailureUnfold(c);
    FirstFailureUnfold(c[1..]);
    FirstFailureUnfold(c[1..][1..]);
    FirstFailureUnfold(c[1..][1..][1..]);
    FirstFailureUnfold(c[1..][1..][1..][1..]);
    FirstFailureUnfold(c[1..][1..][1..][1..][1..]);
  }

  // ---------------------------------------------------------------------------
  // Per request: the deployment as the middleware sees it, and the gates.
  // ---------------------------------------------------------------------------

  /** What the request handler asks of a resolved deployment. */
  datatype DeploymentView = DeploymentView(
    userVerified: bool,
    userSuspended: bool,
    userSuspendedReason: string,
    instanceSuspended: bool,
    instanceSuspendedReason: string,
    instancePoweredOn: bool,
    machineId: string)
  {
    /** A deployment is legacy when it has no machine, as the only deployment service defines it. */
    predicate IsLegacy() {
      machineId == ""
    }
  }

  /** The four gates, in the order they are checked, with their 403 bodies. */
  function GateChecks(d: DeploymentView): (c: seq<Outcome<string>>)
    ensures |c| == 4
    ensures (forall i :: 0 <= i < |c| ==> c[i].Pass?) <==>
              d.userVerified && !d.userSuspended && !d.instanceSuspended && d.instancePoweredOn
  {
    var c :=
      [ if !d.userVerified then Fail("Please verify your PocketHost account.") else Pass,
        if d.userSuspended then Fail(d.userSuspendedReason) else Pass,
        if d.instanceSuspended then Fail(d.instanceSuspendedReason) else Pass,
        if !d.instancePoweredOn then Fail("Instance is not powered on") else Pass ];
    assert (forall i :: 0 <= i < |c| ==> c[i].Pass?) <==> c[0].Pass? && c[1].Pass? && c[2].Pass? && c[3].Pass?;
    c
  }

  /** The security checks of the request handler: the 403 body of the first gate that fails, if any. */
  function FailingGate(d: DeploymentView): (r: Outcome<string>)
    ensures r == FirstFailure(GateChecks(d))
  {
    var c := GateChecks(d);
    FirstFailureUnfold(c);
    FirstFailureUnfold(c[1..]);
    FirstFailureUnfold(c[1..][1..]);
    FirstFailureUnfold(c[1..][1..][1..]);
    FirstFailureUnfold(c[1..][1..][1..][1..]);
    if !d.userVerified then Fail("Please verify your PocketHost account.")
    else if d.userSuspended then Fail(d.userSuspendedReason)
    else if d.instanceSuspended then Fail(d.instanceSuspendedReason)
    else if !d.instancePoweredOn then Fail("Instance is not powered on")
    else Pass
  }

  /** A verified user who is suspended is told the user's reason, even when the instance is suspended too or powered off. */
  lemma UserReasonBeforeInstance(d: DeploymentView)
    requires d.userVerified && d.userSuspended
    ensures FailingGate(d) == Fail(d.userSuspendedReason)
  {
  }

  /** Which of the three handlers run. */
  datatype Handlers = Handlers(isLegacy: bool, isLocal: bool, isNeighbor: bool)

  /** The handler selection: legacy without a machine id, local on this machine, neighbor otherwise. */
  function Classify(d: DeploymentView, thisMachineId: string): (h: Handlers)
    ensures h.isLegacy <==> d.machineId == ""
    ensures h.isNeighbor ==> !h.isLegacy && !h.isLocal
    ensures h.isLegacy || h.isLocal || h.isNeighbor
  {
    Handlers(d.IsLegacy(), d.machineId == thisMachineId, !d.IsLegacy() && d.machineId != thisMachineId)
  }

  /** On a machine with an id, exactly one handler runs. */
  lemma ExactlyOneHandler(d: DeploymentView, thisMachineId: string)
    requires thisMachineId != ""
    ensures var h := Classify(d, thisMachineId);
            (h.isLegacy && !h.isLocal && !h.isNeighbor) ||
            (!h.isLegacy && h.isLocal && !h.isNeighbor) ||
            (!h.isLegacy && !h.isLocal && h.isNeighbor)
  {
  }

  /** On a machine without an id, a legacy deployment is also local, and both handlers run. */
  lemma LegacyIsLocalWithoutMachineId(d: DeploymentView)
    requires d.IsLegacy()
    ensures Classify(d, "").isLegacy && Classify(d, "").isLocal && !Classify(d, "").isNeighbor
  {
  }

  // ---------------------------------------------------------------------------
  // The legacy rewrite.
  // ---------------------------------------------------------------------------

  /** strings.Split(s, sep)[0]: the text before the first `sep`, or all of `s`. */
  function PrefixBefore(s: string, sep: char): (r: string)
    ensures r <= s && sep !in r
    ensures |r| < |s| ==> s[|r|] == sep
    decreases |s|
  {
    if s == [] || s[0] == sep then [] else [s[0]] + PrefixBefore(s[1..], sep)
  }

  /**
   * The subdomain kept by the legacy rewrite: the host with any port and
   * everything from its first dot removed, that is the longest prefix of the
   * host holding neither ':' nor '.'.
   */
  function FirstLabel(host: string): (first: string)
    ensures first <= host && ':' !in first && '.' !in first
    ensures |first| < |host| ==> host[|first|] == ':' || host[|first|] == '.'
  {
    var h := PrefixBefore(host, ':');
    var first := PrefixBefore(h, '.');
    assert forall i :: 0 <= i < |first| ==> first[i] == h[i] == host[i];
    first
  }

  /** The upstream a legacy request is handed to. */
  datatype Proxy = LegacyOrigin(originUrl: string) | LegacyOriginHelper(helperUrl: string)

  /** Legacy traffic goes through the helper machine, unless this machine is the helper. */
  function LegacyProxyOf(p: Pocker): (via: Proxy)
    ensures via.LegacyOrigin? <==> p.thisMachineId == p.legacyOriginHelperMachineId
    ensures via.LegacyOrigin? ==> via.originUrl == p.legacyOriginUrl
    ensures via.LegacyOriginHelper? ==> via.helperUrl == p.legacyOriginHelperProxyUrl
  {
    if !p.IsLegacyOriginHelper() then LegacyOriginHelper(p.legacyOriginHelperProxyUrl) else LegacyOrigin(p.legacyOriginUrl)
  }

  /** The parts of the incoming request the middleware reads and rewrites. */
  class Request {
    var host: string
    var header: map<string, seq<string>>

    constructor (host: string, header: map<string, seq<string>>)
      ensures this.host == host && this.header == header
    {
      this.host := host;
      this.header := header;
    }
  }

  /**
   * handleLegacy: point the request at "<first label>.<apex>", in both the
   * request's Host and its Host header, add the shared secret header, and
   * pick the upstream proxy.
   */
  method HandleLegacy(p: Pocker, req: Request) returns (via: Proxy)
    modifies req
    ensures req.host == FirstLabel(old(req.host)) + "." + p.legacyApexDomain
    ensures req.header == old(req.header)["Host" := [req.host]]["X-Pockethost-Secret" := [p.secret]]
    ensures via == LegacyProxyOf(p)
  {
    var host := PrefixBefore(req.host, ':');
    var subdomain := PrefixBefore(host, '.');
    var finalHost := subdomain + "." + p.legacyApexDomain;
    req.host := finalHost;
    req.header := req.header["Host" := [finalHost]];
    req.header := req.header["X-Pockethost-Secret" := [p.secret]];
    if !p.IsLegacyOriginHelper() {
      via := LegacyOriginHelper(p.legacyOriginHelperProxyUrl);
    } else {
      via := LegacyOrigin(p.legacyOriginUrl);
    }
  }

  // ---------------------------------------------------------------------------
  // The request handler.
  // ---------------------------------------------------------------------------

  /** How a request ends. */
  datatype Reply =
    | Abort(status: int, body: string)
      // c.String(status, body) then c.Abort()
    | Panic(via: Option<Proxy>, message: string)
      // a handler panicked, after legacy proxying when `via` is set
    | Next(via: Option<Proxy>)
      // every handler returned; c.Next()

  const StatusForbidden := 403
  const StatusServiceUnavailable := 503

  /** The handler's decision for a request whose deployment lookup gave `resolved`. */
  function Decide(p: Pocker, resolved: Result<DeploymentView, string>): (r: Reply)
    ensures r.Abort? <==> resolved.Failure? || FailingGate(resolved.value).Fail?
    ensures r.Abort? ==> r.status == if resolved.Failure? then StatusServiceUnavailable else StatusForbidden
    ensures r.Next? ==> resolved.Success? && resolved.value.IsLegacy() && r.via == Some(LegacyProxyOf(p))
    ensures !r.Abort? ==> resolved.Success? && (r.via.Some? <==> resolved.value.IsLegacy())
  {
    match resolved
    case Failure(e) => Abort(StatusServiceUnavailable, e)
    case Success(d) =>
      match FailingGate(d)
      case Fail(msg) => Abort(StatusForbidden, msg)
      case Pass =>
        var h := Classify(d, p.thisMachineId);
        var via := if h.isLegacy then Some(LegacyProxyOf(p)) else None;
        if h.isLocal then Panic(via, "handle local")
        else if h.isNeighbor then Panic(via, "Pass to neighbor")
        else Next(via)
  }

  /**
   * A failed lookup answers 503 with the error and checks no gate; a failing
   * gate answers 403 with that gate's message; otherwise the request is routed.
   */
  lemma DecideAborts(p: Pocker, resolved: Result<DeploymentView, string>)
    ensures resolved.Failure? ==> Decide(p, resolved) == Abort(503, resolved.error)
    ensures resolved.Success? ==>
              (Decide(p, resolved).Abort? <==> FirstFailure(GateChecks(resolved.value)).Fail?)
    ensures resolved.Success? && Decide(p, resolved).Abort? ==>
              Decide(p, resolved) == Abort(403, FirstFailure(GateChecks(resolved.value)).error)
  {
  }

  /**
   * On a machine with an id, a deployment that passes every gate is proxied
   * to the legacy upstream when it is legacy, and otherwise reaches the
   * local or the neighbor handler, which both panic.
   */
  lemma DecideRoutes(p: Pocker, d: DeploymentView)
    requires p.thisMachineId != "" && FailingGate(d).Pass?
    ensures d.IsLegacy() ==> Decide(p, Success(d)) == Next(Some(LegacyProxyOf(p)))
    ensures !d.IsLegacy() && d.machineId == p.thisMachineId ==> Decide(p, Success(d)) == Panic(None, "handle local")
    ensures !d.IsLegacy() && d.machineId != p.thisMachineId ==> Decide(p, Success(d)) == Panic(None, "Pass to neighbor")
  {
    ExactlyOneHandler(d, p.thisMachineId);
  }

  /**
   * The request handler. The deployment is looked up by the request's Host;
   * a legacy deployment that passes the gates has its request rewritten, and
   * no other request is changed.
   */
  method Serve(p: Pocker, req: Request, resolve: string -> Result<DeploymentView, string>) returns (reply: Reply)
    modifies req
    ensures reply == Decide(p, resolve(old(req.host)))
    ensures var resolved := resolve(old(req.host));
            if resolved.Success? && FailingGate(resolved.value).Pass? && resolved.value.IsLegacy() then
              req.host == FirstLabel(old(req.host)) + "." + p.legacyApexDomain &&
              req.header == old(req.header)["Host" := [req.host]]["X-Pockethost-Secret" := [p.secret]]
            else
              req.host == old(req.host) && req.header == old(req.header)
  {
    var resolved := resolve(req.host);
    if resolved.Failure? {
      return Abort(StatusServiceUnavailable, resolved.error);
    }
    var d := resolved.value;
    if !d.userVerified {
      return Abort(StatusForbidden, "Please verify your PocketHost account.");
    }
    if d.userSuspended {
      return Abort(StatusForbidden, d.userSuspendedReason);
    }
    if d.instanceSuspended {
      return Abort(StatusForbidden, d.instanceSuspendedReason);
    }
    if !d.instancePoweredOn {
      return Abort(StatusForbidden, "Instance is not powered on");
    }
    var isLegacy := d.IsLegacy();
    var isLocal := d.machineId == p.thisMachineId;
    var isNeighbor := !isLegacy && d.machineId != p.thisMachineId;
    var via: Option<Proxy> := None;
    if isLegacy {
      var proxy := HandleLegacy(p, req);
      via := Some(proxy);
    }
    if isLocal {
      return Panic(via, "handle local");
    }
    if isNeighbor {
      return Panic(via, "Pass to neighbor");
    }
    reply := Next(via);
  }

  // ---------------------------------------------------------------------------
  // The middleware as wired: deployments come from the stand-in service.
  // ---------------------------------------------------------------------------

  function ViewOf(d: Ubermax.Deployment): (v: DeploymentView)
    ensures v.IsLegacy() <==> d.IsLegacy()
  {
    DeploymentView(d.IsUserVerified(), d.IsUserSuspended(), d.UserSuspendedReason(),
                   d.IsInstanceSuspended(), d.InstanceSuspendedReason(), d.IsInstancePoweredOn(), d.MachineId())
  }

  function ResolveByIdentifier(host: string): Result<DeploymentView, string> {
    match Ubermax.GetDeploymentByIdentifier(host)
    case Success(d) => Success(ViewOf(d))
    case Failure(e) => Failure(e)
  }

  /**
   * With the stand-in service every request passes all four gates and is
   * treated as legacy: on a machine with an id it is proxied to the legacy
   * upstream and handed on; on a machine without one the local handler also
   * runs and panics after the proxying.
   */
  lemma EveryRequestIsLegacy(p: Pocker, host: string)
    ensures ResolveByIdentifier(host).Success? && FailingGate(ResolveByIdentifier(host).value).Pass?
    ensures p.thisMachineId != "" ==> Decide(p, ResolveByIdentifier(host)) == Next(Some(LegacyProxyOf(p)))
    ensures p.thisMachineId == "" ==> Decide(p, ResolveByIdentifier(host)) == Panic(Some(LegacyProxyOf(p)), "handle local")
  {
    var d := ResolveByIdentifier(host).value;
    if p.thisMachineId != "" {
      DecideRoutes(p, d);
    }
  }
}
