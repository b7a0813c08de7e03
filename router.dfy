/** The route table the Go API's `main` builds, and the decision it makes for every
    request: the CORS middleware answers every OPTIONS request with 204 first, an unknown
    method and path gives 404, and a known route runs its group's middlewares
    (`AuthMiddleware`, then `RBACMiddleware` with the group's roles) before its handler.

    A request path is matched segment by segment; a pattern segment starting with `:` is
    a path parameter and matches any non-empty segment. */
module Router {
  import opened Options
  import opened Text
  import opened Middleware

  const RolePatient := "Patient"
  const RoleClinic := "Clinic"
  const RoleScanning := "Scanning"
  const RoleAdmin := "Admin"

  /** The middlewares a route group adds: none, authentication only, or authentication
      followed by the role check. */
  datatype Guard = Public | SignedIn | RolesOnly(allowed: seq<string>)

  datatype Endpoint = Endpoint(verb: string, path: seq<string>, handler: string)
  datatype Route = Route(verb: string, pattern: seq<string>, handler: string, guard: Guard)

  /** `router.Group(prefix, middlewares...)` with its endpoints registered on it. */
  function Group(prefix: seq<string>, guard: Guard, endpoints: seq<Endpoint>): (routes: seq<Route>)
    ensures |routes| == |endpoints|
    ensures forall i :: 0 <= i < |endpoints| ==>
      routes[i] == Route(endpoints[i].verb, prefix + endpoints[i].path, endpoints[i].handler, guard)
  {
    seq(|endpoints|, i requires 0 <= i < |endpoints| =>
      Route(endpoints[i].verb, prefix + endpoints[i].path, endpoints[i].handler, guard))
  }

  /** The routes registered on the router itself, outside any group. */
  const PublicRoutes: seq<Route> := [
    Route("GET", [""], "Index", Public),
    Route("GET", ["v1", "status"], "Status", Public),
    Route("GET", ["health"], "Health", Public)]

  const AuthEndpoints: seq<Endpoint> := [
    Endpoint("POST", ["login"], "LoginHandler"),
    Endpoint("POST", ["otp", "request"], "RequestOTP"),
    Endpoint("POST", ["otp", "verify"], "VerifyOTP")]
  const AuthRoutes: seq<Route> := Group(["v1", "auth"], Public, AuthEndpoints)

  const PatientEndpoints: seq<Endpoint> := [
    Endpoint("GET", ["prescriptions"], "GetPatientPrescriptions"),
    Endpoint("POST", ["adherence"], "LogAdherence"),
    Endpoint("GET", ["reports"], "GetPatientReports")]
  const PatientRoutes: seq<Route> := Group(["v1", "patient"], RolesOnly([RolePatient]), PatientEndpoints)

  const ChatbotEndpoints: seq<Endpoint> := [
    Endpoint("POST", ["query"], "ChatbotQueryHandler")]
  const ChatbotRoutes: seq<Route> := Group(["v1", "chatbot"], RolesOnly([RolePatient]), ChatbotEndpoints)

  const ClinicEndpoints: seq<Endpoint> := [
    Endpoint("POST", ["prescriptions", "new"], "CreateNewPrescription"),
    Endpoint("GET", ["patients", "search"], "SearchPatients"),
    Endpoint("GET", ["patients", ":id", "full"], "GetPatientFullRecord"),
    Endpoint("GET", ["drugs"], "GetDrugDatabase"),
    Endpoint("GET", ["drugs", "search"], "SearchDrugs")]
  const ClinicRoutes: seq<Route> := Group(["v1", "clinic"], SignedIn, ClinicEndpoints)

  const ScanningEndpoints: seq<Endpoint> := [
    Endpoint("POST", ["reports", "upload"], "UploadTechnicalReport"),
    Endpoint("POST", ["reports", ":id", "finalize"], "FinalizeAndShareReport")]
  const ScanningRoutes: seq<Route> := Group(["v1", "scanning"], RolesOnly([RoleScanning]), ScanningEndpoints)

  const AdminEndpoints: seq<Endpoint> := [
    Endpoint("POST", ["drugs", "upload"], "UploadDrugCSV")]
  const AdminRoutes: seq<Route> := Group(["v1", "admin"], RolesOnly([RoleAdmin, RoleClinic]), AdminEndpoints)

  const Routes: seq<Route> :=
    PublicRoutes + AuthRoutes + PatientRoutes + ChatbotRoutes + ClinicRoutes + ScanningRoutes + AdminRoutes

  predicate IsParam(segment: string) {
    |segment| > 0 && segment[0] == ':'
  }

  predicate SegmentMatches(pattern: string, segment: string) {
    if IsParam(pattern) then segment != "" else pattern == segment
  }

  predicate PatternMatches(pattern: seq<string>, segments: seq<string>) {
    |pattern| == |segments| && forall k :: 0 <= k < |segments| ==> SegmentMatches(pattern[k], segments[k])
  }

  /** The segments of a request path: the pieces between the slashes after the leading
      one, so `/` is one empty segment. A path without the leading slash has none and
      matches no route. */
  function PathSegments(path: string): (segments: seq<string>)
    ensures segments == [] <==> path == [] || path[0] != '/'
    ensures segments != [] ==> Join(segments, '/') == path[1..]
    ensures forall k :: 0 <= k < |segments| ==> '/' !in segments[k]
  {
    if path == [] || path[0] != '/' then []
    else
      SplitJoin(path[1..], '/');
      Split(path[1..], '/')
  }

  /** The route registered for a method and a path, if any. */
  function Lookup(routes: seq<Route>, verb: string, segments: seq<string>): (r: Option<Route>)
    ensures r.Some? ==> r.value in routes && r.value.verb == verb && PatternMatches(r.value.pattern, segments)
    ensures r.None? <==> forall i :: 0 <= i < |routes| ==>
      !(routes[i].verb == verb && PatternMatches(routes[i].pattern, segments))
  {
    if routes == [] then None
    else if routes[0].verb == verb && PatternMatches(routes[0].pattern, segments) then Some(routes[0])
    else
      var rest := Lookup(routes[1..], verb, segments);
      assert forall i :: 1 <= i < |routes| ==> routes[i] == routes[1..][i - 1];
      if rest.Some? then
        assert routes[1..][0] in routes;
        rest
      else None
  }

  /** The route found is the earliest one in the table that matches. */
  lemma {:induction false} LookupFirst(routes: seq<Route>, verb: string, segments: seq<string>, i: nat)
    requires i < |routes| && routes[i].verb == verb && PatternMatches(routes[i].pattern, segments)
    requires forall j :: 0 <= j < i ==> !(routes[j].verb == verb && PatternMatches(routes[j].pattern, segments))
    ensures Lookup(routes, verb, segments) == Some(routes[i])
    decreases i
  {
    if i > 0 {
      assert !(routes[0].verb == verb && PatternMatches(routes[0].pattern, segments));
      LookupFirst(routes[1..], verb, segments, i - 1);
    }
  }

  /** The claims of the header's token, when it is well formed and validates. */
  function Bearer(header: string, validate: string -> Option<Claims>): Option<Claims> {
    match BearerToken(header)
    case None => None
    case Some(token) => validate(token)
  }

  /** The middlewares of a guard, run in order on an empty context. */
  function Admit(guard: Guard, header: string, validate: string -> Option<Claims>): (v: Verdict)
    ensures guard == Public ==> v == Next(map[])
    ensures guard != Public && v.Next? ==>
      && Bearer(header, validate).Some?
      && v.ctx == map[UserIdKey := Bearer(header, validate).value.id, UserRoleKey := Bearer(header, validate).value.role]
    ensures guard == SignedIn ==> (v.Next? <==> Bearer(header, validate).Some?)
    ensures guard.RolesOnly? ==> (v.Next? <==> Bearer(header, validate).Some? && Bearer(header, validate).value.role in guard.allowed)
    ensures v.Abort? && Bearer(header, validate).None? ==> v.status == 401
    ensures v.Abort? && Bearer(header, validate).Some? ==> v.status == 403
  {
    match guard
    case Public => Next(map[])
    case SignedIn => Authenticate(map[], header, validate)
    case RolesOnly(allowed) =>
      match Authenticate(map[], header, validate)
      case Abort(status, error) => Abort(status, error)
      case Next(ctx) => RbacVerdict(ctx, allowed)
  }

  /** What becomes of a request. */
  datatype Outcome =
    | Preflight                              // 204, from the CORS middleware
    | NotFound                               // 404
    | Refused(status: nat, error: string)    // a middleware aborted
    | Reached(handler: string, ctx: map<string, string>)

  function Decide(verb: string, path: string, header: string, validate: string -> Option<Claims>): (o: Outcome)
    ensures verb == "OPTIONS" ==> o == Preflight
    ensures verb != "OPTIONS" && Lookup(Routes, verb, PathSegments(path)).None? ==> o == NotFound
    ensures o.Reached? <==>
      && verb != "OPTIONS"
      && Lookup(Routes, verb, PathSegments(path)).Some?
      && Admit(Lookup(Routes, verb, PathSegments(path)).value.guard, header, validate).Next?
    ensures o.Reached? ==> o.handler == Lookup(Routes, verb, PathSegments(path)).value.handler
  {
    if verb == "OPTIONS" then Preflight
    else match Lookup(Routes, verb, PathSegments(path))
      case None => NotFound
      case Some(route) =>
        match Admit(route.guard, header, validate)
        case Abort(status, error) => Refused(status, error)
        case Next(ctx) => Reached(route.handler, ctx)
  }

  /** The guard of a route follows from the first two segments of any path it matches:
      the table gives every group's routes the group's middlewares. */
  lemma GuardOf(r: Route, segments: seq<string>)
    requires r in Routes && PatternMatches(r.pattern, segments)
    ensures |segments| < 2 ==> r.guard == Public
    ensures |segments| >= 2 && segments[0] == "v1" && (segments[1] == "patient" || segments[1] == "chatbot") ==>
      r.guard == RolesOnly([RolePatient])
    ensures |segments| >= 2 && segments[0] == "v1" && segments[1] == "clinic" ==> r.guard == SignedIn
    ensures |segments| >= 2 && segments[0] == "v1" && segments[1] == "scanning" ==> r.guard == RolesOnly([RoleScanning])
    ensures |segments| >= 2 && segments[0] == "v1" && segments[1] == "admin" ==> r.guard == RolesOnly([RoleAdmin, RoleClinic])
    ensures |segments| >= 2 && segments[0] == "v1" && (segments[1] == "auth" || segments == ["v1", "status"]) ==>
      r.guard == Public
    ensures r.guard == Public ==> |segments| < 2 || segments[1] == "auth" || segments == ["v1", "status"]
  {
    assert !IsParam("v1");
    if r in PublicRoutes {
      PublicShapes(r, segments);
    } else if r in AuthRoutes {
      UnderPrefix(r, ["v1", "auth"], Public, AuthEndpoints, segments);
    } else if r in PatientRoutes {
      UnderPrefix(r, ["v1", "patient"], RolesOnly([RolePatient]), PatientEndpoints, segments);
    } else if r in ChatbotRoutes {
      UnderPrefix(r, ["v1", "chatbot"], RolesOnly([RolePatient]), ChatbotEndpoints, segments);
    } else if r in ClinicRoutes {
      UnderPrefix(r, ["v1", "clinic"], SignedIn, ClinicEndpoints, segments);
    } else if r in ScanningRoutes {
      UnderPrefix(r, ["v1", "scanning"], RolesOnly([RoleScanning]), ScanningEndpoints, segments);
    } else {
      UnderPrefix(r, ["v1", "admin"], RolesOnly([RoleAdmin, RoleClinic]), AdminEndpoints, segments);
    }
  }

  /** The routes outside any group: `/`, `/health` and `/v1/status`. */
  lemma PublicShapes(r: Route, segments: seq<string>)
    requires r in PublicRoutes && PatternMatches(r.pattern, segments)
    ensures r.guard == Public && (|segments| < 2 || segments == ["v1", "status"])
  {
    if r == PublicRoutes[1] {
      assert r.pattern == ["v1", "status"];
      assert !IsParam("v1") && !IsParam("status");
      assert SegmentMatches(r.pattern[0], segments[0]) && SegmentMatches(r.pattern[1], segments[1]);
      assert segments == ["v1", "status"];
    }
  }

  /** A route of a group with a two-segment literal prefix matches only paths under it. */
  lemma UnderPrefix(r: Route, prefix: seq<string>, guard: Guard, endpoints: seq<Endpoint>, segments: seq<string>)
    requires r in Group(prefix, guard, endpoints) && PatternMatches(r.pattern, segments)
    requires |prefix| == 2 && !IsParam(prefix[0]) && !IsParam(prefix[1])
    ensures r.guard == guard && |segments| >= 2 && segments[0] == prefix[0] && segments[1] == prefix[1]
  {
    InGroup(r, prefix, guard, endpoints);
    assert r.pattern[0] == prefix[0] && r.pattern[1] == prefix[1];
    assert SegmentMatches(r.pattern[0], segments[0]) && SegmentMatches(r.pattern[1], segments[1]);
  }

  /** The route a request reaches, and the guard it passed. */
  lemma RouteOfReached(verb: string, path: string, header: string, validate: string -> Option<Claims>)
    returns (r: Route)
    requires Decide(verb, path, header, validate).Reached?
    ensures r in Routes && PatternMatches(r.pattern, PathSegments(path))
    ensures Admit(r.guard, header, validate).Next? && Decide(verb, path, header, validate).ctx == Admit(r.guard, header, validate).ctx
  {
    r := Lookup(Routes, verb, PathSegments(path)).value;
  }

  /** Every route under `/v1` except the auth group and `/v1/status` needs a valid token,
      and the handler's context holds exactly that token's id and role. */
  lemma ProtectedNeedsToken(verb: string, path: string, header: string, validate: string -> Option<Claims>)
    requires |PathSegments(path)| >= 2 && PathSegments(path)[1] != "auth"
    requires PathSegments(path) != ["v1", "status"]
    ensures Decide(verb, path, header, validate).Reached? ==>
      && Bearer(header, validate).Some?
      && Decide(verb, path, header, validate).ctx ==
           map[UserIdKey := Bearer(header, validate).value.id, UserRoleKey := Bearer(header, validate).value.role]
  {
    if Decide(verb, path, header, validate).Reached? {
      var r := RouteOfReached(verb, path, header, validate);
      GuardOf(r, PathSegments(path));
    }
  }

  /** The patient and chatbot groups admit exactly the valid tokens whose role is
      `Patient`, compared case-sensitively. */
  lemma PatientOnly(verb: string, path: string, header: string, validate: string -> Option<Claims>)
    requires |PathSegments(path)| >= 2 && PathSegments(path)[0] == "v1"
    requires PathSegments(path)[1] == "patient" || PathSegments(path)[1] == "chatbot"
    ensures Decide(verb, path, header, validate).Reached? <==>
      && verb != "OPTIONS" && Lookup(Routes, verb, PathSegments(path)).Some?
      && Bearer(header, validate).Some? && Bearer(header, validate).value.role == RolePatient
  {
    var found := Lookup(Routes, verb, PathSegments(path));
    if found.Some? {
      GuardOf(found.value, PathSegments(path));
    }
  }

  /** The clinic group admits every valid token, whatever its role. */
  lemma ClinicAnyRole(verb: string, path: string, header: string, validate: string -> Option<Claims>)
    requires |PathSegments(path)| >= 2 && PathSegments(path)[0] == "v1" && PathSegments(path)[1] == "clinic"
    ensures Decide(verb, path, header, validate).Reached? <==>
      verb != "OPTIONS" && Lookup(Routes, verb, PathSegments(path)).Some? && Bearer(header, validate).Some?
  {
    var found := Lookup(Routes, verb, PathSegments(path));
    if found.Some? {
      GuardOf(found.value, PathSegments(path));
    }
  }

  /** The scanning group admits exactly the valid tokens whose role is `Scanning`. */
  lemma ScanningOnly(verb: string, path: string, header: string, validate: string -> Option<Claims>)
    requires |PathSegments(path)| >= 2 && PathSegments(path)[0] == "v1" && PathSegments(path)[1] == "scanning"
    ensures Decide(verb, path, header, validate).Reached? <==>
      && verb != "OPTIONS" && Lookup(Routes, verb, PathSegments(path)).Some?
      && Bearer(header, validate).Some? && Bearer(header, validate).value.role == RoleScanning
  {
    var found := Lookup(Routes, verb, PathSegments(path));
    if found.Some? {
      GuardOf(found.value, PathSegments(path));
    }
  }

  /** The admin group (the drug CSV upload) admits exactly the valid tokens whose role is
      `Admin` or `Clinic`. */
  lemma AdminOrClinic(verb: string, path: string, header: string, validate: string -> Option<Claims>)
    requires |PathSegments(path)| >= 2 && PathSegments(path)[0] == "v1" && PathSegments(path)[1] == "admin"
    ensures Decide(verb, path, header, validate).Reached? <==>
      && verb != "OPTIONS" && Lookup(Routes, verb, PathSegments(path)).Some? && Bearer(header, validate).Some?
      && (Bearer(header, validate).value.role == RoleAdmin || Bearer(header, validate).value.role == RoleClinic)
  {
    var found := Lookup(Routes, verb, PathSegments(path));
    if found.Some? {
      GuardOf(found.value, PathSegments(path));
    }
  }

  /** `/`, `/health`, `/v1/status` and the auth group run no middleware but CORS: any
      header reaches them, with an empty context. */
  lemma PublicOpen(verb: string, path: string, header: string, validate: string -> Option<Claims>)
    requires || |PathSegments(path)| < 2
             || (PathSegments(path)[0] == "v1" && PathSegments(path)[1] == "auth")
             || PathSegments(path) == ["v1", "status"]
    ensures Decide(verb, path, header, validate).Reached? <==>
      verb != "OPTIONS" && Lookup(Routes, verb, PathSegments(path)).Some?
    ensures Decide(verb, path, header, validate).Reached? ==> Decide(verb, path, header, validate).ctx == map[]
  {
    var found := Lookup(Routes, verb, PathSegments(path));
    if found.Some? {
      GuardOf(found.value, PathSegments(path));
    }
  }

  /** The address the server listens on: every interface, on `PORT`, or 8080 when it is
      unset or empty. */
  function ListenAddress(portEnv: string): (addr: string)
    ensures |addr| >= 8 && addr[..8] == "0.0.0.0:"
    ensures portEnv != "" ==> addr[8..] == portEnv
    ensures portEnv == "" ==> addr[8..] == "8080"
  {
    "0.0.0.0:" + (if portEnv == "" then "8080" else portEnv)
  }

  lemma InGroup(r: Route, prefix: seq<string>, guard: Guard, endpoints: seq<Endpoint>)
    requires r in Group(prefix, guard, endpoints)
    ensures r.guard == guard && |r.pattern| >= |prefix| && r.pattern[..|prefix|] == prefix
  {
    var rs := Group(prefix, guard, endpoints);
    var i :| 0 <= i < |rs| && rs[i] == r;
    assert r.pattern == prefix + endpoints[i].path;
  }
}
