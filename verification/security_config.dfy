/**
 * The gateway's web security configuration (class SecurityConfig): the table of
 * route rules that `configure(HttpSecurity)` registers, the first-match lookup
 * over it, and the access decision a rule implies for a principal.
 *
 * Path patterns take the two forms the table uses: an exact path, and
 * a prefix followed by a slash and a double star, which covers the prefix itself
 * and every path beneath it.
 */
module SecurityConfig {
  import opened Wrappers

  datatype HttpMethod = GET | HEAD | POST | PUT | PATCH | DELETE | OPTIONS | TRACE

  /** What a rule demands: `permitAll()` or `hasAuthority(authority)`. */
  datatype Requirement = PermitAll | HasAuthority(authority: string)

  /** One `antMatchers(...)` registration; no method means any method. */
  datatype RouteRule = RouteRule(httpMethod: Option<HttpMethod>, pattern: string, requirement: Requirement)

  /** The login filter, reduced to the URL it answers. */
  datatype AuthenticationFilter = AuthenticationFilter(processesUrl: string)

  /** The authenticated caller, if any, with the authorities granted to it. */
  datatype Principal = Principal(authorities: set<string>)

  /** The outcome of the authorization stage for one request. */
  datatype Decision =
    | Granted
    | DeniedAnonymous   // a rule demands an authority and nobody is authenticated
    | DeniedAuthority   // the authenticated principal lacks the exact authority
    | Unmatched         // no rule covers the request

  const LoginUrl: string := "/api/login"
  const RoleAdmin: string := "ROLE_ADMIN"
  const RoleStudent: string := "ROLE_STUDENT"

  /** The rules in the order `configure(HttpSecurity)` registers them. */
  const RuleTable: seq<RouteRule> := [
    RouteRule(None, "/api/login/**", PermitAll),
    RouteRule(None, "/api/refreshToken/**", PermitAll),
    RouteRule(None, "/api/core/tansiq/**", PermitAll),
    RouteRule(Some(POST), "/api/core/studentFiles", HasAuthority(RoleAdmin)),
    RouteRule(Some(GET), "/api/core/admins/**", HasAuthority(RoleAdmin)),
    RouteRule(None, "/api/core/students/**", HasAuthority(RoleStudent))
  ]

  /** `path` is `prefix` itself or lies beneath it. */
  predicate Under(prefix: string, path: string)
  {
    path == prefix || prefix + "/" <= path
  }

  predicate IsSubtreePattern(pattern: string)
  {
    |pattern| >= 3 && pattern[|pattern| - 3..] == "/**"
  }

  predicate PatternMatches(pattern: string, path: string)
  {
    if IsSubtreePattern(pattern) then Under(pattern[..|pattern| - 3], path) else path == pattern
  }

  /**
   * `antMatchers(method, pattern)`: a method-specific rule matches only its own
   * method; an exact pattern matches only that path, and a subtree pattern only
   * paths that begin with its prefix.
   */
  predicate RuleMatches(rule: RouteRule, httpMethod: HttpMethod, path: string)
    ensures RuleMatches(rule, httpMethod, path) && rule.httpMethod.Some? ==> rule.httpMethod.value == httpMethod
    ensures RuleMatches(rule, httpMethod, path) && !IsSubtreePattern(rule.pattern) ==> path == rule.pattern
    ensures RuleMatches(rule, httpMethod, path) && IsSubtreePattern(rule.pattern) ==>
              rule.pattern[..|rule.pattern| - 3] <= path
  {
    (rule.httpMethod == None || rule.httpMethod == Some(httpMethod)) && PatternMatches(rule.pattern, path)
  }

  /**
   * The requirement of the first rule, in registration order, that matches the
   * request's method and path; None when no rule matches.
   */
  function Lookup(rules: seq<RouteRule>, httpMethod: HttpMethod, path: string): (r: Option<Requirement>)
    ensures r.None? <==> forall i :: 0 <= i < |rules| ==> !RuleMatches(rules[i], httpMethod, path)
    ensures r.Some? ==> exists i :: 0 <= i < |rules| && RuleMatches(rules[i], httpMethod, path) &&
                                    rules[i].requirement == r.value
  {
    if rules == [] then None
    else if RuleMatches(rules[0], httpMethod, path) then Some(rules[0].requirement)
    else
      var r := Lookup(rules[1..], httpMethod, path);
      assert forall i :: 1 <= i < |rules| ==> rules[i] == rules[1..][i - 1];
      r
  }

  /** First match wins: a matching rule decides whenever no earlier rule matches. */
  lemma {:induction false} LookupFirstMatch(rules: seq<RouteRule>, k: nat, httpMethod: HttpMethod, path: string)
    requires k < |rules| && RuleMatches(rules[k], httpMethod, path)
    requires forall j :: 0 <= j < k ==> !RuleMatches(rules[j], httpMethod, path)
    ensures Lookup(rules, httpMethod, path) == Some(rules[k].requirement)
  {
    if k > 0 {
      LookupFirstMatch(rules[1..], k - 1, httpMethod, path);
    }
  }

  /**
   * The access decision: a public rule grants every request; any other rule
   * grants only a principal holding exactly the required authority.
   */
  function Decide(rules: seq<RouteRule>, httpMethod: HttpMethod, path: string, principal: Option<Principal>): (d: Decision)
    ensures d == Unmatched <==> forall i :: 0 <= i < |rules| ==> !RuleMatches(rules[i], httpMethod, path)
    ensures Lookup(rules, httpMethod, path) == Some(PermitAll) ==> d == Granted
    ensures d == Granted && Lookup(rules, httpMethod, path) != Some(PermitAll) ==>
              principal.Some? && Lookup(rules, httpMethod, path).value.authority in principal.value.authorities
    ensures d == DeniedAnonymous ==> principal == None
  {
    match Lookup(rules, httpMethod, path)
    case None => Unmatched
    case Some(PermitAll) => Granted
    case Some(HasAuthority(a)) =>
      match principal
      case None => DeniedAnonymous
      case Some(p) => if a in p.authorities then Granted else DeniedAuthority
  }

  /**
   * The mutable `HttpSecurity` builder, reduced to the authorization rules
   * registered on it so far.
   */
  class HttpSecurity {
    var rules: seq<RouteRule>

    constructor ()
      ensures rules == []
    {
      rules := [];
    }

    /** `authorizeRequests().antMatchers(method, pattern)` followed by the requirement. */
    method Authorize(httpMethod: Option<HttpMethod>, pattern: string, requirement: Requirement)
      modifies this
      ensures rules == old(rules) + [RouteRule(httpMethod, pattern, requirement)]
    {
      rules := rules + [RouteRule(httpMethod, pattern, requirement)];
    }
  }

  /**
   * `configure(HttpSecurity)`: registers the six rules in order and returns the
   * login filter, set to process the login URL.
   */
  method Configure(http: HttpSecurity) returns (loginFilter: AuthenticationFilter)
    modifies http
    ensures http.rules == old(http.rules) + RuleTable
    ensures loginFilter.processesUrl == LoginUrl
  {
    loginFilter := AuthenticationFilter(LoginUrl);
    http.Authorize(None, "/api/login/**", PermitAll);
    http.Authorize(None, "/api/refreshToken/**", PermitAll);
    http.Authorize(None, "/api/core/tansiq/**", PermitAll);
    http.Authorize(Some(POST), "/api/core/studentFiles", HasAuthority(RoleAdmin));
    http.Authorize(Some(GET), "/api/core/admins/**", HasAuthority(RoleAdmin));
    http.Authorize(None, "/api/core/students/**", HasAuthority(RoleStudent));
  }

  /** A path under `prefix` agrees with `prefix` on every position of `prefix`. */
  lemma UnderAgrees(prefix: string, path: string, k: nat)
    requires Under(prefix, path) && k < |prefix|
    ensures k < |path| && path[k] == prefix[k]
  {
    if path != prefix {
      assert path[..|prefix| + 1] == prefix + "/";
      assert path[k] == (prefix + "/")[k];
    }
  }

  /** Paths under two prefixes that differ at a common position are never the same. */
  lemma NotUnder(a: string, b: string, path: string, k: nat)
    requires k < |a| && k < |b| && a[k] != b[k]
    requires Under(a, path)
    ensures !Under(b, path) && path != b
  {
    UnderAgrees(a, path, k);
    if Under(b, path) {
      UnderAgrees(b, path, k);
    }
  }

  /** A subtree pattern (`prefix` with a trailing slash and double star) matches exactly the paths under `prefix`. */
  lemma SubtreePatternMatches(prefix: string, path: string)
    ensures PatternMatches(prefix + "/**", path) <==> Under(prefix, path)
  {
    var pattern := prefix + "/**";
    assert pattern[|pattern| - 3..] == "/**";
    assert pattern[..|pattern| - 3] == prefix;
  }

  /** A rule with a subtree pattern matches its methods on exactly the paths under its prefix. */
  lemma SubtreeRuleMatches(rule: RouteRule, prefix: string, httpMethod: HttpMethod, path: string)
    requires rule.pattern == prefix + "/**"
    ensures RuleMatches(rule, httpMethod, path) <==>
              (rule.httpMethod == None || rule.httpMethod == Some(httpMethod)) && Under(prefix, path)
  {
    SubtreePatternMatches(prefix, path);
  }

  /** What the three public rules of the table match. */
  lemma PublicRulesMatch(httpMethod: HttpMethod, path: string)
    ensures RuleMatches(RuleTable[0], httpMethod, path) <==> Under("/api/login", path)
    ensures RuleMatches(RuleTable[1], httpMethod, path) <==> Under("/api/refreshToken", path)
    ensures RuleMatches(RuleTable[2], httpMethod, path) <==> Under("/api/core/tansiq", path)
  {
    SubtreeRuleMatches(RuleTable[0], "/api/login", httpMethod, path);
    SubtreeRuleMatches(RuleTable[1], "/api/refreshToken", httpMethod, path);
    SubtreeRuleMatches(RuleTable[2], "/api/core/tansiq", httpMethod, path);
  }

  /** What the three rules of the table that demand an authority match. */
  lemma ProtectedRulesMatch(httpMethod: HttpMethod, path: string)
    ensures RuleMatches(RuleTable[3], httpMethod, path) <==> httpMethod == POST && path == "/api/core/studentFiles"
    ensures RuleMatches(RuleTable[4], httpMethod, path) <==> httpMethod == GET && Under("/api/core/admins", path)
    ensures RuleMatches(RuleTable[5], httpMethod, path) <==> Under("/api/core/students", path)
  {
    SubtreeRuleMatches(RuleTable[4], "/api/core/admins", httpMethod, path);
    SubtreeRuleMatches(RuleTable[5], "/api/core/students", httpMethod, path);
  }

  /** First match over a table of six rules, unrolled. */
  lemma LookupSixRules(rules: seq<RouteRule>, httpMethod: HttpMethod, path: string)
    requires |rules| == 6
    ensures Lookup(rules, httpMethod, path) ==
              if RuleMatches(rules[0], httpMethod, path) then Some(rules[0].requirement)
              else if RuleMatches(rules[1], httpMethod, path) then Some(rules[1].requirement)
              else if RuleMatches(rules[2], httpMethod, path) then Some(rules[2].requirement)
              else if RuleMatches(rules[3], httpMethod, path) then Some(rules[3].requirement)
              else if RuleMatches(rules[4], httpMethod, path) then Some(rules[4].requirement)
              else if RuleMatches(rules[5], httpMethod, path) then Some(rules[5].requirement)
              else None
  {
    var k := 0;
    while k < 6 && !RuleMatches(rules[k], httpMethod, path)
      invariant 0 <= k <= 6
      invariant forall j :: 0 <= j < k ==> !RuleMatches(rules[j], httpMethod, path)
    {
      k := k + 1;
    }
    if k < 6 {
      LookupFirstMatch(rules, k, httpMethod, path);
    }
  }

  /** Lookup over the table, written out as a decision on the request. */
  lemma LookupRuleTable(httpMethod: HttpMethod, path: string)
    ensures Lookup(RuleTable, httpMethod, path) ==
              if Under("/api/login", path) || Under("/api/refreshToken", path) || Under("/api/core/tansiq", path) then
                Some(PermitAll)
              else if httpMethod == POST && path == "/api/core/studentFiles" then Some(HasAuthority(RoleAdmin))
              else if httpMethod == GET && Under("/api/core/admins", path) then Some(HasAuthority(RoleAdmin))
              else if Under("/api/core/students", path) then Some(HasAuthority(RoleStudent))
              else None
  {
    PublicRulesMatch(httpMethod, path);
    ProtectedRulesMatch(httpMethod, path);
    LookupSixRules(RuleTable, httpMethod, path);
  }

  /**
   * The login, token-refresh and tansiq areas, each with every path beneath it,
   * are public for every method, whoever asks.
   */
  lemma PublicRoutes(httpMethod: HttpMethod, path: string, principal: Option<Principal>)
    requires Under("/api/login", path) || Under("/api/refreshToken", path) || Under("/api/core/tansiq", path)
    ensures Lookup(RuleTable, httpMethod, path) == Some(PermitAll)
    ensures Decide(RuleTable, httpMethod, path, principal) == Granted
  {
    LookupRuleTable(httpMethod, path);
  }

  /** The URL the login filter processes is itself covered by a public rule. */
  lemma LoginUrlIsPublic(httpMethod: HttpMethod)
    ensures Lookup(RuleTable, httpMethod, LoginUrl) == Some(PermitAll)
  {
    PublicRoutes(httpMethod, LoginUrl, None);
  }

  /** The student-files path lies outside every subtree of the table. */
  lemma StudentFilesOutsideSubtrees()
    ensures !Under("/api/login", "/api/core/studentFiles") && !Under("/api/refreshToken", "/api/core/studentFiles")
    ensures !Under("/api/core/tansiq", "/api/core/studentFiles") && !Under("/api/core/admins", "/api/core/studentFiles")
    ensures !Under("/api/core/students", "/api/core/studentFiles")
  {
    var path := "/api/core/studentFiles";
    assert Under(path, path);
    NotUnder(path, "/api/login", path, 5);
    NotUnder(path, "/api/refreshToken", path, 5);
    NotUnder(path, "/api/core/tansiq", path, 10);
    NotUnder(path, "/api/core/admins", path, 10);
    NotUnder(path, "/api/core/students", path, 17);
  }

  /** Uploading student files needs ROLE_ADMIN; no rule covers other methods on that path. */
  lemma StudentFilesRule(httpMethod: HttpMethod)
    ensures Lookup(RuleTable, httpMethod, "/api/core/studentFiles") ==
              if httpMethod == POST then Some(HasAuthority(RoleAdmin)) else None
  {
    LookupRuleTable(httpMethod, "/api/core/studentFiles");
    StudentFilesOutsideSubtrees();
  }

  /** A path under the admins area is matched by no other pattern of the table. */
  lemma AdminsAreaDisjoint(path: string)
    requires Under("/api/core/admins", path)
    ensures !Under("/api/login", path) && !Under("/api/refreshToken", path) && !Under("/api/core/tansiq", path)
    ensures path != "/api/core/studentFiles" && !Under("/api/core/students", path)
  {
    NotUnder("/api/core/admins", "/api/login", path, 5);
    NotUnder("/api/core/admins", "/api/refreshToken", path, 5);
    NotUnder("/api/core/admins", "/api/core/tansiq", path, 10);
    NotUnder("/api/core/admins", "/api/core/studentFiles", path, 10);
    NotUnder("/api/core/admins", "/api/core/students", path, 10);
  }

  /** The admins area and everything beneath it needs ROLE_ADMIN for GET; no rule covers other methods there. */
  lemma AdminsRule(httpMethod: HttpMethod, path: string)
    requires Under("/api/core/admins", path)
    ensures Lookup(RuleTable, httpMethod, path) ==
              if httpMethod == GET then Some(HasAuthority(RoleAdmin)) else None
  {
    LookupRuleTable(httpMethod, path);
    AdminsAreaDisjoint(path);
  }

  /** A path under the students area is matched by no other pattern of the table. */
  lemma StudentsAreaDisjoint(path: string)
    requires Under("/api/core/students", path)
    ensures !Under("/api/login", path) && !Under("/api/refreshToken", path) && !Under("/api/core/tansiq", path)
    ensures path != "/api/core/studentFiles" && !Under("/api/core/admins", path)
  {
    NotUnder("/api/core/students", "/api/login", path, 5);
    NotUnder("/api/core/students", "/api/refreshToken", path, 5);
    NotUnder("/api/core/students", "/api/core/tansiq", path, 10);
    NotUnder("/api/core/students", "/api/core/studentFiles", path, 17);
    NotUnder("/api/core/students", "/api/core/admins", path, 10);
  }

  /** The students area and everything beneath it needs ROLE_STUDENT, whatever the method. */
  lemma StudentsRule(httpMethod: HttpMethod, path: string)
    requires Under("/api/core/students", path)
    ensures Lookup(RuleTable, httpMethod, path) == Some(HasAuthority(RoleStudent))
  {
    LookupRuleTable(httpMethod, path);
    StudentsAreaDisjoint(path);
  }

  /** On a route that demands an authority, the decision depends on the principal alone. */
  lemma DecideProtected(rules: seq<RouteRule>, httpMethod: HttpMethod, path: string, authority: string)
    requires Lookup(rules, httpMethod, path) == Some(HasAuthority(authority))
    ensures forall p :: Decide(rules, httpMethod, path, Some(p)) ==
                          if authority in p.authorities then Granted else DeniedAuthority
    ensures Decide(rules, httpMethod, path, None) == DeniedAnonymous
  {
  }

  /**
   * In the students area exactly the principals holding ROLE_STUDENT get
   * through; ROLE_ADMIN is no substitute, as authorities form no hierarchy,
   * and an anonymous caller is refused.
   */
  lemma StudentsAccess(httpMethod: HttpMethod, path: string, principal: Principal)
    requires Under("/api/core/students", path)
    ensures Decide(RuleTable, httpMethod, path, Some(principal)) ==
              if RoleStudent in principal.authorities then Granted else DeniedAuthority
    ensures Decide(RuleTable, httpMethod, path, Some(Principal({RoleAdmin}))) == DeniedAuthority
    ensures Decide(RuleTable, httpMethod, path, None) == DeniedAnonymous
  {
    StudentsRule(httpMethod, path);
    DecideProtected(RuleTable, httpMethod, path, RoleStudent);
    assert RoleStudent !in {RoleAdmin};
  }

  /**
   * Reading the admins area needs ROLE_ADMIN exactly: a ROLE_STUDENT principal
   * and an anonymous caller are refused, and other methods fall under no rule.
   */
  lemma AdminsAccess(httpMethod: HttpMethod, path: string, principal: Principal)
    requires Under("/api/core/admins", path)
    ensures httpMethod == GET ==>
              Decide(RuleTable, httpMethod, path, Some(principal)) ==
                if RoleAdmin in principal.authorities then Granted else DeniedAuthority
    ensures httpMethod == GET ==> Decide(RuleTable, httpMethod, path, Some(Principal({RoleStudent}))) == DeniedAuthority
    ensures httpMethod == GET ==> Decide(RuleTable, httpMethod, path, None) == DeniedAnonymous
    ensures httpMethod != GET ==> Decide(RuleTable, httpMethod, path, Some(principal)) == Unmatched
  {
    AdminsRule(httpMethod, path);
    if httpMethod == GET {
      DecideProtected(RuleTable, httpMethod, path, RoleAdmin);
      assert RoleAdmin !in {RoleStudent};
    }
  }
}
