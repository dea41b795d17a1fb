/** Ingress: HTTP routing from hosts and paths to service backends, with a
    load-balancer status written back by the controller. */
module Ingresses {
  import opened FieldPaths
  import opened Names
  import opened IntOrPercent
  import opened Meta

  datatype IngressBackend = IngressBackend(serviceName: string, servicePort: IntOrString)
  datatype HTTPIngressPath = HTTPIngressPath(path: string, backend: IngressBackend)
  /** A rule's value is its HTTP path list, when it has one. */
  datatype IngressRule = IngressRule(host: string, http: Option<seq<HTTPIngressPath>>)
  datatype IngressSpec = IngressSpec(backend: Option<IngressBackend>, rules: seq<IngressRule>)
  datatype LoadBalancerIngress = LoadBalancerIngress(ip: string, hostname: string)
  datatype Ingress = Ingress(meta: ObjectMeta, spec: IngressSpec, status: seq<LoadBalancerIngress>)

  const AbsolutePathMsg := "must be an absolute path"
  const RegexMsg := "must be a valid regex"
  const NotAnIPMsg := "must be a DNS name, not an IP address"
  const IPAddressMsg := "must be a valid IP address"

  function RulePath(i: nat): Path
  {
    [Child("spec"), Child("rules"), Index(i)]
  }

  function HTTPPathPath(i: nat, j: nat): Path
  {
    RulePath(i) + [Child("http"), Child("paths"), Index(j)]
  }

  /** `status.loadBalancer.ingress`, the list of load-balancer entries. */
  const LoadBalancerListPath: Path := [Child("status"), Child("loadBalancer"), Child("ingress")]

  function LoadBalancerPath(i: nat): Path
  {
    LoadBalancerListPath + [Index(i)]
  }

  // ---- backends --------------------------------------------------------

  /** A named port must be both a DNS label and an IANA service name; a
      numbered one must lie in 1..65535. */
  predicate PortValid(port: IntOrString)
  {
    match port
    case FromString(s) => IsDNS1123Label(s) && IsValidPortName(s)
    case FromInt(n) => IsValidPortNum(n)
  }

  predicate BackendValid(b: IngressBackend)
  {
    b.serviceName != "" && IsDNS1123Subdomain(b.serviceName) && PortValid(b.servicePort)
  }

  /** A missing service name is the only error reported; otherwise the name
      and then the port are checked. */
  function ValidateIngressBackend(b: IngressBackend, p: Path): (errs: seq<Error>)
    ensures errs == [] <==> BackendValid(b)
    ensures b.serviceName == "" ==> errs == [RequiredError(p + [Child("serviceName")], "")]
    ensures forall e :: e in errs ==> HasPrefix(e.field, p)
  {
    ExtendHasPrefix(p, [Child("serviceName")]);
    ExtendHasPrefix(p, [Child("servicePort")]);
    if b.serviceName == "" then [RequiredError(p + [Child("serviceName")], "")]
    else
      (if IsDNS1123Subdomain(b.serviceName) then []
       else [InvalidError(p + [Child("serviceName")], b.serviceName, DNS1123SubdomainErrorMsg)])
      + match b.servicePort
        case FromString(s) =>
          (if IsDNS1123Label(s) then [] else [InvalidError(p + [Child("servicePort")], s, DNS1123LabelErrorMsg)])
          + (if IsValidPortName(s) then [] else [InvalidError(p + [Child("servicePort")], s, PortNameErrorMsg)])
        case FromInt(n) =>
          if IsValidPortNum(n) then [] else [InvalidError(p + [Child("servicePort")], IntToString(n), PortRangeErrorMsg)]
  }

  /** A named port with `-` at either end is refused as an IANA service
      name, whatever the DNS-label check says. */
  lemma HyphenEdgedPortNameRefused(name: string, s: string, p: Path)
    requires name != "" && |s| >= 1 && (s[0] == '-' || s[|s| - 1] == '-')
    ensures InvalidError(p + [Child("servicePort")], s, PortNameErrorMsg)
            in ValidateIngressBackend(IngressBackend(name, FromString(s)), p)
  {
  }

  // ---- paths -------------------------------------------------------------

  /** Pattern compilation is approximated by bracket closing, scanned from
      the end: no `[` follows the last `]`. */
  predicate PatternCompiles(s: string)
    decreases |s|
  {
    s == [] || s[|s| - 1] == ']' || (s[|s| - 1] != '[' && PatternCompiles(s[..|s| - 1]))
  }

  /** A pattern without `[` compiles. */
  lemma {:induction false} NoBracketCompiles(s: string)
    requires '[' !in s
    ensures PatternCompiles(s)
    decreases |s|
  {
    if s != [] && s[|s| - 1] != ']' {
      assert s[|s| - 1] in s;
      NoBracketCompiles(s[..|s| - 1]);
    }
  }

  /** The scan accepts exactly the patterns in which every `[` is closed by a
      later `]`. */
  lemma {:induction false} PatternCompilesClosesBrackets(s: string)
    ensures PatternCompiles(s) <==>
      forall i :: 0 <= i < |s| && s[i] == '[' ==> exists j :: i < j < |s| && s[j] == ']'
    decreases |s|
  {
    if s != [] {
      var n := |s| - 1;
      if s[n] == ']' {
        forall i | 0 <= i < |s| && s[i] == '['
          ensures exists j :: i < j < |s| && s[j] == ']'
        {
          assert i < n && s[n] == ']';
        }
      } else if s[n] == '[' {
        assert !PatternCompiles(s);
      } else {
        var t := s[..n];
        PatternCompilesClosesBrackets(t);
        if PatternCompiles(s) {
          forall i | 0 <= i < |s| && s[i] == '['
            ensures exists j :: i < j < |s| && s[j] == ']'
          {
            assert i < n && t[i] == '[';
            var j :| i < j < |t| && t[j] == ']';
            assert s[j] == ']';
          }
        } else {
          var i :| 0 <= i < |t| && t[i] == '[' && !(exists j :: i < j < |t| && t[j] == ']');
          assert s[i] == '[';
          forall j | i < j < |s|
            ensures s[j] != ']'
          {
            if j < n {
              assert s[j] == t[j];
            }
          }
        }
      }
    }
  }

  /** A non-empty path is absolute and compiles as a pattern; the backend is valid. */
  predicate HTTPPathValid(p: HTTPIngressPath)
  {
    && (p.path != "" ==> p.path[0] == '/' && PatternCompiles(p.path))
    && BackendValid(p.backend)
  }

  /** A non-empty path must be absolute and must compile; both errors are
      reported at the path itself. */
  function ValidatePathText(path: string, p: Path): (errs: seq<Error>)
    ensures errs == [] <==> (path != "" ==> path[0] == '/' && PatternCompiles(path))
    ensures forall e :: e in errs ==> e.field == p && e.kind == Invalid
  {
    (if path != "" && path[0] != '/' then [InvalidError(p, path, AbsolutePathMsg)] else [])
    + (if path != "" && !PatternCompiles(path) then [InvalidError(p, path, RegexMsg)] else [])
  }

  function ValidateHTTPPath(hp: HTTPIngressPath, p: Path): (errs: seq<Error>)
    ensures errs == [] <==> HTTPPathValid(hp)
    ensures forall e :: e in errs ==> HasPrefix(e.field, p)
  {
    ExtendHasPrefix(p, [Child("path")]);
    ExtendHasPrefix(p, [Child("backend")]);
    PrefixTransitive(p, [Child("backend")]);
    ValidatePathText(hp.path, p + [Child("path")]) + ValidateIngressBackend(hp.backend, p + [Child("backend")])
  }

  /** Anything under a rule's path entry is under the rule. */
  lemma PathBelowRule(i: nat, j: nat)
    ensures forall r: Path :: HasPrefix(r, HTTPPathPath(i, j)) ==> HasPrefix(r, RulePath(i))
  {
    PrefixTransitive(RulePath(i), [Child("http"), Child("paths"), Index(j)]);
  }

  /** The paths of rule `i` from position `start` on; each path's errors
      carry that path's own index. */
  function HTTPPathsErrors(paths: seq<HTTPIngressPath>, i: nat, start: nat): (errs: seq<Error>)
    ensures errs == [] <==> forall hp :: hp in paths ==> HTTPPathValid(hp)
    ensures forall e :: e in errs ==> HasPrefix(e.field, RulePath(i))
    decreases |paths|
  {
    if paths == [] then []
    else
      var first := ValidateHTTPPath(paths[0], HTTPPathPath(i, start));
      var rest := HTTPPathsErrors(paths[1..], i, start + 1);
      PathBelowRule(i, start);
      assert forall hp :: hp in paths ==> hp == paths[0] || hp in paths[1..];
      assert forall hp :: hp in paths[1..] ==> hp in paths;
      assert paths[0] in paths;
      first + rest
  }

  // ---- rules -------------------------------------------------------------

  /** A non-empty host is a DNS subdomain and not an IPv4 literal; an HTTP
      rule value has at least one path and every path is valid. */
  predicate RuleValid(r: IngressRule)
  {
    && (r.host != "" ==> IsDNS1123Subdomain(r.host) && !IsIPv4Literal(r.host))
    && (r.http.Some? ==> |r.http.value| > 0 && forall hp :: hp in r.http.value ==> HTTPPathValid(hp))
  }

  /** An HTTP rule value must list at least one path. */
  function HTTPRuleErrors(paths: seq<HTTPIngressPath>, i: nat): (errs: seq<Error>)
    ensures errs == [] <==> |paths| > 0 && forall hp :: hp in paths ==> HTTPPathValid(hp)
    ensures forall e :: e in errs ==> HasPrefix(e.field, RulePath(i))
  {
    ExtendHasPrefix(RulePath(i), [Child("http"), Child("paths")]);
    (if |paths| == 0 then [RequiredError(RulePath(i) + [Child("http"), Child("paths")], "")] else [])
    + HTTPPathsErrors(paths, i, 0)
  }

  function ValidateRule(r: IngressRule, i: nat): (errs: seq<Error>)
    ensures errs == [] <==> RuleValid(r)
    ensures forall e :: e in errs ==> HasPrefix(e.field, RulePath(i))
  {
    var host := RulePath(i) + [Child("host")];
    ExtendHasPrefix(RulePath(i), [Child("host")]);
    (if r.host != "" && !IsDNS1123Subdomain(r.host) then [InvalidError(host, r.host, DNS1123SubdomainErrorMsg)] else [])
    + (if r.host != "" && IsIPv4Literal(r.host) then [InvalidError(host, r.host, NotAnIPMsg)] else [])
    + (match r.http case None => [] case Some(paths) => HTTPRuleErrors(paths, i))
  }

  /** The rules from position `start` on, each at its own index. */
  function RulesErrors(rules: seq<IngressRule>, start: nat): (errs: seq<Error>)
    ensures errs == [] <==> forall r :: r in rules ==> RuleValid(r)
    decreases |rules|
  {
    if rules == [] then []
    else
      var first := ValidateRule(rules[0], start);
      var rest := RulesErrors(rules[1..], start + 1);
      assert forall r :: r in rules ==> r == rules[0] || r in rules[1..];
      assert forall r :: r in rules[1..] ==> r in rules;
      assert rules[0] in rules;
      first + rest
  }

  /** The error is reported under `spec.rules[k]` for a rule `k` of the
      list starting at `start`, and that rule is invalid. */
  predicate BlamesRule(e: Error, rules: seq<IngressRule>, start: nat)
  {
    && |e.field| >= 3 && e.field[..2] == [Child("spec"), Child("rules")] && e.field[2].Index?
    && start <= e.field[2].i < start + |rules| && !RuleValid(rules[e.field[2].i - start])
  }

  /** Every rule error points at the rule that caused it. */
  lemma {:induction false} RuleErrorsBlameTheirRule(rules: seq<IngressRule>, start: nat)
    ensures forall e :: e in RulesErrors(rules, start) ==> BlamesRule(e, rules, start)
    decreases |rules|
  {
    if rules != [] {
      var first := ValidateRule(rules[0], start);
      var rest := RulesErrors(rules[1..], start + 1);
      assert RulesErrors(rules, start) == first + rest;
      RuleErrorsBlameTheirRule(rules[1..], start + 1);
      FirstRuleBlamed(rules, start);
      forall e | e in rest
        ensures BlamesRule(e, rules, start)
      {
        assert BlamesRule(e, rules[1..], start + 1);
        assert rules[1..][e.field[2].i - (start + 1)] == rules[e.field[2].i - start];
      }
    }
  }

  lemma FirstRuleBlamed(rules: seq<IngressRule>, start: nat)
    requires rules != []
    ensures forall e :: e in ValidateRule(rules[0], start) ==> BlamesRule(e, rules, start)
  {
    var first := ValidateRule(rules[0], start);
    if first != [] {
      assert !RuleValid(rules[0]);
      forall e | e in first
        ensures BlamesRule(e, rules, start)
      {
        assert e.field[..3] == RulePath(start);
        assert e.field[..2] == RulePath(start)[..2];
        assert e.field[2] == RulePath(start)[2];
      }
    }
  }

  // ---- spec and object ---------------------------------------------------

  /** A default backend, when present, is valid; without one there must be
      rules; and every rule is valid. */
  predicate IngressSpecValid(spec: IngressSpec)
  {
    && (spec.backend.Some? ==> BackendValid(spec.backend.value))
    && (spec.backend.None? ==> |spec.rules| > 0)
    && forall r :: r in spec.rules ==> RuleValid(r)
  }

  function ValidateIngressSpec(spec: IngressSpec): (errs: seq<Error>)
    ensures errs == [] <==> IngressSpecValid(spec)
  {
    (match spec.backend
     case Some(b) => ValidateIngressBackend(b, Fields(["spec", "backend"]))
     case None =>
       if |spec.rules| == 0 then [InvalidError(Fields(["spec", "rules"]), "", "either `backend` or `rules` must be specified")]
       else [])
    + RulesErrors(spec.rules, 0)
  }

  ghost function ValidateIngress(ingress: Ingress): (errs: seq<Error>)
    ensures errs == [] <==> MetaValid(ingress.meta, DNSSubdomainName) && IngressSpecValid(ingress.spec)
  {
    ValidateObjectMeta(ingress.meta, DNSSubdomainName) + ValidateIngressSpec(ingress.spec)
  }

  /** With valid metadata and default backend, the rule errors are all there is. */
  lemma RuleErrorsOnly(ingress: Ingress)
    requires MetaValid(ingress.meta, DNSSubdomainName)
    requires ingress.spec.backend.Some? && BackendValid(ingress.spec.backend.value)
    ensures ValidateIngress(ingress) == RulesErrors(ingress.spec.rules, 0)
  {
    assert ValidateObjectMeta(ingress.meta, DNSSubdomainName) == [];
    assert ValidateIngressBackend(ingress.spec.backend.value, Fields(["spec", "backend"])) == [];
  }

  // ---- status ------------------------------------------------------------

  /** A non-empty IP is an address; a non-empty hostname is a DNS subdomain
      and not an address. Only IPv4 literals are recognised as addresses. */
  predicate LoadBalancerIngressValid(l: LoadBalancerIngress)
  {
    && (l.ip != "" ==> IsIPv4Literal(l.ip))
    && (l.hostname != "" ==> IsDNS1123Subdomain(l.hostname) && !IsIPv4Literal(l.hostname))
  }

  function ValidateLoadBalancerIngress(l: LoadBalancerIngress, i: nat): (errs: seq<Error>)
    ensures errs == [] <==> LoadBalancerIngressValid(l)
    ensures forall e :: e in errs ==> HasPrefix(e.field, LoadBalancerPath(i)) && e.kind == Invalid
  {
    var ip := LoadBalancerPath(i) + [Child("ip")];
    var hostname := LoadBalancerPath(i) + [Child("hostname")];
    ExtendHasPrefix(LoadBalancerPath(i), [Child("ip")]);
    ExtendHasPrefix(LoadBalancerPath(i), [Child("hostname")]);
    (if l.ip != "" && !IsIPv4Literal(l.ip) then [InvalidError(ip, l.ip, IPAddressMsg)] else [])
    + (if l.hostname != "" && !IsDNS1123Subdomain(l.hostname) then [InvalidError(hostname, l.hostname, DNS1123SubdomainErrorMsg)] else [])
    + (if l.hostname != "" && IsIPv4Literal(l.hostname) then [InvalidError(hostname, l.hostname, NotAnIPMsg)] else [])
  }

  function LoadBalancerErrors(status: seq<LoadBalancerIngress>, start: nat): (errs: seq<Error>)
    ensures errs == [] <==> forall l :: l in status ==> LoadBalancerIngressValid(l)
    ensures forall e :: e in errs ==> e.kind == Invalid && HasPrefix(e.field, LoadBalancerListPath)
    decreases |status|
  {
    if status == [] then []
    else
      var first := ValidateLoadBalancerIngress(status[0], start);
      PrefixTransitive(LoadBalancerListPath, [Index(start)]);
      assert forall l :: l in status ==> l == status[0] || l in status[1..];
      assert forall l :: l in status[1..] ==> l in status;
      assert status[0] in status;
      first + LoadBalancerErrors(status[1..], start + 1)
  }

  /** A status update checks the metadata change and the new load-balancer
      entries; the spec is not looked at. */
  ghost function ValidateIngressStatusUpdate(newIngress: Ingress, oldIngress: Ingress): (errs: seq<Error>)
    ensures errs == [] <==>
      MetaUpdateValid(newIngress.meta, oldIngress.meta) && forall l :: l in newIngress.status ==> LoadBalancerIngressValid(l)
  {
    ValidateObjectMetaUpdate(newIngress.meta, oldIngress.meta) + LoadBalancerErrors(newIngress.status, 0)
  }

  /** The spec of either object and the old status do not affect a status update. */
  lemma StatusUpdateIgnoresSpec(newIngress: Ingress, oldIngress: Ingress, spec1: IngressSpec, spec2: IngressSpec,
                                oldStatus: seq<LoadBalancerIngress>)
    ensures ValidateIngressStatusUpdate(newIngress.(spec := spec1), oldIngress.(spec := spec2, status := oldStatus))
         == ValidateIngressStatusUpdate(newIngress, oldIngress)
  {
  }
}
