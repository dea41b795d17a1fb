/** The Ingress create and status-update tables, stated over the model. */
module IngressCases {
  import opened FieldPaths
  import opened Names
  import opened IntOrPercent
  import opened Meta
  import opened Ingresses

  const DefaultBackend := IngressBackend("default-backend", FromInt(80))

  /** The valid ingress of the create table, with its default backend and
      its one rule's host and paths replaced. */
  function IngressWith(backend: IngressBackend, host: string, paths: seq<HTTPIngressPath>): Ingress
  {
    Ingress(NamedMeta("foo", NamespaceDefault),
      IngressSpec(Some(backend), [IngressRule(host, Some(paths))]),
      [LoadBalancerIngress("127.0.0.1", "")])
  }

  const FooPath := [HTTPIngressPath("/foo", DefaultBackend)]

  lemma IPv4Examples()
    ensures IsIPv4Literal("127.0.0.1") && IsIPv4Literal("127.0.0.2")
    ensures !IsIPv4Literal("abcd") && !IsIPv4Literal("foo.bar.com") && !IsIPv4Literal("foo.com")
    ensures !IsIPv4Literal("foobar:80")
  {
    LoopbackAddresses();
    NamesAreNotAddresses();
  }

  lemma LoopbackAddresses()
    ensures IsIPv4Literal("127.0.0.1") && IsIPv4Literal("127.0.0.2")
  {
    var s := "127.0.0.1";
    var t := "127.0.0.2";
    assert s[..3] == "127" && s[4..5] == "0" && s[6..7] == "0" && s[8..] == "1";
    assert t[..3] == "127" && t[4..5] == "0" && t[6..7] == "0" && t[8..] == "2";
    assert ParseNat("127") == 127 by { assert "127"[..2] == "12"; assert "12"[..1] == "1"; assert "1"[..0] == ""; }
    assert ParseNat("0") == 0 by { assert "0"[..0] == ""; }
    assert ParseNat("1") == 1 by { assert "1"[..0] == ""; }
    assert ParseNat("2") == 2 by { assert "2"[..0] == ""; }
    assert IsIPv4At(s, 3, 5, 7);
    assert IsIPv4At(t, 3, 5, 7);
  }

  lemma NamesAreNotAddresses()
    ensures !IsIPv4Literal("abcd") && !IsIPv4Literal("foo.bar.com") && !IsIPv4Literal("foo.com")
    ensures !IsIPv4Literal("foobar:80")
  {
    NotIPv4("abcd", 0);
    NotIPv4("foo.bar.com", 0);
    NotIPv4("foo.com", 0);
    NotIPv4("foobar:80", 0);
  }

  lemma ServiceNameExamples()
    ensures IsDNS1123Subdomain("foo") && IsDNS1123Subdomain("default-backend")
  {
    ScannedNameShapes("foo");
    ScannedNameShapes("default-backend");
  }

  lemma HostNameExamples()
    ensures IsDNS1123Subdomain("foo.bar.com") && IsDNS1123Subdomain("foo.com")
  {
    ScannedNameShapes("foo.bar.com");
    ScannedNameShapes("foo.com");
  }

  /** A dotted quad is also shaped like a DNS subdomain. */
  lemma AddressIsSubdomain()
    ensures IsDNS1123Subdomain("127.0.0.1")
  {
    ScannedNameShapes("127.0.0.1");
  }

  lemma RefusedHostExamples()
    ensures !IsDNS1123Subdomain("foobar:80") && !IsDNS1123Subdomain("defaultBackend")
  {
    assert "foobar:80"[6] == ':';
    assert "defaultBackend"[7] == 'B';
  }

  lemma FooMetaValid()
    ensures MetaValid(NamedMeta("foo", NamespaceDefault), DNSSubdomainName)
  {
    ServiceNameExamples();
    AcceptedNameExamples();
    assert LabelsValid(map[]) && AnnotationsValid(map[]);
  }

  lemma FooRuleValid()
    ensures BackendValid(DefaultBackend)
    ensures RuleValid(IngressRule("foo.bar.com", Some(FooPath)))
  {
    ServiceNameExamples();
    HostNameExamples();
    NotIPv4("foo.bar.com", 0);
    NoBracketCompiles("/foo");
    assert HTTPPathValid(FooPath[0]);
  }

  lemma ValidIngressParts()
    ensures MetaValid(NamedMeta("foo", NamespaceDefault), DNSSubdomainName)
    ensures BackendValid(DefaultBackend)
    ensures RuleValid(IngressRule("foo.bar.com", Some(FooPath)))
  {
    FooMetaValid();
    FooRuleValid();
  }

  /** For the single-rule ingresses of the table, with valid metadata and
      default backend, the errors are that rule's. */
  lemma OneRuleErrors(ingress: Ingress)
    requires MetaValid(ingress.meta, DNSSubdomainName)
    requires ingress.spec.backend.Some? && BackendValid(ingress.spec.backend.value)
    requires |ingress.spec.rules| == 1
    ensures ValidateIngress(ingress) == ValidateRule(ingress.spec.rules[0], 0)
  {
    RuleErrorsOnly(ingress);
    assert RulesErrors(ingress.spec.rules[1..], 1) == [];
  }

  /** For a rule with a valid host, the errors are those of its paths. */
  lemma OnePathErrors(host: string, hp: HTTPIngressPath)
    requires host != "" && IsDNS1123Subdomain(host) && !IsIPv4Literal(host)
    ensures ValidateRule(IngressRule(host, Some([hp])), 0) == ValidateHTTPPath(hp, HTTPPathPath(0, 0))
  {
    assert HTTPPathsErrors([hp][1..], 0, 1) == [];
  }

  lemma IngressSuccessCase()
    ensures ValidateIngress(IngressWith(DefaultBackend, "foo.bar.com", FooPath)) == []
  {
    ValidIngressParts();
  }

  /** The rules are valid, so the default backend decides the errors. */
  lemma BackendErrors(backend: IngressBackend)
    ensures ValidateIngress(IngressWith(backend, "foo.bar.com", FooPath)) == ValidateIngressBackend(backend, Fields(["spec", "backend"]))
  {
    ValidIngressParts();
    var ingress := IngressWith(backend, "foo.bar.com", FooPath);
    assert ValidateObjectMeta(ingress.meta, DNSSubdomainName) == [];
    assert RulesErrors(ingress.spec.rules, 0) == [] by {
      assert forall r :: r in ingress.spec.rules ==> r == IngressRule("foo.bar.com", Some(FooPath));
    }
  }

  /** Over the valid rules, a backend's errors are reported at `spec.backend`. */
  lemma BackendFieldErrors(backend: IngressBackend, field: string, kind: ErrorKind, value: string, detail: string)
    requires ValidateIngressBackend(backend, Fields(["spec", "backend"]))
      == [Error(Fields(["spec", "backend"]) + [Child(field)], kind, value, detail)]
    ensures ValidateIngress(IngressWith(backend, "foo.bar.com", FooPath))
      == [Error(Fields(["spec", "backend", field]), kind, value, detail)]
  {
    BackendErrors(backend);
    assert Fields(["spec", "backend"]) + [Child(field)] == Fields(["spec", "backend", field]);
  }

  lemma ServicelessBackendCase()
    ensures ValidateIngress(IngressWith(IngressBackend("", FromInt(80)), "foo.bar.com", FooPath))
      == [RequiredError(Fields(["spec", "backend", "serviceName"]), "")]
  {
    BackendFieldErrors(IngressBackend("", FromInt(80)), "serviceName", Required, "", "");
  }

  lemma InvalidServiceNameCase()
    ensures ValidateIngress(IngressWith(IngressBackend("defaultBackend", FromInt(80)), "foo.bar.com", FooPath))
      == [InvalidError(Fields(["spec", "backend", "serviceName"]), "defaultBackend", DNS1123SubdomainErrorMsg)]
  {
    RefusedHostExamples();
    BackendFieldErrors(IngressBackend("defaultBackend", FromInt(80)), "serviceName", Invalid, "defaultBackend", DNS1123SubdomainErrorMsg);
  }

  /** A numbered port outside 1..65535 is the only error of a backend with a
      valid service name. */
  lemma PortRangeErrors(name: string, n: int, p: Path)
    requires name != "" && IsDNS1123Subdomain(name) && !IsValidPortNum(n)
    ensures ValidateIngressBackend(IngressBackend(name, FromInt(n)), p)
      == [InvalidError(p + [Child("servicePort")], IntToString(n), PortRangeErrorMsg)]
  {
  }

  /** A backend without a port has port number 0, outside 1..65535. */
  lemma MissingPortErrors()
    ensures ValidateIngressBackend(IngressBackend("default-backend", FromInt(0)), Fields(["spec", "backend"]))
      == [InvalidError(Fields(["spec", "backend", "servicePort"]), "0", PortRangeErrorMsg)]
  {
    ServiceNameExamples();
    PortRangeErrors("default-backend", 0, Fields(["spec", "backend"]));
    assert Fields(["spec", "backend"]) + [Child("servicePort")] == Fields(["spec", "backend", "servicePort"]);
    assert IntToString(0) == "0";
  }

  lemma MissingPortCase()
    ensures ValidateIngress(IngressWith(IngressBackend("default-backend", FromInt(0)), "foo.bar.com", FooPath))
      == [InvalidError(Fields(["spec", "backend", "servicePort"]), "0", PortRangeErrorMsg)]
  {
    BackendErrors(IngressBackend("default-backend", FromInt(0)));
    MissingPortErrors();
  }

  /** The table's rule cases keep the default backend and metadata, so the
      one rule decides the errors. */
  lemma RuleCase(host: string, paths: seq<HTTPIngressPath>)
    ensures ValidateIngress(IngressWith(DefaultBackend, host, paths)) == ValidateRule(IngressRule(host, Some(paths)), 0)
  {
    ValidIngressParts();
    OneRuleErrors(IngressWith(DefaultBackend, host, paths));
  }

  /** The original path list is valid. */
  lemma FooPathErrors()
    ensures HTTPRuleErrors(FooPath, 0) == []
  {
    FooRuleValid();
  }

  /** A host that is neither a DNS subdomain nor an address gets exactly one error. */
  lemma MalformedHostErrors(host: string)
    requires host != "" && !IsDNS1123Subdomain(host) && !IsIPv4Literal(host)
    ensures ValidateRule(IngressRule(host, Some(FooPath)), 0)
      == [InvalidError(RulePath(0) + [Child("host")], host, DNS1123SubdomainErrorMsg)]
  {
    FooPathErrors();
  }

  /** A host that is an address gets exactly the not-an-address error when
      it is also shaped like a DNS subdomain. */
  lemma AddressHostErrors(host: string)
    requires IsDNS1123Subdomain(host) && IsIPv4Literal(host)
    ensures ValidateRule(IngressRule(host, Some(FooPath)), 0)
      == [InvalidError(RulePath(0) + [Child("host")], host, NotAnIPMsg)]
  {
    FooPathErrors();
  }

  lemma BadHostCase()
    ensures ValidateIngress(IngressWith(DefaultBackend, "foobar:80", FooPath))
      == [InvalidError(RulePath(0) + [Child("host")], "foobar:80", DNS1123SubdomainErrorMsg)]
  {
    RuleCase("foobar:80", FooPath);
    NotIPv4("foobar:80", 0);
    RefusedHostExamples();
    MalformedHostErrors("foobar:80");
  }

  /** 127.0.0.1 is a well-formed DNS subdomain; it is refused only as an address. */
  lemma HostIPCase()
    ensures ValidateIngress(IngressWith(DefaultBackend, "127.0.0.1", FooPath))
      == [InvalidError(RulePath(0) + [Child("host")], "127.0.0.1", NotAnIPMsg)]
  {
    RuleCase("127.0.0.1", FooPath);
    LoopbackAddresses();
    AddressIsSubdomain();
    AddressHostErrors("127.0.0.1");
  }

  lemma NoPathsCase()
    ensures ValidateIngress(IngressWith(DefaultBackend, "foo.bar.com", []))
      == [RequiredError(RulePath(0) + [Child("http"), Child("paths")], "")]
  {
    RuleCase("foo.bar.com", []);
    NotIPv4("foo.bar.com", 0);
    HostNameExamples();
  }

  /** For the original host, a single path decides the errors. */
  lemma PathCase(hp: HTTPIngressPath)
    ensures ValidateIngress(IngressWith(DefaultBackend, "foo.bar.com", [hp])) == ValidateHTTPPath(hp, HTTPPathPath(0, 0))
  {
    RuleCase("foo.bar.com", [hp]);
    NotIPv4("foo.bar.com", 0);
    HostNameExamples();
    OnePathErrors("foo.bar.com", hp);
  }

  /** Under the original host, a path's own text decides the errors. */
  lemma PathTextCase(path: string)
    ensures ValidateIngress(IngressWith(DefaultBackend, "foo.bar.com", [HTTPIngressPath(path, DefaultBackend)]))
      == ValidatePathText(path, HTTPPathPath(0, 0) + [Child("path")])
  {
    PathCase(HTTPIngressPath(path, DefaultBackend));
    FooRuleValid();
  }

  lemma RelativePathCase()
    ensures ValidateIngress(IngressWith(DefaultBackend, "foo.bar.com", [HTTPIngressPath("invalid", DefaultBackend)]))
      == [InvalidError(HTTPPathPath(0, 0) + [Child("path")], "invalid", AbsolutePathMsg)]
  {
    PathTextCase("invalid");
    NoBracketCompiles("invalid");
  }

  lemma UnclosedBracketCase()
    ensures ValidateIngress(IngressWith(DefaultBackend, "foo.bar.com", [HTTPIngressPath("/invalid[", DefaultBackend)]))
      == [InvalidError(HTTPPathPath(0, 0) + [Child("path")], "/invalid[", RegexMsg)]
  {
    PathTextCase("/invalid[");
    assert !PatternCompiles("/invalid[") by { assert "/invalid["[8] == '['; }
  }

  // ---- status updates ------------------------------------------------------

  function StatusIngress(status: seq<LoadBalancerIngress>): Ingress
  {
    Ingress(ObjectMeta("foo", NamespaceDefault, "", "9", map[], map[]),
      IngressSpec(Some(DefaultBackend), [IngressRule("foo.bar.com", Some(FooPath))]), status)
  }

  const OldStatus := [LoadBalancerIngress("127.0.0.1", "foo.bar.com")]

  /** With unchanged metadata, the first load-balancer entry decides the errors. */
  lemma OneEntryErrors(l: LoadBalancerIngress)
    ensures ValidateIngressStatusUpdate(StatusIngress([l]), StatusIngress(OldStatus)) == ValidateLoadBalancerIngress(l, 0)
  {
    UnchangedMetaUpdate(StatusIngress(OldStatus).meta);
    assert LoadBalancerErrors([l][1..], 1) == [];
  }

  lemma IngressStatusUpdateSuccessCase()
    ensures ValidateIngressStatusUpdate(StatusIngress([LoadBalancerIngress("127.0.0.2", "foo.com")]), StatusIngress(OldStatus)) == []
  {
    LoopbackAddresses();
    NotIPv4("foo.com", 0);
    HostNameExamples();
    OneEntryErrors(LoadBalancerIngress("127.0.0.2", "foo.com"));
  }

  lemma InvalidIPCase()
    ensures ValidateIngressStatusUpdate(StatusIngress([LoadBalancerIngress("abcd", "foo.com")]), StatusIngress(OldStatus))
      == [InvalidError(LoadBalancerPath(0) + [Child("ip")], "abcd", IPAddressMsg)]
  {
    NotIPv4("abcd", 0);
    NotIPv4("foo.com", 0);
    HostNameExamples();
    OneEntryErrors(LoadBalancerIngress("abcd", "foo.com"));
  }

  lemma IPAsHostnameCase()
    ensures ValidateIngressStatusUpdate(StatusIngress([LoadBalancerIngress("127.0.0.1", "127.0.0.1")]), StatusIngress(OldStatus))
      == [InvalidError(LoadBalancerPath(0) + [Child("hostname")], "127.0.0.1", NotAnIPMsg)]
  {
    LoopbackAddresses();
    AddressIsSubdomain();
    OneEntryErrors(LoadBalancerIngress("127.0.0.1", "127.0.0.1"));
  }
}
