/** The contract every security test shares: its metadata, the finding record, the
    applicability check and the helpers that build findings and their reference links. */
module BaseTest {
  import opened Types
  import opened Strings

  /** Severity of a finding; categorical. `Value` only spells out the string each enum member carries. */
  datatype Severity = Critical | High | Medium | Low | Info {
    function Value(): string {
      match this
      case Critical => "critical"
      case High => "high"
      case Medium => "medium"
      case Low => "low"
      case Info => "info"
    }
  }

  /** Execution preference of a test; a smaller value means run earlier. */
  datatype Priority = Critical | High | Medium | Low {
    function Value(): (v: int)
      ensures 1 <= v <= 4
    {
      match this
      case Critical => 1
      case High => 2
      case Medium => 3
      case Low => 4
    }
  }

  /** Looking an enum member up by its value, as `TestPriority(v)` would. The scanner never makes this
      lookup; it only spells out that the values 1 to 4 name the members one-to-one. */
  function PriorityFromValue(v: int): (p: Option<Priority>)
    ensures p.Some? <==> 1 <= v <= 4
    ensures p.Some? ==> p.value.Value() == v
  {
    if v == 1 then Some(Priority.Critical)
    else if v == 2 then Some(Priority.High)
    else if v == 3 then Some(Priority.Medium)
    else if v == 4 then Some(Priority.Low)
    else None
  }

  lemma PriorityValueRoundTrip(p: Priority)
    ensures PriorityFromValue(p.Value()) == Some(p)
  {
  }

  /** The free-form evidence of a finding. Values are kept as strings. */
  type Evidence = map<string, string>

  /** A finding: the fields of the `Vulnerability` record except the confidence score. */
  datatype Vulnerability = Vulnerability(
    id: string,
    title: string,
    description: string,
    severity: Severity,
    category: string,
    cweId: Option<string>,
    owaspCategory: Option<string>,
    endpoint: Option<string>,
    httpMethod: Option<string>,
    evidence: Option<Evidence>,
    remediation: Option<string>,
    references: seq<string>)

  /** The class attributes a test variant overrides. */
  datatype TestInfo = TestInfo(
    testId: string,
    name: string,
    description: string,
    category: string,
    priority: Priority,
    owaspCategory: Option<string>,
    cweId: Option<string>)

  /** The class attributes of the base class itself. */
  const DefaultInfo := TestInfo("", "", "", "", Priority.Medium, None, None)

  /** Whether a variant keeps the inherited `is_applicable` or overrides it with its own predicate. */
  datatype Applicability = Inherited | Overridden(applies: Endpoint -> bool)

  /** A test variant (a subclass): its metadata and its applicability check. */
  datatype TestClass = TestClass(info: TestInfo, applicability: Applicability) {
    function IsApplicable(e: Endpoint): bool {
      match applicability
      case Inherited => true
      case Overridden(applies) => applies(e)
    }
  }

  /** CRITICAL=1 < HIGH=2 < MEDIUM=3 < LOW=4, and the base class's priority is MEDIUM. */
  lemma PriorityOrder()
    ensures Priority.Critical.Value() < Priority.High.Value() < Priority.Medium.Value() < Priority.Low.Value()
    ensures Priority.Critical.Value() == 1 && Priority.Low.Value() == 4
    ensures DefaultInfo.priority == Priority.Medium && DefaultInfo.priority.Value() == 3
  {
  }

  /** The inherited check accepts every endpoint. */
  lemma InheritedAcceptsAll(info: TestInfo, e: Endpoint)
    ensures TestClass(info, Inherited).IsApplicable(e)
  {
  }

  /** The finding id: test id, an underscore, and the decimal count of findings so far. */
  function FindingId(testId: string, count: nat): string {
    testId + "_" + NatToString(count)
  }

  /** Length of the longest suffix of `s` made of digits only. */
  function DigitSuffixLength(s: string): (k: nat)
    ensures k <= |s|
    ensures AllDigits(s[|s| - k..])
    ensures k < |s| ==> !IsDigit(s[|s| - k - 1])
    decreases |s|
  {
    if |s| == 0 || !IsDigit(s[|s| - 1]) then 0
    else
      var p := s[..|s| - 1];
      var k := DigitSuffixLength(p);
      DigitSuffixStep(s, k);
      k + 1
  }

  /** Extending a digit suffix of `s` minus its last character by that last digit. */
  lemma DigitSuffixStep(s: string, k: nat)
    requires |s| > 0 && IsDigit(s[|s| - 1]) && k < |s|
    requires AllDigits(s[..|s| - 1][|s| - 1 - k..])
    ensures AllDigits(s[|s| - (k + 1)..])
  {
    assert s[..|s| - 1][|s| - 1 - k..] + [s[|s| - 1]] == s[|s| - (k + 1)..];
  }

  lemma {:induction false} DigitSuffixOfId(t: string, d: string)
    requires AllDigits(d)
    ensures DigitSuffixLength(t + "_" + d) == |d|
  {
    var s := t + "_" + d;
    assert s[|s| - |d|..] == d;
    assert s[|s| - |d| - 1] == '_';
  }

  /** Two findings get the same id only if they come from the same test id with the same count. */
  lemma FindingIdInjective(t1: string, n1: nat, t2: string, n2: nat)
    requires FindingId(t1, n1) == FindingId(t2, n2)
    ensures t1 == t2 && n1 == n2
  {
    var s := FindingId(t1, n1);
    var d1, d2 := NatToString(n1), NatToString(n2);
    DigitSuffixOfId(t1, d1);
    DigitSuffixOfId(t2, d2);
    assert d1 == s[|s| - |d1|..] == d2;
    assert t1 == s[..|t1|] == t2;
    NatToStringInjective(n1, n2);
  }

  const OwaspApiPrefix := "https://owasp.org/API-Security/editions/2023/en/"
  const TestingGuideUrl := "https://owasp.org/www-project-web-security-testing-guide/"

  /** Python truthiness of an optional string: neither `None` nor empty. */
  predicate IsSet(s: Option<string>) {
    s.Some? && s.value != ""
  }

  /** The reference links of a finding, derived from the OWASP category alone. */
  function References(owaspCategory: Option<string>): seq<string> {
    (if IsSet(owaspCategory) then [OwaspApiPrefix + Lower(owaspCategory.value) + "/"] else [])
    + [TestingGuideUrl]
  }

  /** Two links when the category is set, one otherwise; the testing guide always comes last,
      and the category link is prefix, lower-cased category, slash. */
  lemma ReferencesShape(owaspCategory: Option<string>)
    ensures var r := References(owaspCategory);
      && |r| == (if IsSet(owaspCategory) then 2 else 1)
      && r[|r| - 1] == TestingGuideUrl
      && (IsSet(owaspCategory) ==> r[0] == OwaspApiPrefix + Lower(owaspCategory.value) + "/")
  {
  }

  /** Categories that differ only in letter case give the same links. */
  lemma ReferencesIgnoreCase(a: string, b: string)
    requires EqualIgnoringCase(a, b)
    ensures References(Some(a)) == References(Some(b))
  {
    LowerEqualIffIgnoringCase(a, b);
  }

  /** The category link is already lower-case: building it from its own lower-cased category is a no-op. */
  lemma ReferencesOfLowered(c: string)
    ensures References(Some(Lower(c))) == References(Some(c))
  {
    LowerIdempotent(c);
  }

  /** An instance of a test variant bound to one endpoint. The HTTP session is not modelled. */
  class SecurityTest {
    const testClass: TestClass
    var endpoint: Endpoint
    var targetUrl: string
    var config: Config
    /** The findings the instance has recorded so far. */
    var vulnerabilities: seq<Vulnerability>

    constructor (testClass: TestClass, endpoint: Endpoint, targetUrl: string, config: Config)
      ensures this.testClass == testClass && this.endpoint == endpoint
      ensures this.targetUrl == targetUrl && this.config == config
      ensures vulnerabilities == []
    {
      this.testClass := testClass;
      this.endpoint := endpoint;
      this.targetUrl := targetUrl;
      this.config := config;
      vulnerabilities := [];
    }

    /** The applicability check for an endpoint `e`, which need not be the one the instance is bound to. */
    function IsApplicable(e: Endpoint): bool {
      testClass.IsApplicable(e)
    }

    /** Builds a finding from the instance's metadata and bound endpoint. Being a function,
        it changes no field, so two calls with no recorded finding in between agree. */
    function CreateVulnerability(title: string, description: string, severity: Severity,
                                 evidence: Option<Evidence>): (v: Vulnerability)
      reads this
      ensures v.id == FindingId(testClass.info.testId, |vulnerabilities|)
      ensures v.title == title && v.description == description && v.severity == severity
      ensures v.category == testClass.info.category
      ensures v.cweId == testClass.info.cweId && v.owaspCategory == testClass.info.owaspCategory
      ensures v.endpoint == Some(EndpointLabel(endpoint)) && v.httpMethod == Some(endpoint.httpMethod)
      ensures evidence == None || evidence == Some(map[]) ==> v.evidence == Some(map[])
      ensures evidence.Some? ==> v.evidence == evidence
      ensures v.remediation == None
      ensures v.references == References(testClass.info.owaspCategory)
    {
      Vulnerability(
        id := FindingId(testClass.info.testId, |vulnerabilities|),
        title := title,
        description := description,
        severity := severity,
        category := testClass.info.category,
        cweId := testClass.info.cweId,
        owaspCategory := testClass.info.owaspCategory,
        endpoint := Some(EndpointLabel(endpoint)),
        httpMethod := Some(endpoint.httpMethod),
        evidence := Some(if evidence.Some? && evidence.value != map[] then evidence.value else map[]),
        remediation := None,
        references := References(testClass.info.owaspCategory))
    }

    /** Builds the reference list by successive appends. */
    method GetReferences() returns (references: seq<string>)
      ensures |references| == (if IsSet(testClass.info.owaspCategory) then 2 else 1)
      ensures references[|references| - 1] == TestingGuideUrl
      ensures IsSet(testClass.info.owaspCategory) ==>
        references[0] == OwaspApiPrefix + Lower(testClass.info.owaspCategory.value) + "/"
      ensures references == References(testClass.info.owaspCategory)
    {
      references := [];
      var category := testClass.info.owaspCategory;
      if category.Some? && category.value != "" {
        references := references + [OwaspApiPrefix + Lower(category.value) + "/"];
      }
      references := references + [TestingGuideUrl];
    }
  }
}
