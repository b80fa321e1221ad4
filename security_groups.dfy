/**
 * Security-group rule analysis and exposure scoring
 * (BACKEND_FILES/security_groups_scan_v2.py).
 *
 * A rule's port label is built as text ("All", "22", "0-1024") and the
 * high-risk test parses that text back, so the model keeps the text: the
 * decimal rendering of Python's `str(int)`, `str.split('-')` and `int()`
 * on digit strings (the only texts that arise here). The EC2 lookups of
 * attached resources are a parameter.
 */
module SecurityGroups {
  import opened Common

  /** HIGH_RISK_PORTS, in the dictionary's order. */
  const HighRiskPorts: seq<(nat, string)> := [
    (22, "SSH"), (23, "Telnet"), (3389, "RDP"), (3306, "MySQL"), (5432, "PostgreSQL"), (1433, "MSSQL"),
    (27017, "MongoDB"), (6379, "Redis"), (11211, "Memcached"), (9200, "Elasticsearch"), (5601, "Kibana"),
    (8080, "HTTP-Alt"), (21, "FTP"), (25, "SMTP"), (445, "SMB"), (135, "RPC"), (139, "NetBIOS")]

  predicate Listed(n: int)
  {
    exists i :: 0 <= i < |HighRiskPorts| && HighRiskPorts[i].0 == n
  }

  predicate ListedBetween(lo: int, hi: int)
  {
    exists i :: 0 <= i < |HighRiskPorts| && lo <= HighRiskPorts[i].0 <= hi
  }

  /** `HIGH_RISK_PORTS[n]` when `n in HIGH_RISK_PORTS`. */
  function ServiceOf(ports: seq<(nat, string)>, n: int): (r: Option<string>)
    ensures r.Some? <==> exists i :: 0 <= i < |ports| && ports[i].0 == n
    ensures r.Some? ==> (n as nat, r.value) in ports
  {
    if ports == [] then None
    else if ports[0].0 == n then Some(ports[0].1)
    else
      var r := ServiceOf(ports[1..], n);
      assert forall i :: 1 <= i < |ports| ==> ports[i] == ports[1..][i - 1];
      r
  }

  /** The first listed port in `lo..hi`, in the dictionary's order. */
  function FirstListedIn(ports: seq<(nat, string)>, lo: int, hi: int): (r: Option<(nat, string)>)
    ensures r.Some? ==> r.value in ports && lo <= r.value.0 <= hi
    ensures r.None? <==> forall i :: 0 <= i < |ports| ==> !(lo <= ports[i].0 <= hi)
  {
    if ports == [] then None
    else if lo <= ports[0].0 <= hi then Some(ports[0])
    else
      var r := FirstListedIn(ports[1..], lo, hi);
      assert forall i :: 1 <= i < |ports| ==> ports[i] == ports[1..][i - 1];
      r
  }

  // ---------------------------------------------------------------------
  // Decimal text
  // ---------------------------------------------------------------------

  predicate IsDigit(c: char)
  {
    '0' <= c <= '9'
  }

  predicate AllDigits(s: string)
  {
    forall i :: 0 <= i < |s| ==> IsDigit(s[i])
  }

  /** `str(n)` for n >= 0. */
  function NatText(n: nat): (s: string)
    ensures |s| > 0 && AllDigits(s)
  {
    var last := [(48 + n % 10) as char];
    if n < 10 then last else NatText(n / 10) + last
  }

  /** `str(n)`. */
  function IntText(n: int): string
  {
    if n < 0 then "-" + NatText(-n) else NatText(n)
  }

  function DigitsValue(s: string): nat
    requires AllDigits(s)
  {
    if s == [] then 0 else DigitsValue(s[..|s| - 1]) * 10 + (s[|s| - 1] as int - 48)
  }

  /** `int(s)` for a text without a sign: defined exactly for non-empty digit strings. */
  function ParseNat(s: string): (r: Option<nat>)
    ensures r.Some? <==> s != [] && AllDigits(s)
  {
    if s != [] && AllDigits(s) then Some(DigitsValue(s)) else None
  }

  /** `int(str(n)) == n`. */
  lemma {:induction false} ParseNatText(n: nat)
    ensures ParseNat(NatText(n)) == Some(n)
  {
    var s := NatText(n);
    var d := n % 10;
    assert ((48 + d) as char) as int == 48 + d;
    assert s[|s| - 1] == (48 + d) as char;
    if n >= 10 {
      ParseNatText(n / 10);
      assert s[..|s| - 1] == NatText(n / 10);
    } else {
      assert s == [(48 + d) as char];
      assert s[..|s| - 1] == [];
      assert DigitsValue(s) == DigitsValue([]) * 10 + d;
    }
  }

  /** `s.split(c)`. */
  function Split(s: string, c: char): (r: seq<string>)
    ensures |r| >= 1
  {
    if s == [] then [""]
    else if s[0] == c then [""] + Split(s[1..], c)
    else
      var rest := Split(s[1..], c);
      [[s[0]] + rest[0]] + rest[1..]
  }

  lemma {:induction false} SplitWithout(s: string, c: char)
    requires c !in s
    ensures Split(s, c) == [s]
  {
    if s != [] {
      SplitWithout(s[1..], c);
      assert [s[0]] + s[1..] == s;
    }
  }

  /** `Split` on a string that starts with the separator. */
  lemma SplitAtSeparator(s: string, c: char)
    requires s != [] && s[0] == c
    ensures Split(s, c) == [""] + Split(s[1..], c)
  {
  }

  /** `Split` on a string that starts with another character. */
  lemma SplitAtChar(s: string, c: char)
    requires s != [] && s[0] != c
    ensures Split(s, c) == [[s[0]] + Split(s[1..], c)[0]] + Split(s[1..], c)[1..]
  {
  }

  /** Head and tail of x + [c] + y for a non-empty x. */
  lemma ConsTail(x: string, c: char, y: string)
    requires x != []
    ensures (x + [c] + y)[0] == x[0] && (x + [c] + y)[1..] == x[1..] + [c] + y
  {
  }

  /** Head and tail of a concatenation with a non-empty left side. */
  lemma TailOfConcat(p: seq<string>, q: seq<string>)
    requires p != []
    ensures (p + q)[0] == p[0] && (p + q)[1..] == p[1..] + q
  {
  }

  /** The inductive step of SplitConcat when x starts with the separator. */
  lemma SplitConcatSepStep(x: string, c: char, y: string)
    requires x != [] && x[0] == c
    requires Split(x[1..] + [c] + y, c) == Split(x[1..], c) + Split(y, c)
    ensures Split(x + [c] + y, c) == Split(x, c) + Split(y, c)
  {
    ConsTail(x, c, y);
    SplitAtSeparator(x + [c] + y, c);
    SplitAtSeparator(x, c);
    AppendAssoc([""], Split(x[1..], c), Split(y, c));
  }

  /** The inductive step of SplitConcat when x starts with another character. */
  lemma SplitConcatCharStep(x: string, c: char, y: string)
    requires x != [] && x[0] != c
    requires Split(x[1..] + [c] + y, c) == Split(x[1..], c) + Split(y, c)
    ensures Split(x + [c] + y, c) == Split(x, c) + Split(y, c)
  {
    ConsTail(x, c, y);
    SplitAtChar(x + [c] + y, c);
    SplitAtChar(x, c);
    TailOfConcat(Split(x[1..], c), Split(y, c));
    AppendAssoc([[x[0]] + Split(x[1..], c)[0]], Split(x[1..], c)[1..], Split(y, c));
  }

  /** Splitting at a separator splits the two sides independently. */
  lemma {:induction false} SplitConcat(x: string, c: char, y: string)
    ensures Split(x + [c] + y, c) == Split(x, c) + Split(y, c)
  {
    if x == [] {
      assert x + [c] + y == [c] + y && ([c] + y)[1..] == y;
      SplitAtSeparator([c] + y, c);
    } else {
      SplitConcat(x[1..], c, y);
      if x[0] == c {
        SplitConcatSepStep(x, c, y);
      } else {
        SplitConcatCharStep(x, c, y);
      }
    }
  }

  // ---------------------------------------------------------------------
  // Rule analysis
  // ---------------------------------------------------------------------

  /** The keys of one permission entry; list entries carry their CidrIp / CidrIpv6 / GroupId key, if present. */
  datatype SgRule = SgRule(
    fromPort: Option<int>, toPort: Option<int>, ipProtocol: Option<string>,
    ipRanges: seq<Option<string>>, ipv6Ranges: seq<Option<string>>, groupPairs: seq<Option<string>>)

  datatype Direction = Ingress | Egress

  datatype RiskReason = AllPortsOpen | RangeIncludes(service: string, port: nat) | ServiceExposed(service: string)

  datatype RuleRecommendation =
    | RemoveOrRestrict(reason: RiskReason)
    | RestrictCidr
    | MonitorInternal(reason: RiskReason)
    | AppearsSafe

  datatype RuleAnalysis = RuleAnalysis(
    port: string, protocol: string, cidr: string, direction: Direction, exposed: bool, highRisk: bool,
    riskReason: Option<RiskReason>, recommendation: RuleRecommendation, confidence: nat)

  /** The port label: the single port, "All" for port 0 or the full range, else "from-to". */
  function PortText(fromPort: int, toPort: int): string
  {
    if fromPort == toPort then (if fromPort != 0 then IntText(fromPort) else "All")
    else if fromPort == 0 && toPort == 65535 then "All"
    else IntText(fromPort) + "-" + IntText(toPort)
  }

  function ProtocolLabel(ipProtocol: Option<string>): (r: string)
    ensures GetOr(ipProtocol, "-1") == "-1" ==> r == "All"
    ensures GetOr(ipProtocol, "-1") != "-1" ==> r == ipProtocol.value
  {
    var p := GetOr(ipProtocol, "-1");
    if p == "-1" then "All" else p
  }

  /** The first IPv4 range, else the first IPv6 range, else the first peer group. */
  function CidrOf(rule: SgRule): (r: string)
    ensures rule.ipRanges != [] ==> r == GetOr(rule.ipRanges[0], "N/A")
    ensures rule.ipRanges == [] && rule.ipv6Ranges != [] ==> r == GetOr(rule.ipv6Ranges[0], "N/A")
    ensures rule.ipRanges == [] && rule.ipv6Ranges == [] && rule.groupPairs != [] ==>
      r == "SG: " + GetOr(rule.groupPairs[0], "N/A")
    ensures rule.ipRanges == [] && rule.ipv6Ranges == [] && rule.groupPairs == [] ==> r == "N/A"
  {
    if rule.ipRanges != [] then GetOr(rule.ipRanges[0], "N/A")
    else if rule.ipv6Ranges != [] then GetOr(rule.ipv6Ranges[0], "N/A")
    else if rule.groupPairs != [] then "SG: " + GetOr(rule.groupPairs[0], "N/A")
    else "N/A"
  }

  predicate OpenToInternet(cidr: string)
  {
    cidr == "0.0.0.0/0" || cidr == "::/0"
  }

  /**
   * The high-risk test on a port label: every port for "All"; for a label
   * with '-', the first listed port inside the parsed range (no risk when
   * the label does not split into two numbers); otherwise the listed
   * service of the parsed port.
   */
  function PortRisk(port: string): Option<RiskReason>
  {
    if port == "All" then Some(AllPortsOpen)
    else if '-' in port then
      var parts := Split(port, '-');
      if |parts| == 2 && ParseNat(parts[0]).Some? && ParseNat(parts[1]).Some? then
        match FirstListedIn(HighRiskPorts, ParseNat(parts[0]).value, ParseNat(parts[1]).value)
        case Some(p) => Some(RangeIncludes(p.1, p.0))
        case None => None
      else None
    else
      match ParseNat(port)
      case None => None
      case Some(n) =>
        match ServiceOf(HighRiskPorts, n)
        case Some(name) => Some(ServiceExposed(name))
        case None => None
  }

  function RecommendationOf(exposed: bool, risk: Option<RiskReason>): RuleRecommendation
  {
    if exposed && risk.Some? then RemoveOrRestrict(risk.value)
    else if exposed then RestrictCidr
    else if risk.Some? then MonitorInternal(risk.value)
    else AppearsSafe
  }

  function ConfidenceOf(exposed: bool, highRisk: bool): nat
  {
    if exposed && highRisk then 95 else if exposed then 85 else if highRisk then 70 else 90
  }

  /** analyze_rule. */
  function RuleAnalysisOf(rule: SgRule, direction: Direction): (a: RuleAnalysis)
    ensures a.highRisk <==> a.riskReason.Some?
    ensures a.riskReason == PortRisk(a.port)
    ensures a.exposed <==> OpenToInternet(CidrOf(rule))
    ensures a.port == PortText(GetOr(rule.fromPort, 0), GetOr(rule.toPort, 0)) && a.direction == direction
  {
    var port := PortText(GetOr(rule.fromPort, 0), GetOr(rule.toPort, 0));
    var cidr := CidrOf(rule);
    var exposed := OpenToInternet(cidr);
    var risk := PortRisk(port);
    RuleAnalysis(port, ProtocolLabel(rule.ipProtocol), cidr, direction, exposed, risk.Some?, risk,
                 RecommendationOf(exposed, risk), ConfidenceOf(exposed, risk.Some?))
  }

  /** The first of the non-"All" facts about a label: "str(n)" is never "All", never contains '-', parses back. */
  lemma NatTextFacts(n: nat)
    ensures NatText(n) != "All" && '-' !in NatText(n) && ParseNat(NatText(n)) == Some(n)
  {
    ParseNatText(n);
    assert IsDigit(NatText(n)[0]);
  }

  /** A single non-zero port: "str(p)"; a negative one contains '-' and splits into "" and digits. */
  lemma SinglePortRisk(p: int)
    requires p != 0
    ensures PortText(p, p) != "All"
    ensures PortRisk(PortText(p, p)).Some? <==> p > 0 && Listed(p)
  {
    if p > 0 {
      NatTextFacts(p);
    } else {
      NatTextFacts(-p);
      var text := PortText(p, p);
      assert text == [] + ['-'] + NatText(-p);
      assert text[0] == '-';
      SplitConcat([], '-', NatText(-p));
      SplitWithout([], '-');
      SplitWithout(NatText(-p), '-');
    }
  }

  /** A decimal text holds no '-'. */
  lemma DigitsHaveNoDash(s: string)
    requires AllDigits(s)
    ensures '-' !in s
  {
  }

  /** "str(n)" splits on '-' into one piece, or two when n is negative. */
  lemma IntTextPieces(n: int)
    ensures |Split(IntText(n), '-')| == if n < 0 then 2 else 1
  {
    var digits := NatText(if n < 0 then -n else n);
    DigitsHaveNoDash(digits);
    SplitWithout(digits, '-');
    if n < 0 {
      assert ("-" + digits)[1..] == digits;
      SplitAtSeparator("-" + digits, '-');
    }
  }

  /** A range of non-negative bounds splits into its two numbers. */
  lemma NonNegativeRangeRisk(a: nat, b: nat)
    requires a != b && !(a == 0 && b == 65535)
    ensures PortText(a, b) != "All"
    ensures PortRisk(PortText(a, b)).Some? <==> ListedBetween(a, b)
  {
    var text := PortText(a, b);
    NatTextFacts(a);
    NatTextFacts(b);
    SplitWithout(NatText(a), '-');
    SplitWithout(NatText(b), '-');
    assert text == NatText(a) + ['-'] + NatText(b);
    assert text[|NatText(a)|] == '-';
    SplitConcat(NatText(a), '-', NatText(b));
  }

  /** A range with a negative bound splits into three or four pieces, so it never parses. */
  lemma NegativeRangeRisk(a: int, b: int)
    requires a != b && (a < 0 || b < 0)
    ensures PortText(a, b) != "All"
    ensures PortRisk(PortText(a, b)).None?
  {
    var text := PortText(a, b);
    assert text == IntText(a) + ['-'] + IntText(b);
    assert text[|IntText(a)|] == '-';
    SplitConcat(IntText(a), '-', IntText(b));
    IntTextPieces(a);
    IntTextPieces(b);
    assert |Split(text, '-')| > 2;
  }

  /**
   * Which port ranges are high-risk: all ports (port 0 or 0-65535), a
   * single positive listed port, or a range of non-negative bounds that
   * holds a listed port. A label with a negative bound (ICMP rules use -1)
   * never parses, so such a rule is not high-risk whatever its range.
   */
  lemma HighRiskPortRanges(fromPort: int, toPort: int)
    ensures var all := (fromPort == toPort == 0) || (fromPort == 0 && toPort == 65535);
      (PortText(fromPort, toPort) == "All" <==> all)
      && (PortRisk(PortText(fromPort, toPort)).Some? <==>
            all
            || (fromPort == toPort && fromPort > 0 && Listed(fromPort))
            || (fromPort != toPort && !all && fromPort >= 0 && toPort >= 0 && ListedBetween(fromPort, toPort)))
  {
    if (fromPort == toPort == 0) || (fromPort == 0 && toPort == 65535) {
    } else if fromPort == toPort {
      SinglePortRisk(fromPort);
    } else if fromPort >= 0 && toPort >= 0 {
      NonNegativeRangeRisk(fromPort, toPort);
    } else {
      NegativeRangeRisk(fromPort, toPort);
    }
  }

  /** The confidence ranks exposure first, then risk: 95, 85, 70, with 90 for a safe rule. */
  lemma RuleConfidenceOrder(rule: SgRule, direction: Direction)
    ensures var a := RuleAnalysisOf(rule, direction);
      (a.exposed && a.highRisk <==> a.confidence == 95)
      && (a.exposed && !a.highRisk <==> a.confidence == 85)
      && (!a.exposed && a.highRisk <==> a.confidence == 70)
      && (!a.exposed && !a.highRisk <==> a.confidence == 90)
      && (a.recommendation == AppearsSafe <==> !a.exposed && !a.highRisk)
  {
  }

  /** The range search of analyze_rule: the first listed port inside `lo..hi`. */
  method FindListedPort(ports: seq<(nat, string)>, lo: int, hi: int) returns (r: Option<(nat, string)>)
    ensures r == FirstListedIn(ports, lo, hi)
  {
    var i := 0;
    while i < |ports|
      invariant 0 <= i <= |ports|
      invariant FirstListedIn(ports[i..], lo, hi) == FirstListedIn(ports, lo, hi)
    {
      assert ports[i..][1..] == ports[i + 1..];
      if lo <= ports[i].0 <= hi {
        return Some(ports[i]);
      }
      i := i + 1;
    }
    r := None;
  }

  /** analyze_rule. */
  method AnalyzeRule(rule: SgRule, direction: Direction) returns (a: RuleAnalysis)
    ensures a == RuleAnalysisOf(rule, direction)
  {
    var port := PortText(GetOr(rule.fromPort, 0), GetOr(rule.toPort, 0));
    var cidr := CidrOf(rule);
    var exposed := OpenToInternet(cidr);
    var risk: Option<RiskReason> := None;
    if port == "All" {
      risk := Some(AllPortsOpen);
    } else if '-' in port {
      var parts := Split(port, '-');
      if |parts| == 2 && ParseNat(parts[0]).Some? && ParseNat(parts[1]).Some? {
        var found := FindListedPort(HighRiskPorts, ParseNat(parts[0]).value, ParseNat(parts[1]).value);
        if found.Some? {
          risk := Some(RangeIncludes(found.value.1, found.value.0));
        }
      }
    } else {
      var n := ParseNat(port);
      if n.Some? && ServiceOf(HighRiskPorts, n.value).Some? {
        risk := Some(ServiceExposed(ServiceOf(HighRiskPorts, n.value).value));
      }
    }
    a := RuleAnalysis(port, ProtocolLabel(rule.ipProtocol), cidr, direction, exposed, risk.Some?, risk,
                      RecommendationOf(exposed, risk), ConfidenceOf(exposed, risk.Some?));
  }

  // ---------------------------------------------------------------------
  // Group analysis
  // ---------------------------------------------------------------------

  datatype SecurityGroup = SecurityGroup(
    groupId: string, groupName: Option<string>, vpcId: Option<string>, description: Option<string>,
    ingress: seq<SgRule>, egress: seq<SgRule>)

  datatype Severity = Critical | High | Medium | Low

  datatype GroupAnalysis = GroupAnalysis(
    sgId: string, sgName: string, vpcId: string, description: string, attachedResources: seq<string>,
    totalRules: nat, internetExposedRules: nat, highRiskPorts: set<nat>, exposureScore: nat, severity: Severity,
    rules: seq<RuleAnalysis>)

  /** The analyses of a list of rules, in order. */
  function AnalyzeAll(rules: seq<SgRule>, direction: Direction): (r: seq<RuleAnalysis>)
    ensures |r| == |rules|
  {
    if rules == [] then []
    else AnalyzeAll(rules[..|rules| - 1], direction) + [RuleAnalysisOf(rules[|rules| - 1], direction)]
  }

  function CountExposed(rules: seq<RuleAnalysis>): (n: nat)
    ensures n <= |rules|
  {
    if rules == [] then 0
    else CountExposed(rules[..|rules| - 1]) + (if rules[|rules| - 1].exposed then 1 else 0)
  }

  /** An ingress rule whose single-port label is high-risk; its port goes into high_risk_ports. */
  predicate SingleRiskyPort(a: RuleAnalysis)
  {
    a.highRisk && a.port != "All" && '-' !in a.port && ParseNat(a.port).Some?
  }

  function RiskyPorts(rules: seq<RuleAnalysis>): set<nat>
  {
    if rules == [] then {}
    else
      var last := rules[|rules| - 1];
      RiskyPorts(rules[..|rules| - 1]) + (if SingleRiskyPort(last) then {ParseNat(last.port).value} else {})
  }

  predicate IsCriticalRule(a: RuleAnalysis)
  {
    a.exposed && a.highRisk && a.direction == Ingress
  }

  function CriticalRules(rules: seq<RuleAnalysis>): (r: seq<RuleAnalysis>)
    ensures forall a :: a in r <==> a in rules && IsCriticalRule(a)
    ensures |r| <= |rules|
  {
    Filter(rules, IsCriticalRule)
  }

  /** The three capped contributions, capped again at 100. */
  function ExposureScore(exposedIngress: nat, riskyPorts: nat, criticalRules: nat): nat
  {
    MinN(MinN(exposedIngress * 15, 45) + MinN(riskyPorts * 10, 30) + MinN(criticalRules * 15, 25), 100)
  }

  function MinN(a: nat, b: nat): nat
  {
    if a <= b then a else b
  }

  function SeverityOf(score: nat, hasCriticalRule: bool): Severity
  {
    if score >= 70 || hasCriticalRule then Critical
    else if score >= 50 then High
    else if score >= 25 then Medium
    else Low
  }

  /** The group analysis built from the analyses of its ingress and egress rules. */
  function Assemble(sg: SecurityGroup, attached: seq<string>, ingress: seq<RuleAnalysis>, egress: seq<RuleAnalysis>)
    : (g: GroupAnalysis)
    ensures g.rules == ingress + egress && g.totalRules == |ingress| + |egress|
    ensures g.internetExposedRules == CountExposed(ingress) && g.highRiskPorts == RiskyPorts(ingress)
  {
    var rules := ingress + egress;
    var critical := CriticalRules(rules);
    var score := ExposureScore(CountExposed(ingress), |RiskyPorts(ingress)|, |critical|);
    GroupAnalysis(sg.groupId, GetOr(sg.groupName, "unnamed"), GetOr(sg.vpcId, "N/A"), GetOr(sg.description, ""),
                  attached, |rules|, CountExposed(ingress), RiskyPorts(ingress), score,
                  SeverityOf(score, critical != []), rules)
  }

  /** analyze_security_group. */
  function GroupAnalysisOf(sg: SecurityGroup, attached: seq<string>): (g: GroupAnalysis)
    ensures g.rules == AnalyzeAll(sg.ingress, Ingress) + AnalyzeAll(sg.egress, Egress)
    ensures g.totalRules == |sg.ingress| + |sg.egress|
  {
    Assemble(sg, attached, AnalyzeAll(sg.ingress, Ingress), AnalyzeAll(sg.egress, Egress))
  }

  /** The exposure score lies in 0..100 and the final cap never changes it. */
  lemma ExposureScoreBounds(exposedIngress: nat, riskyPorts: nat, criticalRules: nat)
    ensures var s := ExposureScore(exposedIngress, riskyPorts, criticalRules);
      s <= 100
      && s == MinN(exposedIngress * 15, 45) + MinN(riskyPorts * 10, 30) + MinN(criticalRules * 15, 25)
      && (exposedIngress == 0 && riskyPorts == 0 && criticalRules == 0 <==> s == 0)
  {
  }

  /** A rule analysis as analyze_rule produces it: its risk is the risk of its port label. */
  predicate Consistent(a: RuleAnalysis)
  {
    a.riskReason == PortRisk(a.port) && a.highRisk == a.riskReason.Some?
  }

  lemma {:induction false} AnalyzedRules(rules: seq<SgRule>, direction: Direction)
    ensures forall a :: a in AnalyzeAll(rules, direction) ==> a.direction == direction && Consistent(a)
  {
    if rules != [] {
      AnalyzedRules(rules[..|rules| - 1], direction);
    }
  }

  /** Egress rules never count as critical, so they never change a group's score or severity. */
  lemma {:induction false} EgressNeverCritical(ingress: seq<RuleAnalysis>, egress: seq<RuleAnalysis>)
    requires forall a :: a in egress ==> a.direction == Egress
    ensures CriticalRules(ingress + egress) == CriticalRules(ingress)
  {
    if egress == [] {
      assert ingress + egress == ingress;
    } else {
      var init := egress[..|egress| - 1];
      var last := egress[|egress| - 1];
      EgressNeverCritical(ingress, init);
      assert ingress + egress == (ingress + init) + [last];
      assert ((ingress + init) + [last])[..|ingress + init|] == ingress + init;
    }
  }

  lemma {:induction false} RiskyPortsAreListed(rules: seq<RuleAnalysis>)
    requires forall a :: a in rules ==> Consistent(a)
    ensures forall n :: n in RiskyPorts(rules) ==> Listed(n)
  {
    if rules != [] {
      RiskyPortsAreListed(rules[..|rules| - 1]);
      var last := rules[|rules| - 1];
      assert last in rules;
      if SingleRiskyPort(last) {
        var n := ParseNat(last.port).value;
        assert ServiceOf(HighRiskPorts, n).Some?;
      }
    }
  }

  /** The severity of a group assembled from consistent ingress analyses and egress analyses. */
  lemma AssembledSeverity(sg: SecurityGroup, attached: seq<string>, ingress: seq<RuleAnalysis>,
                          egress: seq<RuleAnalysis>)
    requires forall a :: a in ingress ==> Consistent(a)
    requires forall a :: a in egress ==> a.direction == Egress
    ensures var g := Assemble(sg, attached, ingress, egress);
      g.exposureScore <= 100
      && (g.severity == Critical <==> g.exposureScore >= 70 || exists a :: a in ingress && IsCriticalRule(a))
      && (g.severity == High <==> 50 <= g.exposureScore < 70 && forall a :: a in ingress ==> !IsCriticalRule(a))
      && (forall n :: n in g.highRiskPorts ==> Listed(n))
  {
    EgressNeverCritical(ingress, egress);
    RiskyPortsAreListed(ingress);
    SomeCriticalRule(ingress);
  }

  /** The critical rules are non-empty exactly when some rule is critical. */
  lemma SomeCriticalRule(rules: seq<RuleAnalysis>)
    ensures CriticalRules(rules) != [] <==> exists a :: a in rules && IsCriticalRule(a)
  {
    var critical := CriticalRules(rules);
    if critical != [] {
      assert critical[0] in critical;
    }
  }

  /**
   * Severity: CRITICAL exactly when the score reaches 70 or an ingress
   * rule is both open to the internet and high-risk; HIGH from 50 below
   * 70 otherwise. Only ingress rules are counted as exposed, and every
   * high-risk single port counted is a listed one.
   */
  lemma GroupSeverity(sg: SecurityGroup, attached: seq<string>)
    ensures var g := GroupAnalysisOf(sg, attached);
      var ingress := AnalyzeAll(sg.ingress, Ingress);
      g.exposureScore <= 100
      && (g.severity == Critical <==> g.exposureScore >= 70 || exists a :: a in ingress && IsCriticalRule(a))
      && (g.severity == High <==> 50 <= g.exposureScore < 70 && forall a :: a in ingress ==> !IsCriticalRule(a))
      && g.internetExposedRules <= |sg.ingress|
      && (forall n :: n in g.highRiskPorts ==> Listed(n))
  {
    AnalyzedRules(sg.ingress, Ingress);
    AnalyzedRules(sg.egress, Egress);
    AssembledSeverity(sg, attached, AnalyzeAll(sg.ingress, Ingress), AnalyzeAll(sg.egress, Egress));
  }

  /** The ingress loop: analyses, the count of internet-exposed rules and the high-risk single ports. */
  method AnalyzeIngress(rules: seq<SgRule>) returns (analyses: seq<RuleAnalysis>, exposed: nat, ports: set<nat>)
    ensures analyses == AnalyzeAll(rules, Ingress)
    ensures exposed == CountExposed(analyses) && ports == RiskyPorts(analyses)
  {
    analyses, exposed, ports := [], 0, {};
    var i := 0;
    while i < |rules|
      invariant 0 <= i <= |rules|
      invariant analyses == AnalyzeAll(rules[..i], Ingress)
      invariant exposed == CountExposed(analyses) && ports == RiskyPorts(analyses)
    {
      var a := AnalyzeRule(rules[i], Ingress);
      AnalyzeAllStep(rules, i, Ingress);
      IngressStep(analyses, a);
      analyses := analyses + [a];
      if a.exposed {
        exposed := exposed + 1;
      }
      if SingleRiskyPort(a) {
        ports := ports + {ParseNat(a.port).value};
      }
      i := i + 1;
    }
    assert rules[..i] == rules;
  }

  /** Analysing one more rule appends its analysis. */
  lemma AnalyzeAllStep(rules: seq<SgRule>, i: nat, direction: Direction)
    requires i < |rules|
    ensures AnalyzeAll(rules[..i + 1], direction) == AnalyzeAll(rules[..i], direction) + [RuleAnalysisOf(rules[i], direction)]
  {
    assert rules[..i + 1][..i] == rules[..i];
  }

  lemma IngressStep(analyses: seq<RuleAnalysis>, a: RuleAnalysis)
    ensures CountExposed(analyses + [a]) == CountExposed(analyses) + (if a.exposed then 1 else 0)
    ensures RiskyPorts(analyses + [a]) == RiskyPorts(analyses) + (if SingleRiskyPort(a) then {ParseNat(a.port).value} else {})
  {
    assert (analyses + [a])[..|analyses|] == analyses;
  }

  /** The egress loop. */
  method AnalyzeEgress(rules: seq<SgRule>) returns (analyses: seq<RuleAnalysis>)
    ensures analyses == AnalyzeAll(rules, Egress)
  {
    analyses := [];
    var i := 0;
    while i < |rules|
      invariant 0 <= i <= |rules|
      invariant analyses == AnalyzeAll(rules[..i], Egress)
    {
      var a := AnalyzeRule(rules[i], Egress);
      AnalyzeAllStep(rules, i, Egress);
      analyses := analyses + [a];
      i := i + 1;
    }
    assert rules[..i] == rules;
  }

  /** analyze_security_group. */
  method AnalyzeSecurityGroup(sg: SecurityGroup, attached: seq<string>) returns (g: GroupAnalysis)
    ensures g == GroupAnalysisOf(sg, attached)
  {
    var ingress, exposed, ports := AnalyzeIngress(sg.ingress);
    var egress := AnalyzeEgress(sg.egress);
    var rules := ingress + egress;
    var critical := CriticalRules(rules);
    var score := ExposureScore(exposed, |ports|, |critical|);
    g := GroupAnalysis(sg.groupId, GetOr(sg.groupName, "unnamed"), GetOr(sg.vpcId, "N/A"),
                       GetOr(sg.description, ""), attached, |rules|, exposed, ports, score,
                       SeverityOf(score, critical != []), rules);
  }

  // ---------------------------------------------------------------------
  // Scan summary
  // ---------------------------------------------------------------------

  function CountSeverity(analyses: seq<GroupAnalysis>, s: Severity): (n: nat)
    ensures n <= |analyses|
  {
    if analyses == [] then 0
    else CountSeverity(analyses[..|analyses| - 1], s) + (if analyses[|analyses| - 1].severity == s then 1 else 0)
  }

  datatype ScanSummary = ScanSummary(analyzed: nat, totalFindings: nat, criticalFindings: nat, highFindings: nat)

  /** The counts scan_security_groups reports (all zero when no group is found). */
  function Summarize(analyses: seq<GroupAnalysis>): (r: ScanSummary)
    ensures r.analyzed == |analyses|
    ensures r.criticalFindings == CountSeverity(analyses, Critical) && r.highFindings == CountSeverity(analyses, High)
    ensures r.totalFindings == r.criticalFindings + r.highFindings
  {
    var critical := CountSeverity(analyses, Critical);
    var high := CountSeverity(analyses, High);
    ScanSummary(|analyses|, critical + high, critical, high)
  }

  /** Each group is counted at most once: the findings never outnumber the groups, and none are found without groups. */
  lemma {:induction false} FindingsAtMostGroups(analyses: seq<GroupAnalysis>)
    ensures Summarize(analyses).totalFindings <= |analyses|
    ensures analyses == [] ==> Summarize(analyses) == ScanSummary(0, 0, 0, 0)
  {
    if analyses != [] {
      FindingsAtMostGroups(analyses[..|analyses| - 1]);
    }
  }
}
