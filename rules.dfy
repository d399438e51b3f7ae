/** `getRuleList` (src/controllers/subscribeController.ts, lines 129-148) and
    the comma-separated rule format `TYPE,VALUE,POLICY[,no-resolve]` (or
    `MATCH,POLICY` for the catch-all), read back into its parts so that the
    target of every rule can be stated. */
module RuleBuilder {
  import opened ClashTypes
  import opened GroupBuilder

  const Separator: char := ','
  const NoResolve: string := "no-resolve"
  /** The matcher kinds the rule list uses. */
  const DomainSuffix: string := "DOMAIN-SUFFIX"
  const IpCidr: string := "IP-CIDR"
  const IpCidr6: string := "IP-CIDR6"
  const GeoIp: string := "GEOIP"
  const CatchAll: string := "MATCH"

  /** One rule read into its parts; the catch-all has no value. */
  datatype Rule = Rule(matcher: string, value: Option<string>, policy: string, noResolve: bool)

  /** The fields a rule is written as, in order. */
  function Fields(r: Rule): (fs: seq<string>)
    ensures |fs| >= 2 && fs[0] == r.matcher
  {
    [r.matcher]
    + (if r.value.Some? then [r.value.value] else [])
    + [r.policy]
    + (if r.noResolve then [NoResolve] else [])
  }

  /** Fields joined with the separator. */
  function Join(fs: seq<string>): string
    requires |fs| >= 1
  {
    if |fs| == 1 then fs[0] else fs[0] + [Separator] + Join(fs[1..])
  }

  /** The text a rule is written as. */
  function Render(r: Rule): string
  {
    r.matcher
    + (if r.value.Some? then [Separator] + r.value.value else "")
    + [Separator] + r.policy
    + (if r.noResolve then [Separator] + NoResolve else "")
  }

  /** The text of a rule is its fields joined with the separator. */
  lemma RenderJoinsFields(r: Rule)
    ensures Render(r) == Join(Fields(r))
  {
    var tail := [r.policy] + (if r.noResolve then [NoResolve] else []);
    assert Join(tail) == r.policy + (if r.noResolve then [Separator] + NoResolve else "");
    if r.value.Some? {
      assert Fields(r) == [r.matcher] + ([r.value.value] + tail);
      assert Join([r.value.value] + tail) == r.value.value + [Separator] + Join(tail);
    } else {
      assert Fields(r) == [r.matcher] + tail;
    }
  }

  /** The separator-delimited fields of a text; never empty. */
  function Split(s: string): (fs: seq<string>)
    ensures |fs| >= 1
  {
    if s == [] then [""]
    else
      var rest := Split(s[1..]);
      if s[0] == Separator then [""] + rest
      else [[s[0]] + rest[0]] + rest[1..]
  }

  /** Reads the fields of one rule: two for the catch-all shape, three, or
      four of which the last is `no-resolve`. */
  function FromFields(fs: seq<string>): Option<Rule>
  {
    if |fs| == 2 then Some(Rule(fs[0], None, fs[1], false))
    else if |fs| == 3 then Some(Rule(fs[0], Some(fs[1]), fs[2], false))
    else if |fs| == 4 && fs[3] == NoResolve then Some(Rule(fs[0], Some(fs[1]), fs[2], true))
    else None
  }

  function ParseRule(s: string): Option<Rule>
  {
    FromFields(Split(s))
  }

  /** A rule whose text reads back unambiguously: no field holds the
      separator, and only a rule with a value carries `no-resolve`. */
  predicate WellFormed(r: Rule)
  {
    && Separator !in r.matcher
    && (r.value.Some? ==> Separator !in r.value.value)
    && Separator !in r.policy
    && (r.noResolve ==> r.value.Some?)
  }

  lemma {:induction false} SplitPlain(a: string)
    requires Separator !in a
    ensures Split(a) == [a]
  {
    if a != [] {
      SplitPlain(a[1..]);
      assert [a[0]] + a[1..] == a;
    }
  }

  lemma {:induction false} SplitAfterField(a: string, b: string)
    requires Separator !in a
    ensures Split(a + [Separator] + b) == [a] + Split(b)
  {
    if a == [] {
      assert a + [Separator] + b == [Separator] + b;
      assert ([Separator] + b)[1..] == b;
    } else {
      assert (a + [Separator] + b)[1..] == a[1..] + [Separator] + b;
      SplitAfterField(a[1..], b);
      assert [a[0]] + a[1..] == a;
    }
  }

  /** Splitting joined fields gives the fields back when none holds the separator. */
  lemma {:induction false} SplitJoin(fs: seq<string>)
    requires |fs| >= 1
    requires forall i :: 0 <= i < |fs| ==> Separator !in fs[i]
    ensures Split(Join(fs)) == fs
  {
    if |fs| == 1 {
      SplitPlain(fs[0]);
    } else {
      SplitAfterField(fs[0], Join(fs[1..]));
      SplitJoin(fs[1..]);
    }
  }

  /** Every well-formed rule reads back from its text as itself. */
  lemma RenderRoundTrip(r: Rule)
    requires WellFormed(r)
    ensures ParseRule(Render(r)) == Some(r)
  {
    RenderJoinsFields(r);
    SplitJoin(Fields(r));
  }

  /** The entries of `getRuleList`, one per line of the source list, in its
      order; each is written out by `Render`, so the first entry is the text
      `DOMAIN-SUFFIX,ip6-localhost,DIRECT` and the last `MATCH,节点选择`. */
  function RuleTable(): (r: seq<Rule>)
    ensures |r| == 16
    // the private-network carve-outs, then the country match, all routed to DIRECT
    ensures forall i :: 0 <= i < 14 ==> r[i].matcher in {DomainSuffix, IpCidr, IpCidr6}
    ensures r[14].matcher == GeoIp
    ensures forall i :: 0 <= i < 15 ==> r[i].value.Some? && r[i].policy == DirectPolicy
    // address matches skip DNS resolution, name matches do not
    ensures forall i :: 0 <= i < 15 ==> (r[i].noResolve <==> r[i].matcher in {IpCidr, IpCidr6})
    // last, the only catch-all, routed to the select group
    ensures r[15] == Rule(CatchAll, None, SelectGroupName, false)
    ensures forall i :: 0 <= i < 15 ==> r[i].matcher != CatchAll
  {
    [
      Rule(DomainSuffix, Some("ip6-localhost"), DirectPolicy, false),
      Rule(DomainSuffix, Some("ip6-loopback"), DirectPolicy, false),
      Rule(DomainSuffix, Some("local"), DirectPolicy, false),
      Rule(DomainSuffix, Some("localhost"), DirectPolicy, false),
      Rule(IpCidr, Some("10.0.0.0/8"), DirectPolicy, true),
      Rule(IpCidr, Some("100.64.0.0/10"), DirectPolicy, true),
      Rule(IpCidr, Some("127.0.0.0/8"), DirectPolicy, true),
      Rule(IpCidr, Some("172.16.0.0/12"), DirectPolicy, true),
      Rule(IpCidr, Some("192.168.0.0/16"), DirectPolicy, true),
      Rule(IpCidr, Some("198.18.0.0/16"), DirectPolicy, true),
      Rule(IpCidr6, Some("::1/128"), DirectPolicy, true),
      Rule(IpCidr6, Some("fc00::/7"), DirectPolicy, true),
      Rule(IpCidr6, Some("fe80::/10"), DirectPolicy, true),
      Rule(IpCidr6, Some("fd00::/8"), DirectPolicy, true),
      Rule(GeoIp, Some("CN"), DirectPolicy, false),
      Rule(CatchAll, None, SelectGroupName, false)
    ]
  }

  lemma NamesPlain()
    ensures Separator !in DomainSuffix && Separator !in IpCidr && Separator !in IpCidr6
    ensures Separator !in GeoIp && Separator !in CatchAll
    ensures Separator !in DirectPolicy && Separator !in SelectGroupName
  {
  }

  /** Every entry of the rule table is well-formed. */
  lemma RuleTableWellFormed()
    ensures |RuleTable()| == 16
    ensures forall i :: 0 <= i < 16 ==> WellFormed(RuleTable()[i])
  {
    NamesPlain();
  }

  /** The text of a rule routed to DIRECT. */
  lemma DirectRuleText(m: string, v: string, noResolve: bool)
    ensures Render(Rule(m, Some(v), DirectPolicy, noResolve))
              == m + "," + v + (if noResolve then ",DIRECT,no-resolve" else ",DIRECT")
  {
  }

  /** The source's text of each entry routed to DIRECT, cut at the matcher,
      the value and the fixed tail. */
  lemma SourceText0()
    ensures "DOMAIN-SUFFIX" + "," + "ip6-localhost" + ",DIRECT" == "DOMAIN-SUFFIX,ip6-localhost,DIRECT"
  {
  }

  lemma SourceText1()
    ensures "DOMAIN-SUFFIX" + "," + "ip6-loopback" + ",DIRECT" == "DOMAIN-SUFFIX,ip6-loopback,DIRECT"
  {
  }

  lemma SourceText2()
    ensures "DOMAIN-SUFFIX" + "," + "local" + ",DIRECT" == "DOMAIN-SUFFIX,local,DIRECT"
  {
  }

  lemma SourceText3()
    ensures "DOMAIN-SUFFIX" + "," + "localhost" + ",DIRECT" == "DOMAIN-SUFFIX,localhost,DIRECT"
  {
  }

  lemma SourceText4()
    ensures "IP-CIDR" + "," + "10.0.0.0/8" + ",DIRECT,no-resolve" == "IP-CIDR,10.0.0.0/8,DIRECT,no-resolve"
  {
  }

  lemma SourceText5()
    ensures "IP-CIDR" + "," + "100.64.0.0/10" + ",DIRECT,no-resolve" == "IP-CIDR,100.64.0.0/10,DIRECT,no-resolve"
  {
  }

  lemma SourceText6()
    ensures "IP-CIDR" + "," + "127.0.0.0/8" + ",DIRECT,no-resolve" == "IP-CIDR,127.0.0.0/8,DIRECT,no-resolve"
  {
  }

  lemma SourceText7()
    ensures "IP-CIDR" + "," + "172.16.0.0/12" + ",DIRECT,no-resolve" == "IP-CIDR,172.16.0.0/12,DIRECT,no-resolve"
  {
  }

  lemma SourceText8()
    ensures "IP-CIDR" + "," + "192.168.0.0/16" + ",DIRECT,no-resolve" == "IP-CIDR,192.168.0.0/16,DIRECT,no-resolve"
  {
  }

  lemma SourceText9()
    ensures "IP-CIDR" + "," + "198.18.0.0/16" + ",DIRECT,no-resolve" == "IP-CIDR,198.18.0.0/16,DIRECT,no-resolve"
  {
  }

  lemma SourceText10()
    ensures "IP-CIDR6" + "," + "::1/128" + ",DIRECT,no-resolve" == "IP-CIDR6,::1/128,DIRECT,no-resolve"
  {
  }

  lemma SourceText11()
    ensures "IP-CIDR6" + "," + "fc00::/7" + ",DIRECT,no-resolve" == "IP-CIDR6,fc00::/7,DIRECT,no-resolve"
  {
  }

  lemma SourceText12()
    ensures "IP-CIDR6" + "," + "fe80::/10" + ",DIRECT,no-resolve" == "IP-CIDR6,fe80::/10,DIRECT,no-resolve"
  {
  }

  lemma SourceText13()
    ensures "IP-CIDR6" + "," + "fd00::/8" + ",DIRECT,no-resolve" == "IP-CIDR6,fd00::/8,DIRECT,no-resolve"
  {
  }

  lemma SourceText14()
    ensures "GEOIP" + "," + "CN" + ",DIRECT" == "GEOIP,CN,DIRECT"
  {
  }

  /** The catch-all entry's text. */
  lemma CatchAllText()
    ensures Render(Rule(CatchAll, None, SelectGroupName, false)) == "MATCH,节点选择"
  {
  }

  /** `getRuleList`: the texts of the rule table, in its order. The client
      reads the list top to bottom, first match winning. */
  function RuleList(): (r: seq<string>)
    ensures |r| == |RuleTable()|
    ensures forall i :: 0 <= i < |r| ==> r[i] == Render(RuleTable()[i])
  {
    seq(|RuleTable()|, i requires 0 <= i < |RuleTable()| => Render(RuleTable()[i]))
  }

  /** The rule list is, verbatim and in order, the sixteen texts of the source. */
  lemma RuleListTexts()
    ensures RuleList() == [
      "DOMAIN-SUFFIX,ip6-localhost,DIRECT",
      "DOMAIN-SUFFIX,ip6-loopback,DIRECT",
      "DOMAIN-SUFFIX,local,DIRECT",
      "DOMAIN-SUFFIX,localhost,DIRECT",
      "IP-CIDR,10.0.0.0/8,DIRECT,no-resolve",
      "IP-CIDR,100.64.0.0/10,DIRECT,no-resolve",
      "IP-CIDR,127.0.0.0/8,DIRECT,no-resolve",
      "IP-CIDR,172.16.0.0/12,DIRECT,no-resolve",
      "IP-CIDR,192.168.0.0/16,DIRECT,no-resolve",
      "IP-CIDR,198.18.0.0/16,DIRECT,no-resolve",
      "IP-CIDR6,::1/128,DIRECT,no-resolve",
      "IP-CIDR6,fc00::/7,DIRECT,no-resolve",
      "IP-CIDR6,fe80::/10,DIRECT,no-resolve",
      "IP-CIDR6,fd00::/8,DIRECT,no-resolve",
      "GEOIP,CN,DIRECT",
      "MATCH,节点选择"
            ]
  {
    SourceText0();
    DirectRuleText(DomainSuffix, "ip6-localhost", false);
    SourceText1();
    DirectRuleText(DomainSuffix, "ip6-loopback", false);
    SourceText2();
    DirectRuleText(DomainSuffix, "local", false);
    SourceText3();
    DirectRuleText(DomainSuffix, "localhost", false);
    SourceText4();
    DirectRuleText(IpCidr, "10.0.0.0/8", true);
    SourceText5();
    DirectRuleText(IpCidr, "100.64.0.0/10", true);
    SourceText6();
    DirectRuleText(IpCidr, "127.0.0.0/8", true);
    SourceText7();
    DirectRuleText(IpCidr, "172.16.0.0/12", true);
    SourceText8();
    DirectRuleText(IpCidr, "192.168.0.0/16", true);
    SourceText9();
    DirectRuleText(IpCidr, "198.18.0.0/16", true);
    SourceText10();
    DirectRuleText(IpCidr6, "::1/128", true);
    SourceText11();
    DirectRuleText(IpCidr6, "fc00::/7", true);
    SourceText12();
    DirectRuleText(IpCidr6, "fe80::/10", true);
    SourceText13();
    DirectRuleText(IpCidr6, "fd00::/8", true);
    SourceText14();
    DirectRuleText(GeoIp, "CN", false);
    CatchAllText();
    assert |RuleList()| == 16;
  }

  /** Every entry of the rule list reads back as its table entry. */
  lemma RuleListParses()
    ensures |RuleList()| == 16
    ensures forall i :: 0 <= i < 16 ==> ParseRule(RuleList()[i]) == Some(RuleTable()[i])
  {
    RuleTableWellFormed();
    forall i | 0 <= i < 16 ensures ParseRule(RuleList()[i]) == Some(RuleTable()[i]) {
      RenderRoundTrip(RuleTable()[i]);
    }
  }

  /** The rule list has 16 entries. The last is the catch-all `MATCH`, routed
      to the select group; it is the only catch-all. Every earlier entry routes
      to DIRECT. The private-network carve-outs (domain suffixes and address
      ranges, all marked `no-resolve` for addresses) come before the single
      country match, which is second to last. */
  lemma RuleListOrder()
    ensures |RuleList()| == 16
    ensures RuleList()[15] == CatchAll + [Separator] + SelectGroupName == "MATCH,节点选择"
    ensures ParseRule(RuleList()[15]) == Some(Rule(CatchAll, None, SelectGroupName, false))
    ensures forall i :: 0 <= i < 15 ==>
              ParseRule(RuleList()[i]).Some?
              && ParseRule(RuleList()[i]).value.policy == DirectPolicy
              && ParseRule(RuleList()[i]).value.matcher != CatchAll
    ensures ParseRule(RuleList()[14]).value.matcher == GeoIp
    ensures forall i :: 0 <= i < 14 ==>
              ParseRule(RuleList()[i]).value.matcher in {DomainSuffix, IpCidr, IpCidr6}
    ensures forall i :: 0 <= i < 14 && ParseRule(RuleList()[i]).value.matcher != DomainSuffix ==>
              ParseRule(RuleList()[i]).value.noResolve
  {
    RuleListParses();
  }
}
