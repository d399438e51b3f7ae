/** `getProxyGroupList` (src/controllers/subscribeController.ts, lines 103-127):
    two groups built from the aggregated proxies. */
module GroupBuilder {
  import opened ClashTypes

  /** The built-in policy that connects without a proxy. */
  const DirectPolicy: string := "DIRECT"
  /** The selectable group every catch-all rule routes through. */
  const SelectGroupName: string := "节点选择"
  /** The latency-probed group. */
  const AutoSelectGroupName: string := "自动选择"
  /** The probe target, period (ms) and tolerance (ms) of the latency-probed group. */
  const ProbeUrl: string := "https://www.gstatic.com/generate_204"
  const ProbeInterval: int := 30000
  const ProbeTolerance: int := 10000

  /** `getProxyGroupList`: the `select` group `[自动选择, DIRECT, ...names]`
      followed by the `url-test` group listing the proxy names. */
  function ProxyGroupList(ps: seq<Proxy>): (r: seq<ProxyGroup>)
    ensures |r| == 2
    ensures r[0].Group? && r[0].kind == Select && r[0].name == SelectGroupName
    ensures r[1].AutoSelectGroup? && r[1].kind == UrlTest && r[1].name == AutoSelectGroupName
    ensures r[0].name != r[1].name
    // the select group offers the auto group, then DIRECT, then exactly what the auto group probes
    ensures |r[0].proxies| == |ps| + 2
    ensures r[0].proxies[0] == r[1].name && r[0].proxies[1] == DirectPolicy
    ensures r[0].proxies[2..] == r[1].proxies
    ensures |r[1].proxies| == |ps|
    ensures forall i :: 0 <= i < |ps| ==> r[1].proxies[i] == ps[i].name
    ensures r[1].url == ProbeUrl && r[1].interval == ProbeInterval && r[1].tolerance == ProbeTolerance
  {
    var names := Names(ps);
    var proxySelect := Group(SelectGroupName, Select, [AutoSelectGroupName, DirectPolicy] + names);
    var autoSelect := AutoSelectGroup(AutoSelectGroupName, UrlTest, names,
                                      ProbeUrl, ProbeInterval, ProbeTolerance);
    [proxySelect, autoSelect]
  }

  /** A name is a member of the url-test group exactly when a proxy carries it. */
  lemma AutoSelectMembership(ps: seq<Proxy>, x: string)
    ensures x in ProxyGroupList(ps)[1].proxies <==> exists p :: p in ps && p.name == x
  {
  }

  /** Every member of every group is DIRECT, the name of the other group, or
      the name of an aggregated proxy, where a group reference always names the
      other group; the url-test group lists proxy names only, so group
      references cannot form a cycle. */
  lemma GroupMembersResolve(ps: seq<Proxy>)
    ensures forall g, m :: g in ProxyGroupList(ps) && m in g.proxies ==>
              m == DirectPolicy
              || (exists h :: h in ProxyGroupList(ps) && h.name == m && h != g)
              || (exists p :: p in ps && p.name == m)
    ensures forall m :: m in ProxyGroupList(ps)[1].proxies ==> exists p :: p in ps && p.name == m
  {
  }

  /** The groups depend on the proxies only through their names. */
  lemma GroupsDependOnNamesOnly(a: seq<Proxy>, b: seq<Proxy>)
    requires Names(a) == Names(b)
    ensures ProxyGroupList(a) == ProxyGroupList(b)
  {
  }
}
