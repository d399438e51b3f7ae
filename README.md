# clash-aggregation: subscription assembly, modelled in Dafny

The service answers one HTTP endpoint with a merged Clash configuration
document. It looks up the caller's `token` in the user table. If the token
is falsy or unknown, it writes the fixed base settings with empty `proxies`,
`proxy-groups` and `rules`. Otherwise it fetches every subscription document
and keeps the `vmess` proxies of all of them, in order. It builds two proxy
groups from those proxies and appends a fixed list of 16 routing rules.

The model covers that decision and that assembly as pure functions over
already-parsed inputs:

- `clash_types.dfy` (module `ClashTypes`) holds the value types: proxies,
  proxy types, groups, parsed documents, users and the written configuration.
- `proxy_list.dfy` (module `ProxyAggregation`) models `getProxyList` as a
  map, a flatten and a filter, with lemmas on order, membership, length,
  no deduplication and a per-document reading.
- `proxy_groups.dfy` (module `GroupBuilder`) models `getProxyGroupList`.
  It proves the two groups' shape and that every group member resolves.
- `rules.dfy` (module `RuleBuilder`) models `getRuleList`. Rules are
  structured entries rendered into the `TYPE,VALUE,POLICY[,no-resolve]`
  text, and the rendered list is proved equal to the source's 16 texts. A
  splitter reads the text back, with a proved round trip, so that each
  rule's target can be stated.
- `subscribe.dfy` (module `Subscribe`) models `getBaseConfig` and the request
  decision of `getSubscribe`. It takes the query value, the user table and
  the fetched documents as parameters. The result is `Written(config)` or
  `Rejected`; `Rejected` means the handler throws before writing anything.

Where the system's design description and the code differ, the model follows
the code:
- the code builds two groups (`节点选择` select, `自动选择` url-test), not
  three, and has no manual-select group;
- proxies whose type is not `vmess` are dropped;
- the authentication-failure document has empty `proxy-groups` and `rules`;
- every subscription in the table is fetched, whichever user matched;
- there is no fail-soft handling of sources. A fetch that rejects, a body
  that is not YAML, a null document, or a missing or null `proxies` makes the
  handler throw. The whole request then fails (`OneUnusableSourceRejects`);
- there is no cache, request coalescing, refresh or eviction.

## Model

| member | source | states |
|---|---|---|
| `ClashTypes.ProxyTypeOf` | src/controllers/subscribeController.ts:7-10 | reading a type tag gives a type that writes back as the same tag and never disguises an enum tag as an unknown one |
| `ClashTypes.ProxyTypeRoundTrip` | src/controllers/subscribeController.ts:7-10 | every canonical proxy type reads back from its tag as itself |
| `ClashTypes.Names` | src/controllers/subscribeController.ts:113 | one name per proxy, the i-th name being the i-th proxy's `name`, as both groups list them (lines 113 and 120) |
| `ClashTypes.NamesMembership` | src/controllers/subscribeController.ts:113 | a name is in the mapped name list exactly when some proxy carries it |
| `ProxyAggregation.IsVmess` | src/controllers/subscribeController.ts:100 | the filter's `proxy.type === ProxyType.VMESS` holds exactly for the `vmess` enum member or an unknown type spelled `vmess` |
| `ProxyAggregation.IsVmessOfTag` | src/controllers/subscribeController.ts:7-10 | a proxy whose `type` text reads as `t` passes the filter exactly when `t` is `vmess` |
| `ProxyAggregation.IsVmessIffVmess` | src/controllers/subscribeController.ts:100 | the filter's tag comparison with `'vmess'` is the enum test `Vmess` for canonical types |
| `ProxyAggregation.ProxyArrays` | src/controllers/subscribeController.ts:98 | one proxy array per document, each that document's `proxies`, in document order |
| `ProxyAggregation.Flat` | src/controllers/subscribeController.ts:99 | a proxy is in the flattened list exactly when some array holds it |
| `ProxyAggregation.FilterVmess` | src/controllers/subscribeController.ts:100 | the filter keeps exactly the `vmess` proxies of its input and is never longer |
| `ProxyAggregation.ProxyList` | src/controllers/subscribeController.ts:96-101 | every proxy returned has type `vmess` |
| `ProxyAggregation.ProxyListPerDocument` | src/controllers/subscribeController.ts:97-100 | flatten-then-filter equals filtering each document and joining the results in document order |
| `ProxyAggregation.ProxyListAppend` | src/controllers/subscribeController.ts:97-100 | aggregating two runs of documents gives the first run's proxies followed by the second's |
| `ProxyAggregation.ProxyListCounts` | src/controllers/subscribeController.ts:97-100 | no deduplication: each proxy occurs as often as it does in the two runs together |
| `ProxyAggregation.ProxyListMembership` | src/controllers/subscribeController.ts:96-101 | a proxy is returned exactly when it is `vmess` and some document lists it |
| `ProxyAggregation.ProxyListLength` | src/controllers/subscribeController.ts:97-100 | the result is at most the total proxy count, and equal to it exactly when every listed proxy is `vmess` |
| `ProxyAggregation.ProxyListKeepsOrder` | src/controllers/subscribeController.ts:97-100 | the result is an order-preserving subsequence of the flattened proxies |
| `ProxyAggregation.ProxyListIgnoresRules` | src/controllers/subscribeController.ts:98 | only the documents' `proxies` are read; their `rules` make no difference |
| `ProxyAggregation.TwoDocumentsInOrder` | src/controllers/subscribeController.ts:96-101 | documents yielding `[p1, p2]` and `[p3]` aggregate to `[p1, p2, p3]` |
| `ProxyAggregation.DuplicatesKept` | src/controllers/subscribeController.ts:96-101 | the same `vmess` proxy in two documents appears twice, an `ss` proxy is dropped |
| `GroupBuilder.ProxyGroupList` | src/controllers/subscribeController.ts:103-127 | exactly two groups: a `select` group `节点选择` whose members are the second group's name, `DIRECT`, then the second group's members; a `url-test` group `自动选择` listing the proxy names in order, probing `https://www.gstatic.com/generate_204` every 30000 ms with tolerance 10000 |
| `GroupBuilder.AutoSelectMembership` | src/controllers/subscribeController.ts:117-124 | a name is a member of the url-test group exactly when some proxy carries it |
| `GroupBuilder.GroupMembersResolve` | src/controllers/subscribeController.ts:103-126 | every group member is `DIRECT`, the name of the other group, or a proxy name; the url-test group lists proxy names only |
| `GroupBuilder.GroupsDependOnNamesOnly` | src/controllers/subscribeController.ts:103-127 | the groups depend on the proxies only through their names |
| `RuleBuilder.RenderRoundTrip` | src/controllers/subscribeController.ts:130-147 | a well-formed rule parses back from its `TYPE,VALUE,POLICY[,no-resolve]` text as itself |
| `RuleBuilder.RuleTableWellFormed` | src/controllers/subscribeController.ts:130-147 | all 16 rules are free of stray separators, so their texts read back unambiguously |
| `RuleBuilder.RuleTable` | src/controllers/subscribeController.ts:130-147 | 16 rules: four domain-suffix and ten address carve-outs, then the single `GEOIP` match at index 14, all to `DIRECT`, with `no-resolve` on exactly the address matches; last the only catch-all `MATCH`, to the select group |
| `RuleBuilder.RuleList` | src/controllers/subscribeController.ts:129-148 | one text per table rule, in table order, each in the `TYPE,VALUE,POLICY[,no-resolve]` form |
| `RuleBuilder.RuleListTexts` | src/controllers/subscribeController.ts:131-146 | the list is, verbatim and in order, the 16 texts the source returns, from `DOMAIN-SUFFIX,ip6-localhost,DIRECT` to `MATCH,节点选择` |
| `RuleBuilder.RuleListParses` | src/controllers/subscribeController.ts:130-147 | each of the 16 texts parses back to its rule |
| `RuleBuilder.RuleListOrder` | src/controllers/subscribeController.ts:129-148 | 16 rules; the last is the only catch-all, `MATCH,节点选择`, naming the select group; every earlier rule targets `DIRECT`; private-network matches precede the single `GEOIP` match at index 14; address matches carry `no-resolve` |
| `Subscribe.BaseSettings` | src/controllers/subscribeController.ts:64-75 | the three listening ports are distinct valid TCP ports, LAN access is off, and the mode is `rule` |
| `Subscribe.Truthy` | src/controllers/subscribeController.ts:157 | only a missing token and the empty string are falsy; `"0"`, any other string, and an array or object value are truthy |
| `Subscribe.TokenMatches` | src/controllers/subscribeController.ts:156 | `user.token === token` holds exactly when the query is the string equal to the user's token; an array or object never matches |
| `Subscribe.Authenticated` | src/controllers/subscribeController.ts:157 | the request passes exactly when the token is a non-empty string that some user's token equals |
| `Subscribe.FindUser` | src/controllers/subscribeController.ts:156 | a returned user is in the table and its token equals the query; none is returned exactly when no user's token equals it |
| `Subscribe.FindUserFirst` | src/controllers/subscribeController.ts:156 | the user found is the first match in table order |
| `Subscribe.CollectDocuments` | src/controllers/subscribeController.ts:87-92 | the documents come back in subscription order exactly when every fetch was usable |
| `Subscribe.EmptyConfig` | src/controllers/subscribeController.ts:159-164 | the base settings with empty `proxies`, `proxy-groups` and `rules` |
| `Subscribe.Assemble` | src/controllers/subscribeController.ts:169-178 | the base settings, the aggregated proxies, the groups built from exactly those proxies, and the rule list |
| `Subscribe.GetSubscribe` | src/controllers/subscribeController.ts:153-181 | the empty document is written exactly when authentication fails; the handler rejects exactly when authenticated and some source is unusable; any written document has the base settings |
| `Subscribe.AuthFailureIsEmpty` | src/controllers/subscribeController.ts:154-168 | a falsy or unknown token yields the empty document, whatever the fetched documents are |
| `Subscribe.FalsyTokensRefused` | src/controllers/subscribeController.ts:157 | a missing and an empty token give the same empty document as an unknown token, even if a user's token is empty |
| `Subscribe.AuthSuccessAssembles` | src/controllers/subscribeController.ts:169-178 | an authenticated request with readable sources writes base settings, the aggregated proxies, their groups and the rule list |
| `Subscribe.SameDocumentForEveryUser` | src/controllers/subscribeController.ts:77-78 | all subscriptions are fetched for every user, so which user matched does not change the document |
| `Subscribe.BaseSettingsShared` | src/controllers/subscribeController.ts:159-178 | the failure and success documents share the base settings; the first has no groups, the second two |
| `Subscribe.AssembledResolves` | src/controllers/subscribeController.ts:169-178 | every group member and rule target of an assembled document names `DIRECT`, one of its groups or one of its proxies |
| `Subscribe.WrittenDocumentResolves` | src/controllers/subscribeController.ts:153-181 | every written document refers only to policies it defines |
| `Subscribe.OneUnusableSourceRejects` | src/controllers/subscribeController.ts:87-100 | one unusable source, at any position, makes an authenticated request fail, whatever the sources before and after it hold |
| `Subscribe.OneSubscriptionScenario` | src/controllers/subscribeController.ts:153-181 | token `abc` of one user, one source with `vmess` proxy `n1`: proxies `[n1]`, select group `[自动选择, DIRECT, n1]`, url-test group `[n1]` |

## Left out

- Fetching (lines 77-94): the `node-fetch` GET, the `user-agent` header and the two `Promise.all` waits are I/O and concurrency. Fetch results are parameters; `Promise.all` appears only as the all-or-nothing `CollectDocuments`.
- `YAML.parse` and `YAML.stringify` (lines 91, 159, 179) are a foreign library. Inputs are parsed `ApiJson` values. The output is a `Config` record, not text, so key names and layout are not modelled.
- The MySQL reads `getSubscribeList` and `getUserList` (lines 51-62) are external store reads. The user table and the documents of all subscriptions are parameters. The `Subscribe` record (lines 46-49) is not modelled, because only its `url` is used, and only by the fetch.
- The Express decorators and `resp.write`/`resp.end` (lines 150-153, 158-167, 179-180) are HTTP plumbing. `Rejected` stands for the handler's promise rejecting before anything is written.
- src/index.ts and src/config/index.ts are process start-up and environment loading, with nothing to verify.
- A document whose `proxies` is a non-null value that is not an array is left out. `flat(1)` keeps such a value as one element, and the filter then reads its `type`. In the model `proxies` is always a list, or the source is `Unusable`.
- Proxy objects carry more fields than `name` and `type` (server, port, credentials), and the code passes them through untouched. The model keeps only the two fields the code reads.
- Caching, request coalescing, background refresh, eviction and stale-if-error are not in the code, so there is nothing of them to model.
