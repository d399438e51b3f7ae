/** The request decision and the document assembly of
    `SubscribeController.getSubscribe` (src/controllers/subscribeController.ts,
    lines 153-181) together with `getBaseConfig` (lines 64-75). The user table
    and the fetched subscription documents are parameters; the written
    document is a `Config` value rather than text. */
module Subscribe {
  import opened ClashTypes
  import opened ProxyAggregation
  import opened GroupBuilder
  import opened RuleBuilder

  /** `getBaseConfig`: listening ports, mode, log level, IPv6 switch and the
      management address; the same record on every path. */
  function BaseSettings(): (b: BaseConfig)
    ensures 0 < b.port < 65536 && 0 < b.socksPort < 65536 && 0 < b.mixedPort < 65536
    ensures b.port != b.socksPort && b.port != b.mixedPort && b.socksPort != b.mixedPort
    ensures !b.allowLan && b.mode == "rule"
  {
    BaseConfig(
      port := 10808,
      socksPort := 10809,
      mixedPort := 10802,
      allowLan := false,
      mode := "rule",
      logLevel := "info",
      ipv6 := true,
      externalController := "127.0.0.1:9090")
  }

  /** `req.query.token`: missing, one string, or (for a repeated or bracketed
      parameter) an array or object, which is truthy and never strictly equal
      to a string. */
  datatype Query = Absent | Text(value: string) | NonText

  /** JavaScript truthiness of the query value (`!token` is its negation). */
  predicate Truthy(q: Query)
    // only a missing and an empty token are falsy; "0" and non-strings are truthy
    ensures !Truthy(q) <==> q == Absent || q == Text("")
  {
    match q
    case Absent => false
    case Text(s) => s != ""
    case NonText => true
  }

  /** `user.token === token` */
  predicate TokenMatches(u: User, q: Query)
    // strict equality: only a string spelling the token matches
    ensures TokenMatches(u, q) <==> q == Text(u.token)
  {
    q.Text? && u.token == q.value
  }

  /** `userList.find(user => user.token === token)`: the first user whose
      token equals the query. */
  function FindUser(users: seq<User>, q: Query): (r: Option<User>)
    ensures r.Some? ==> r.value in users && TokenMatches(r.value, q)
    ensures r.None? <==> forall u :: u in users ==> !TokenMatches(u, q)
  {
    if users == [] then None
    else if TokenMatches(users[0], q) then Some(users[0])
    else FindUser(users[1..], q)
  }

  /** The user found is the first match: no earlier user matches. */
  lemma {:induction false} FindUserFirst(users: seq<User>, q: Query)
    requires FindUser(users, q).Some?
    ensures exists i :: 0 <= i < |users| && users[i] == FindUser(users, q).value
                        && forall j :: 0 <= j < i ==> !TokenMatches(users[j], q)
  {
    if !TokenMatches(users[0], q) {
      FindUserFirst(users[1..], q);
      var i :| 0 <= i < |users[1..]| && users[1..][i] == FindUser(users, q).value
               && forall j :: 0 <= j < i ==> !TokenMatches(users[1..][j], q);
      assert users[i + 1] == FindUser(users, q).value;
      forall j | 0 <= j < i + 1 ensures !TokenMatches(users[j], q) {
        if j > 0 { assert users[j] == users[1..][j - 1]; }
      }
    } else {
      assert users[0] == FindUser(users, q).value;
    }
  }

  /** The line-157 test passes: a truthy token that some user holds. */
  predicate Authenticated(q: Query, users: seq<User>)
    ensures Authenticated(q, users) <==>
              q.Text? && q.value != "" && exists u :: u in users && u.token == q.value
  {
    Truthy(q) && FindUser(users, q).Some?
  }

  /** What one subscription fetch delivered. `Unusable` is every case in which
      the handler throws while reading it: the request or body read rejected,
      the text is not valid YAML, the parsed value is null, or its `proxies`
      is missing or holds a null entry. */
  datatype Fetched = Parsed(json: ApiJson) | Unusable

  /** What the handler does with the response. */
  datatype Response = Written(config: Config) | Rejected

  /** `Promise.all` over the fetches followed by the parse: the documents in
      subscription order, or nothing once any one of them is unusable. */
  function CollectDocuments(fetched: seq<Fetched>): (r: Option<seq<ApiJson>>)
    ensures r.Some? <==> forall f :: f in fetched ==> f.Parsed?
    ensures r.Some? ==> |r.value| == |fetched| && forall i :: 0 <= i < |fetched| ==> r.value[i] == fetched[i].json
  {
    if fetched == [] then Some([])
    else if fetched[0].Unusable? then
      assert fetched[0] in fetched;
      None
    else
      match CollectDocuments(fetched[1..])
      case None => None
      case Some(rest) => Some([fetched[0].json] + rest)
  }

  /** The document written when authentication fails (lines 159-164). */
  function EmptyConfig(): (c: Config)
    ensures c.base == BaseSettings()
    ensures c.proxies == [] && c.proxyGroups == [] && c.rules == []
  {
    Config(BaseSettings(), [], [], [])
  }

  /** The document written for an authenticated request (lines 170-178). */
  function Assemble(docs: seq<ApiJson>): (c: Config)
    ensures c.base == BaseSettings()
    ensures c.proxies == ProxyList(docs)
    ensures c.proxyGroups == ProxyGroupList(c.proxies)
    ensures c.rules == RuleList()
  {
    var proxyList := ProxyList(docs);
    Config(BaseSettings(), proxyList, ProxyGroupList(proxyList), RuleList())
  }

  /** `getSubscribe`: the empty document when the token is falsy or matches no
      user; otherwise the documents of all subscriptions assembled, or a
      rejected handler when one of them cannot be read. */
  function GetSubscribe(q: Query, users: seq<User>, fetched: seq<Fetched>): (r: Response)
    ensures r == Written(EmptyConfig()) <==> !Authenticated(q, users)
    ensures r.Rejected? <==> Authenticated(q, users) && exists f :: f in fetched && f.Unusable?
    ensures r.Written? ==> r.config.base == BaseSettings()
  {
    var currentUser := FindUser(users, q);
    if !Truthy(q) || currentUser.None? then
      Written(EmptyConfig())
    else
      match CollectDocuments(fetched)
      case None => Rejected
      case Some(docs) => Written(Assemble(docs))
  }

  /** A policy a document can route to: DIRECT, one of its groups, or one of
      its proxies. */
  predicate KnownPolicy(c: Config, x: string)
  {
    || x == DirectPolicy
    || (exists g :: g in c.proxyGroups && g.name == x)
    || (exists p :: p in c.proxies && p.name == x)
  }

  /** Every group member and every rule target of a document names a known
      policy, and every rule text reads as a rule. */
  predicate Resolves(c: Config)
  {
    && (forall g, m :: g in c.proxyGroups && m in g.proxies ==> KnownPolicy(c, m))
    && (forall s :: s in c.rules ==> ParseRule(s).Some? && KnownPolicy(c, ParseRule(s).value.policy))
  }

  /** A failed authentication writes the base settings with empty `proxies`,
      `proxy-groups` and `rules`, and the fetched documents play no part. */
  lemma AuthFailureIsEmpty(q: Query, users: seq<User>, fetched: seq<Fetched>, other: seq<Fetched>)
    requires !Truthy(q) || forall u :: u in users ==> !TokenMatches(u, q)
    ensures GetSubscribe(q, users, fetched) == Written(Config(BaseSettings(), [], [], []))
    ensures GetSubscribe(q, users, fetched) == GetSubscribe(q, users, other)
  {
  }

  /** A missing parameter and an empty token are both refused, even when some
      user's stored token is the empty string; both give the same document as
      an unknown token. */
  lemma FalsyTokensRefused(users: seq<User>, fetched: seq<Fetched>, unknown: string)
    requires forall u :: u in users ==> u.token != unknown
    ensures GetSubscribe(Absent, users, fetched) == GetSubscribe(Text(""), users, fetched)
    ensures GetSubscribe(Absent, users, fetched) == GetSubscribe(Text(unknown), users, fetched)
    ensures GetSubscribe(Absent, users, fetched).Written?
    ensures GetSubscribe(Absent, users, fetched).config.proxyGroups == []
  {
  }

  /** An authenticated request whose documents were all read writes the base
      settings, the aggregated proxies, the two groups built from them and the
      fixed rules. */
  lemma AuthSuccessAssembles(q: Query, users: seq<User>, fetched: seq<Fetched>)
    requires Truthy(q)
    requires exists u :: u in users && TokenMatches(u, q)
    requires forall f :: f in fetched ==> f.Parsed?
    ensures var docs := seq(|fetched|, i requires 0 <= i < |fetched| => fetched[i].json);
            GetSubscribe(q, users, fetched)
            == Written(Config(BaseSettings(), ProxyList(docs), ProxyGroupList(ProxyList(docs)), RuleList()))
  {
    var docs := seq(|fetched|, i requires 0 <= i < |fetched| => fetched[i].json);
    assert CollectDocuments(fetched).value == docs;
  }

  /** Every subscription is fetched for every user: which user the token
      selects does not change the document. */
  lemma SameDocumentForEveryUser(q1: Query, q2: Query, users: seq<User>, fetched: seq<Fetched>)
    requires Authenticated(q1, users) && Authenticated(q2, users)
    ensures GetSubscribe(q1, users, fetched) == GetSubscribe(q2, users, fetched)
  {
  }

  /** The base settings are the same record in both branches. */
  lemma BaseSettingsShared(q1: Query, q2: Query, users: seq<User>, fetched: seq<Fetched>)
    requires !Authenticated(q1, users) && Authenticated(q2, users)
    requires forall f :: f in fetched ==> f.Parsed?
    ensures GetSubscribe(q1, users, fetched).config.base == GetSubscribe(q2, users, fetched).config.base
    ensures GetSubscribe(q1, users, fetched).config.proxyGroups == []
    ensures |GetSubscribe(q2, users, fetched).config.proxyGroups| == 2
  {
  }

  /** The assembled document refers only to policies it defines: group
      members and rule targets name DIRECT, one of its two groups, or one of
      its proxies. */
  lemma AssembledResolves(docs: seq<ApiJson>)
    ensures Resolves(Assemble(docs))
  {
    var c := Assemble(docs);
    GroupMembersResolve(c.proxies);
    forall g, m | g in c.proxyGroups && m in g.proxies ensures KnownPolicy(c, m) {
      if m != DirectPolicy && !(exists p :: p in c.proxies && p.name == m) {
        var h :| h in c.proxyGroups && h.name == m && h != g;
      }
    }
    RuleListParses();
    forall s | s in c.rules ensures ParseRule(s).Some? && KnownPolicy(c, ParseRule(s).value.policy) {
      var i :| 0 <= i < |c.rules| && c.rules[i] == s;
      if i == 15 {
        assert c.proxyGroups[0] in c.proxyGroups && c.proxyGroups[0].name == SelectGroupName;
      }
    }
  }

  /** Every document the handler writes refers only to policies it defines. */
  lemma WrittenDocumentResolves(q: Query, users: seq<User>, fetched: seq<Fetched>)
    requires GetSubscribe(q, users, fetched).Written?
    ensures Resolves(GetSubscribe(q, users, fetched).config)
  {
    if Authenticated(q, users) {
      AssembledResolves(CollectDocuments(fetched).value);
    }
  }

  /** Unlike a fail-soft reading of the sources, one unreadable subscription
      makes the whole authenticated request fail, whatever the others hold. */
  lemma OneUnusableSourceRejects(q: Query, users: seq<User>, a: seq<Fetched>, b: seq<Fetched>)
    requires Authenticated(q, users)
    ensures GetSubscribe(q, users, a + [Unusable] + b) == Rejected
  {
    assert Unusable in a + [Unusable] + b;
  }

  /** A token held by a user, with one subscription holding one `vmess`
      proxy `n1`: the document lists `n1` once, the url-test group lists
      `[n1]` and the select group `[自动选择, DIRECT, n1]`. */
  lemma OneSubscriptionScenario(rules: seq<string>)
    ensures var users := [User("u7", "abc")];
            var fetched := [Parsed(ApiJson([Proxy("n1", Vmess)], rules))];
            var c := GetSubscribe(Text("abc"), users, fetched).config;
            && GetSubscribe(Text("abc"), users, fetched).Written?
            && c.proxies == [Proxy("n1", Vmess)]
            && c.proxyGroups[0].proxies == ["自动选择", "DIRECT", "n1"]
            && c.proxyGroups[1].proxies == ["n1"]
            && c.rules == RuleList()
  {
    var docs := [ApiJson([Proxy("n1", Vmess)], rules)];
    ProxyListPerDocument(docs);
    assert FilterVmess([Proxy("n1", Vmess)]) == [Proxy("n1", Vmess)] + FilterVmess([]);
    assert VmessPerDocument(docs[1..]) == [];
    var fetched := [Parsed(ApiJson([Proxy("n1", Vmess)], rules))];
    assert forall f :: f in fetched ==> f == fetched[0];
    var got := CollectDocuments(fetched);
    assert got.Some? && |got.value| == 1 && got.value[0] == docs[0];
    assert got.value == docs;
    var g := ProxyGroupList([Proxy("n1", Vmess)]);
    assert g[0].proxies == g[0].proxies[..2] + g[0].proxies[2..];
  }
}
