/** `getProxyList` (src/controllers/subscribeController.ts, lines 96-101):
    the proxies of every fetched document, flattened in document order and
    then in-document order, keeping only those whose type is `vmess`. */
module ProxyAggregation {
  import opened ClashTypes

  /** The filter's test: `proxy.type === ProxyType.VMESS` compares the tag text. */
  predicate IsVmess(p: Proxy)
    // the enum member, or an unknown type whose tag spells it
    ensures IsVmess(p) <==> p.kind == Vmess || p.kind == Other(VmessTag)
  {
    p.kind.Tag() == VmessTag
  }

  /** A proxy read with type text `t` passes the filter exactly when `t` is `vmess`. */
  lemma IsVmessOfTag(n: string, t: string)
    ensures IsVmess(Proxy(n, ProxyTypeOf(t))) <==> t == VmessTag
  {
  }

  /** For canonical types the tag test is the enum test. */
  lemma IsVmessIffVmess(p: Proxy)
    requires p.kind.Canonical()
    ensures IsVmess(p) <==> p.kind == Vmess
  {
  }

  /** `.map(apiJson => apiJson.proxies)` */
  function ProxyArrays(docs: seq<ApiJson>): (r: seq<seq<Proxy>>)
    ensures |r| == |docs|
    ensures forall i :: 0 <= i < |docs| ==> r[i] == docs[i].proxies
  {
    seq(|docs|, i requires 0 <= i < |docs| => docs[i].proxies)
  }

  /** `.flat(1)`: the arrays joined end to end. */
  function Flat(xss: seq<seq<Proxy>>): (r: seq<Proxy>)
    ensures forall p :: p in r <==> exists xs :: xs in xss && p in xs
  {
    if xss == [] then [] else xss[0] + Flat(xss[1..])
  }

  /** `.filter(proxy => proxy.type === ProxyType.VMESS)` */
  function FilterVmess(ps: seq<Proxy>): (r: seq<Proxy>)
    ensures |r| <= |ps|
    ensures forall p :: p in r <==> p in ps && IsVmess(p)
  {
    if ps == [] then []
    else (if IsVmess(ps[0]) then [ps[0]] else []) + FilterVmess(ps[1..])
  }

  /** `getProxyList`, in the order of its chain: map, flat, filter. */
  function ProxyList(docs: seq<ApiJson>): (r: seq<Proxy>)
    ensures forall p :: p in r ==> IsVmess(p)
  {
    FilterVmess(Flat(ProxyArrays(docs)))
  }

  /** The number of proxies across all documents, whatever their type. */
  function TotalProxies(docs: seq<ApiJson>): nat
  {
    if docs == [] then 0 else |docs[0].proxies| + TotalProxies(docs[1..])
  }

  /** An independent reading: filter each document's proxies, then join the
      filtered lists in document order. */
  function VmessPerDocument(docs: seq<ApiJson>): seq<Proxy>
  {
    if docs == [] then [] else FilterVmess(docs[0].proxies) + VmessPerDocument(docs[1..])
  }

  /** `a` occurs in `b` with its order kept, possibly with gaps. */
  predicate Subsequence(a: seq<Proxy>, b: seq<Proxy>)
    decreases |b|
  {
    if a == [] then true
    else if b == [] then false
    else (a[0] == b[0] && Subsequence(a[1..], b[1..])) || Subsequence(a, b[1..])
  }

  lemma {:induction false} FilterAppend(a: seq<Proxy>, b: seq<Proxy>)
    ensures FilterVmess(a + b) == FilterVmess(a) + FilterVmess(b)
  {
    if a == [] {
      assert a + b == b;
    } else {
      assert (a + b)[1..] == a[1..] + b;
      FilterAppend(a[1..], b);
    }
  }

  lemma {:induction false} FlatAppend(xss: seq<seq<Proxy>>, yss: seq<seq<Proxy>>)
    ensures Flat(xss + yss) == Flat(xss) + Flat(yss)
  {
    if xss == [] {
      assert xss + yss == yss;
    } else {
      assert (xss + yss)[1..] == xss[1..] + yss;
      FlatAppend(xss[1..], yss);
    }
  }

  /** Flattening then filtering equals filtering each document then joining. */
  lemma {:induction false} ProxyListPerDocument(docs: seq<ApiJson>)
    ensures ProxyList(docs) == VmessPerDocument(docs)
  {
    if docs != [] {
      assert ProxyArrays(docs) == [docs[0].proxies] + ProxyArrays(docs[1..]);
      FilterAppend(docs[0].proxies, Flat(ProxyArrays(docs[1..])));
      ProxyListPerDocument(docs[1..]);
    }
  }

  /** Aggregating two runs of documents gives the first run's proxies followed
      by the second run's: document order is kept and nothing is merged. */
  lemma {:induction false} ProxyListAppend(a: seq<ApiJson>, b: seq<ApiJson>)
    ensures ProxyList(a + b) == ProxyList(a) + ProxyList(b)
  {
    assert ProxyArrays(a + b) == ProxyArrays(a) + ProxyArrays(b);
    FlatAppend(ProxyArrays(a), ProxyArrays(b));
    FilterAppend(Flat(ProxyArrays(a)), Flat(ProxyArrays(b)));
  }

  /** No deduplication across documents: every proxy occurs in the result as
      many times as it occurs in the two runs together. */
  lemma ProxyListCounts(a: seq<ApiJson>, b: seq<ApiJson>)
    ensures multiset(ProxyList(a + b)) == multiset(ProxyList(a)) + multiset(ProxyList(b))
  {
    ProxyListAppend(a, b);
  }

  /** A proxy is in the result exactly when it is `vmess` and some document lists it. */
  lemma ProxyListMembership(docs: seq<ApiJson>, p: Proxy)
    ensures p in ProxyList(docs) <==> IsVmess(p) && exists d :: d in docs && p in d.proxies
  {
  }

  lemma {:induction false} FilterLength(ps: seq<Proxy>)
    ensures |FilterVmess(ps)| == |ps| <==> forall p :: p in ps ==> IsVmess(p)
  {
    if ps != [] {
      FilterLength(ps[1..]);
      assert forall p :: p in ps[1..] ==> p in ps;
      assert forall p :: p in ps ==> p == ps[0] || p in ps[1..];
    }
  }

  lemma {:induction false} FlatLength(docs: seq<ApiJson>)
    ensures |Flat(ProxyArrays(docs))| == TotalProxies(docs)
  {
    if docs != [] {
      assert ProxyArrays(docs) == [docs[0].proxies] + ProxyArrays(docs[1..]);
      FlatLength(docs[1..]);
    }
  }

  /** The result is never longer than the total proxy count, and is exactly as
      long when every proxy of every document is `vmess`. */
  lemma ProxyListLength(docs: seq<ApiJson>)
    ensures |ProxyList(docs)| <= TotalProxies(docs)
    ensures |ProxyList(docs)| == TotalProxies(docs) <==>
              forall d, p :: d in docs && p in d.proxies ==> IsVmess(p)
  {
    FlatLength(docs);
    var all := Flat(ProxyArrays(docs));
    FilterLength(all);
    forall d, p | d in docs && p in d.proxies ensures p in all {
      ProxyListMembership(docs, p);
      var i :| 0 <= i < |docs| && docs[i] == d;
      assert ProxyArrays(docs)[i] in ProxyArrays(docs);
    }
    forall p | p in all ensures exists d :: d in docs && p in d.proxies {
      var xs :| xs in ProxyArrays(docs) && p in xs;
      var i :| 0 <= i < |docs| && ProxyArrays(docs)[i] == xs;
      assert docs[i] in docs;
    }
  }

  lemma {:induction false} FilterIsSubsequence(ps: seq<Proxy>)
    ensures Subsequence(FilterVmess(ps), ps)
  {
    if ps != [] {
      FilterIsSubsequence(ps[1..]);
      if IsVmess(ps[0]) {
        assert FilterVmess(ps) == [ps[0]] + FilterVmess(ps[1..]);
      } else {
        assert FilterVmess(ps) == FilterVmess(ps[1..]);
      }
    }
  }

  /** The result keeps the relative order of the flattened proxies. */
  lemma ProxyListKeepsOrder(docs: seq<ApiJson>)
    ensures Subsequence(ProxyList(docs), Flat(ProxyArrays(docs)))
  {
    FilterIsSubsequence(Flat(ProxyArrays(docs)));
  }

  /** Only the documents' `proxies` are read: their `rules` make no difference. */
  lemma {:induction false} ProxyListIgnoresRules(a: seq<ApiJson>, b: seq<ApiJson>)
    requires |a| == |b|
    requires forall i :: 0 <= i < |a| ==> a[i].proxies == b[i].proxies
    ensures ProxyList(a) == ProxyList(b)
  {
    assert ProxyArrays(a) == ProxyArrays(b);
  }

  /** Two documents yielding `[p1, p2]` and `[p3]` aggregate to `[p1, p2, p3]`. */
  lemma TwoDocumentsInOrder(p1: Proxy, p2: Proxy, p3: Proxy, r1: seq<string>, r2: seq<string>)
    requires IsVmess(p1) && IsVmess(p2) && IsVmess(p3)
    ensures ProxyList([ApiJson([p1, p2], r1), ApiJson([p3], r2)]) == [p1, p2, p3]
  {
    var docs := [ApiJson([p1, p2], r1), ApiJson([p3], r2)];
    ProxyListPerDocument(docs);
    assert FilterVmess([p1, p2]) == [p1] + FilterVmess([p2]);
    assert FilterVmess([p3]) == [p3] + FilterVmess([]);
    assert docs[1..] == [ApiJson([p3], r2)];
    assert VmessPerDocument(docs[1..]) == FilterVmess([p3]) + VmessPerDocument([]);
  }

  /** The same `vmess` proxy in two documents appears twice, and an `ss` proxy is dropped. */
  lemma DuplicatesKept(p: Proxy, q: Proxy)
    requires IsVmess(p) && q.kind == Ss
    ensures ProxyList([ApiJson([p, q], []), ApiJson([p], [])]) == [p, p]
  {
    var docs := [ApiJson([p, q], []), ApiJson([p], [])];
    ProxyListPerDocument(docs);
    assert FilterVmess([p, q]) == [p] + FilterVmess([q]);
    assert FilterVmess([q]) == [] + FilterVmess([]);
    assert FilterVmess([p]) == [p] + FilterVmess([]);
    assert docs[1..] == [ApiJson([p], [])];
    assert VmessPerDocument(docs[1..]) == FilterVmess([p]) + VmessPerDocument([]);
  }
}
