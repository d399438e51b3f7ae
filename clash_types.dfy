/** The value types of the subscription controller: proxies, proxy groups,
    parsed subscription documents, users and the assembled configuration
    (src/controllers/subscribeController.ts, lines 7-49). */
module ClashTypes {

  datatype Option<+T> = None | Some(value: T)

  /** The tag string the document format uses for the two enum members. */
  const VmessTag: string := "vmess"
  const SsTag: string := "ss"

  /** Protocol of a proxy. The enum names two protocols; a parsed document may
      carry any other tag, which is kept as `Other`. */
  datatype ProxyType = Vmess | Ss | Other(tag: string)
  {
    /** The text this type is written as in a document. */
    function Tag(): string
    {
      match this
      case Vmess => VmessTag
      case Ss => SsTag
      case Other(t) => t
    }

    /** An `Other` that does not spell one of the enum tags. */
    predicate Canonical()
    {
      Other? ==> tag != VmessTag && tag != SsTag
    }
  }

  /** Reads a document's `type` text as a proxy type. */
  function ProxyTypeOf(tag: string): (k: ProxyType)
    ensures k.Canonical()
    ensures k.Tag() == tag
  {
    if tag == VmessTag then Vmess
    else if tag == SsTag then Ss
    else Other(tag)
  }

  /** Reading a written tag gives the type back, for every canonical type. */
  lemma ProxyTypeRoundTrip(k: ProxyType)
    requires k.Canonical()
    ensures ProxyTypeOf(k.Tag()) == k
  {
  }

  /** `interface Proxy` (lines 12-15); `type` is a keyword here, so `kind`. */
  datatype Proxy = Proxy(name: string, kind: ProxyType)

  datatype ProxyGroupType = Select | UrlTest
  {
    function Tag(): string
    {
      match this
      case Select => "select"
      case UrlTest => "url-test"
    }
  }

  /** `interface ProxyGroup` (lines 22-26) and its extension
      `AutoSelectProxyGroup` (lines 28-32), which adds a latency probe. */
  datatype ProxyGroup =
    | Group(name: string, kind: ProxyGroupType, proxies: seq<string>)
    | AutoSelectGroup(name: string, kind: ProxyGroupType, proxies: seq<string>,
                      url: string, interval: int, tolerance: int)

  /** One parsed subscription document (`interface ApiJson`, lines 36-39). */
  datatype ApiJson = ApiJson(proxies: seq<Proxy>, rules: seq<string>)

  /** A row of the user table (lines 41-44). */
  datatype User = User(name: string, token: string)

  /** The fixed settings block written at the head of every document. */
  datatype BaseConfig = BaseConfig(
    port: int,
    socksPort: int,
    mixedPort: int,
    allowLan: bool,
    mode: string,
    logLevel: string,
    ipv6: bool,
    externalController: string)

  /** The document the endpoint writes: the base settings spread into one
      record together with `proxies`, `proxy-groups` and `rules`. */
  datatype Config = Config(
    base: BaseConfig,
    proxies: seq<Proxy>,
    proxyGroups: seq<ProxyGroup>,
    rules: seq<string>)

  /** The names of a list of proxies, in order (`proxyList.map(proxy => proxy.name)`). */
  function Names(ps: seq<Proxy>): (r: seq<string>)
    ensures |r| == |ps|
    ensures forall i :: 0 <= i < |ps| ==> r[i] == ps[i].name
  {
    seq(|ps|, i requires 0 <= i < |ps| => ps[i].name)
  }

  /** A name is listed exactly when some proxy carries it. */
  lemma NamesMembership(ps: seq<Proxy>, x: string)
    ensures x in Names(ps) <==> exists p :: p in ps && p.name == x
  {
  }
}
