/** The dashboard's records: a catalog entry (LinkItem) and its per-entry
    reverse-proxy settings (ProxyConfig), as declared in types.ts. */
module Types {

  datatype Option<+T> = None | Some(value: T)

  /** `type: 'link' | 'service'` */
  datatype ItemType = Link | Service

  datatype ProxyConfig = ProxyConfig(
    target: string,
    enableSsl: bool,
    sslCertPath: string,
    sslKeyPath: string,
    enableWebSockets: bool)

  /** A catalog entry. The optional `category` and `proxyConfig` keys are
      `None` when the key is absent from the record. */
  datatype LinkItem = LinkItem(
    id: string,
    title: string,
    url: string,
    description: string,
    icon: Option<string>,
    itemType: ItemType,
    enabled: bool,
    category: Option<string>,
    proxyConfig: Option<ProxyConfig>)

  /** The set of urls of a list of entries (`new Set(links.map(l => l.url))`). */
  function Urls(links: seq<LinkItem>): (r: set<string>)
    ensures forall i :: 0 <= i < |links| ==> links[i].url in r
    ensures forall u :: u in r ==> exists i :: 0 <= i < |links| && links[i].url == u
  {
    set l | l in links :: l.url
  }

  /** The set of ids of a list of entries. */
  function Ids(links: seq<LinkItem>): (r: set<string>)
    ensures forall i :: 0 <= i < |links| ==> links[i].id in r
    ensures forall u :: u in r ==> exists i :: 0 <= i < |links| && links[i].id == u
  {
    set l | l in links :: l.id
  }

  /** No two entries share a url. The program does not enforce this; it is
      used only as the hypothesis of conditional lemmas. */
  ghost predicate UniqueUrls(links: seq<LinkItem>)
  {
    forall i, j :: 0 <= i < j < |links| ==> links[i].url != links[j].url
  }
}
