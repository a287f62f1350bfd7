/** The catalog state held by App.tsx and its handlers: update, delete,
    toggle, edit-save, create, import of detected services, and the
    search filter. Every server request is a parameter: the handler is
    given the reply the server sends (`Reply`), and the list only changes
    when that reply is ok. */
module App {
  import opened Types
  import opened Text
  import ApacheParser
  import AddLinkModal

  /** What a `fetch` produced: an ok response with its decoded body, or a
      failure (a non-ok status or a thrown error) with its message. */
  datatype Reply<T> = Ok(body: T) | NotOk(reason: string)

  /** `AppData` */
  datatype AppData = AppData(appName: string, links: seq<LinkItem>)

  datatype View = DashboardView | SettingsView

  /** No two entries share an id. The program does not enforce this; it is
      used only as the hypothesis of conditional lemmas. */
  ghost predicate UniqueIds(links: seq<LinkItem>)
  {
    forall i, j :: 0 <= i < j < |links| ==> links[i].id != links[j].id
  }

  /** `links.map(link => link.id === saved.id ? saved : link)` */
  function ReplaceById(links: seq<LinkItem>, saved: LinkItem): (r: seq<LinkItem>)
    ensures |r| == |links|
    ensures forall i :: 0 <= i < |links| ==>
              r[i] == if links[i].id == saved.id then saved else links[i]
  {
    if links == [] then []
    else [if links[0].id == saved.id then saved else links[0]] + ReplaceById(links[1..], saved)
  }

  /** `links.filter(link => link.id !== id)` */
  function RemoveById(links: seq<LinkItem>, id: string): (r: seq<LinkItem>)
    ensures |r| <= |links|
    ensures forall l :: l in r <==> l in links && l.id != id
  {
    if links == [] then []
    else if links[0].id == id then RemoveById(links[1..], id)
    else [links[0]] + RemoveById(links[1..], id)
  }

  /** How many entries carry `id`. */
  function CountId(links: seq<LinkItem>, id: string): nat
  {
    if links == [] then 0
    else (if links[0].id == id then 1 else 0) + CountId(links[1..], id)
  }

  /** Delete removes exactly the entries with the id: one per occurrence. */
  lemma {:induction false} RemoveByIdCount(links: seq<LinkItem>, id: string)
    ensures |RemoveById(links, id)| + CountId(links, id) == |links|
  {
    if links != [] {
      RemoveByIdCount(links[1..], id);
    }
  }

  /** Delete keeps the survivors' relative order: it distributes over
      concatenation. */
  lemma {:induction false} RemoveByIdKeepsOrder(a: seq<LinkItem>, b: seq<LinkItem>, id: string)
    ensures RemoveById(a + b, id) == RemoveById(a, id) + RemoveById(b, id)
  {
    if a == [] {
      assert a + b == b;
    } else {
      assert (a + b)[1..] == a[1..] + b;
      RemoveByIdKeepsOrder(a[1..], b, id);
    }
  }

  /** The entries after the first of a list with distinct urls have
      distinct urls, none of them the first entry's. */
  lemma UniqueUrlsTail(links: seq<LinkItem>)
    requires UniqueUrls(links) && links != []
    ensures UniqueUrls(links[1..])
    ensures forall l :: l in links[1..] ==> l.url != links[0].url
  {
    var rest := links[1..];
    forall i, j | 0 <= i < j < |rest| ensures rest[i].url != rest[j].url {
      assert rest[i] == links[i + 1] && rest[j] == links[j + 1];
    }
    forall l | l in rest ensures l.url != links[0].url {
      var k :| 0 <= k < |rest| && rest[k] == l;
      assert links[k + 1] == l;
    }
  }

  /** An entry in front of a list with distinct urls, none of them its
      own, keeps the urls distinct. */
  lemma UniqueUrlsCons(x: LinkItem, tail: seq<LinkItem>)
    requires UniqueUrls(tail) && forall l :: l in tail ==> l.url != x.url
    ensures UniqueUrls([x] + tail)
  {
    var r := [x] + tail;
    forall i, j | 0 <= i < j < |r| ensures r[i].url != r[j].url {
      assert r[j] == tail[j - 1];
      if i > 0 {
        assert r[i] == tail[i - 1];
      }
    }
  }

  /** Deleting keeps the urls of the survivors pairwise distinct. */
  lemma {:induction false} RemoveByIdKeepsUrlsUnique(links: seq<LinkItem>, id: string)
    requires UniqueUrls(links)
    ensures UniqueUrls(RemoveById(links, id))
  {
    if links != [] {
      var rest := links[1..];
      UniqueUrlsTail(links);
      RemoveByIdKeepsUrlsUnique(rest, id);
      if links[0].id != id {
        UniqueUrlsCons(links[0], RemoveById(rest, id));
      }
    }
  }

  /** The index `links.find(link => link.id === id)` stops at. */
  function FindIndex(links: seq<LinkItem>, id: string): (r: Option<nat>)
    ensures r.Some? ==> r.value < |links| && links[r.value].id == id
    ensures r.Some? ==> forall j :: 0 <= j < r.value ==> links[j].id != id
    ensures r.None? ==> forall j :: 0 <= j < |links| ==> links[j].id != id
  {
    if links == [] then None
    else if links[0].id == id then Some(0)
    else match FindIndex(links[1..], id)
      case None => None
      case Some(k) => Some(k + 1)
  }

  /** `{ ...link, enabled: !link.enabled }` */
  function Flip(l: LinkItem): (r: LinkItem)
    ensures r.enabled != l.enabled
    ensures r.(enabled := l.enabled) == l
  {
    l.(enabled := !l.enabled)
  }

  /** The request `handleToggleLink` sends: the first entry with the id,
      flipped, or nothing for an unknown id. */
  function ToggleRequest(links: seq<LinkItem>, id: string): Option<LinkItem>
  {
    match FindIndex(links, id)
    case None => None
    case Some(k) => Some(Flip(links[k]))
  }

  /** The list after a toggle whose reply echoes the request. */
  function Toggled(links: seq<LinkItem>, id: string): seq<LinkItem>
  {
    match ToggleRequest(links, id)
    case None => links
    case Some(t) => ReplaceById(links, t)
  }

  /** With distinct ids, a toggle flips `enabled` on the entry with the id,
      leaves all its other fields and every other entry alone, and is a
      no-op for an unknown id. */
  lemma ToggledSpec(links: seq<LinkItem>, id: string)
    requires UniqueIds(links)
    ensures |Toggled(links, id)| == |links|
    ensures forall i :: 0 <= i < |links| ==>
              Toggled(links, id)[i] == if links[i].id == id then Flip(links[i]) else links[i]
    ensures id !in Ids(links) ==> Toggled(links, id) == links
  {
    match FindIndex(links, id)
    case None =>
    case Some(k) =>
      var r := ReplaceById(links, Flip(links[k]));
      forall i | 0 <= i < |links| && links[i].id == id ensures r[i] == Flip(links[i]) {
        assert i == k;
      }
  }

  /** A toggle never changes which id sits at which position. */
  lemma ToggledKeepsIds(links: seq<LinkItem>, id: string)
    ensures |Toggled(links, id)| == |links|
    ensures forall i :: 0 <= i < |links| ==> Toggled(links, id)[i].id == links[i].id
  {
  }

  /** With distinct ids, toggling the same entry twice restores the list. */
  lemma ToggleTwiceRestores(links: seq<LinkItem>, id: string)
    requires UniqueIds(links)
    ensures Toggled(Toggled(links, id), id) == links
  {
    var once := Toggled(links, id);
    ToggledSpec(links, id);
    ToggledKeepsIds(links, id);
    assert UniqueIds(once);
    ToggledSpec(once, id);
    var twice := Toggled(once, id);
    forall i | 0 <= i < |links| ensures twice[i] == links[i] {
      if links[i].id == id {
        assert once[i] == Flip(links[i]);
      }
    }
  }

  /** `{ ...editingLink, ...linkData }`: the form's keys override the
      edited entry's; `id`, `enabled`, and `proxyConfig` when the form has
      none, come from the edited entry. */
  function Merge(editing: LinkItem, d: AddLinkModal.LinkDraft): (r: LinkItem)
    ensures r.id == editing.id && r.enabled == editing.enabled
    ensures r.title == d.title && r.url == d.url && r.description == d.description
    ensures r.icon == d.icon && r.itemType == d.itemType && r.category == Some(d.category)
    ensures r.proxyConfig == if d.proxyConfig.Some? then d.proxyConfig else editing.proxyConfig
  {
    LinkItem(editing.id, d.title, d.url, d.description, d.icon, d.itemType, editing.enabled,
             Some(d.category), if d.proxyConfig.Some? then d.proxyConfig else editing.proxyConfig)
  }

  /** An edit-save that the server echoes keeps every entry's id in place,
      keeps the `enabled` flag of the edited entry, and changes no entry
      with another id. */
  lemma EditKeepsIds(links: seq<LinkItem>, editing: LinkItem, d: AddLinkModal.LinkDraft)
    ensures var r := ReplaceById(links, Merge(editing, d));
      && |r| == |links|
      && (forall i :: 0 <= i < |links| ==> r[i].id == links[i].id)
      && (forall i :: 0 <= i < |links| && links[i].id == editing.id ==> r[i].enabled == editing.enabled)
      && (forall i :: 0 <= i < |links| && links[i].id != editing.id ==> r[i] == links[i])
  {
  }

  /** Opening an entry for editing and saving it without changes gives the
      entry back exactly when it has a category and, if it is a service,
      proxy settings; otherwise the save adds `category: ''` or the default
      proxy settings. */
  lemma EditUnchangedIsIdentity(l: LinkItem, creationType: ItemType)
    ensures Merge(l, AddLinkModal.DraftAfterOpen(Some(l), creationType)) == l <==>
              l.category.Some? && (l.itemType == Service ==> l.proxyConfig.Some?)
  {
    var m := Merge(l, AddLinkModal.DraftAfterOpen(Some(l), creationType));
    if l.category.None? {
      assert m.category != l.category;
    } else if l.itemType == Service && l.proxyConfig.None? {
      assert m.proxyConfig != l.proxyConfig;
    }
  }

  /** `{ ...linkData, id }`: a new entry as `handleSaveLink` sends it (no
      `enabled` key). */
  datatype NewLink = NewLink(id: string, draft: AddLinkModal.LinkDraft)

  /** The request `handleSaveLink` makes. */
  datatype SaveRequest = UpdateRequest(entry: LinkItem) | CreateRequest(batch: seq<NewLink>)

  /** The proxy settings every imported service starts with. */
  const ImportedProxy: ProxyConfig := ProxyConfig("http://localhost:8000", false, "", "", false)

  /** One candidate promoted to a full service entry. */
  function Promote(p: ApacheParser.ParsedLink, id: string): (r: LinkItem)
    ensures r.id == id && r.itemType == Service && r.enabled
    ensures r.category == Some("Imported") && r.proxyConfig == Some(ImportedProxy)
  {
    LinkItem(id, p.title, p.url, p.description, p.icon, Service, true, Some("Imported"), Some(ImportedProxy))
  }

  /** The candidate fields of an entry. */
  function Demote(l: LinkItem): ApacheParser.ParsedLink
  {
    ApacheParser.ParsedLink(l.title, l.url, l.description, l.icon)
  }

  /** Promotion keeps title, url, description and icon. */
  lemma PromoteKeepsCandidate(p: ApacheParser.ParsedLink, id: string)
    ensures Demote(Promote(p, id)) == p
  {
  }

  /** The `map` that promotes the survivors, one fresh id each. */
  function PromoteAll(ps: seq<ApacheParser.ParsedLink>, ids: seq<string>): (r: seq<LinkItem>)
    requires |ids| >= |ps|
    ensures |r| == |ps|
    ensures forall i :: 0 <= i < |ps| ==> r[i] == Promote(ps[i], ids[i])
  {
    if ps == [] then [] else [Promote(ps[0], ids[0])] + PromoteAll(ps[1..], ids[1..])
  }

  /** The batch `handleAddParsedLinks` sends. */
  function ImportBatch(ps: seq<ApacheParser.ParsedLink>, links: seq<LinkItem>, ids: seq<string>): seq<LinkItem>
    requires |ids| >= |ps|
  {
    PromoteAll(ApacheParser.KeepNew(ps, Urls(links)), ids)
  }

  /** Every entry of the import batch has a url not yet listed, a fresh
      id, and the import defaults; its candidate fields are a candidate's. */
  lemma ImportBatchSpec(ps: seq<ApacheParser.ParsedLink>, links: seq<LinkItem>, ids: seq<string>)
    requires |ids| >= |ps|
    requires forall i :: 0 <= i < |ids| ==> ids[i] !in Ids(links)
    ensures var b := ImportBatch(ps, links, ids);
      && |b| <= |ps|
      && forall i :: 0 <= i < |b| ==>
           && b[i].url !in Urls(links)
           && b[i].id !in Ids(links)
           && Demote(b[i]) in ps
           && b[i].itemType == Service && b[i].enabled && b[i].category == Some("Imported")
  {
    var kept := ApacheParser.KeepNew(ps, Urls(links));
    var b := ImportBatch(ps, links, ids);
    forall i | 0 <= i < |b|
      ensures b[i].url !in Urls(links) && b[i].id !in Ids(links) && Demote(b[i]) in ps
    {
      assert b[i] == Promote(kept[i], ids[i]) && kept[i] in kept;
      PromoteKeepsCandidate(kept[i], ids[i]);
    }
  }

  /** If the listed urls are distinct and the import batch's urls are
      distinct from each other, appending the batch keeps urls distinct. */
  lemma ImportKeepsUrlsUnique(ps: seq<ApacheParser.ParsedLink>, links: seq<LinkItem>, ids: seq<string>)
    requires |ids| >= |ps|
    requires forall i :: 0 <= i < |ids| ==> ids[i] !in Ids(links)
    requires UniqueUrls(links)
    requires UniqueUrls(ImportBatch(ps, links, ids))
    ensures UniqueUrls(links + ImportBatch(ps, links, ids))
  {
    var b := ImportBatch(ps, links, ids);
    ImportBatchSpec(ps, links, ids);
    var r := links + b;
    forall i, j | 0 <= i < j < |r| ensures r[i].url != r[j].url {
      if j >= |links| && i < |links| {
        assert r[j] == b[j - |links|] && r[i] == links[i];
      } else if i >= |links| {
        assert r[i] == b[i - |links|] && r[j] == b[j - |links|];
      }
    }
  }

  /** The `filteredLinks` predicate, with `toLowerCase` on ASCII letters;
      an empty category is falsy and never matches. */
  predicate Matches(l: LinkItem, query: string)
  {
    var q := Lower(query);
    || Contains(Lower(l.title), q)
    || Contains(Lower(l.url), q)
    || Contains(Lower(l.description), q)
    || (l.category.Some? && l.category.value != "" && Contains(Lower(l.category.value), q))
  }

  /** `filteredLinks` */
  function Search(links: seq<LinkItem>, query: string): (r: seq<LinkItem>)
    ensures |r| <= |links|
    ensures forall l :: l in r <==> l in links && Matches(l, query)
  {
    if links == [] then []
    else if Matches(links[0], query) then [links[0]] + Search(links[1..], query)
    else Search(links[1..], query)
  }

  /** The search keeps the list's order: it distributes over concatenation. */
  lemma {:induction false} SearchKeepsOrder(a: seq<LinkItem>, b: seq<LinkItem>, query: string)
    ensures Search(a + b, query) == Search(a, query) + Search(b, query)
  {
    if a == [] {
      assert a + b == b;
    } else {
      assert (a + b)[1..] == a[1..] + b;
      SearchKeepsOrder(a[1..], b, query);
    }
  }

  /** An empty query keeps every entry. */
  lemma {:induction false} EmptyQueryKeepsAll(links: seq<LinkItem>)
    ensures Search(links, "") == links
  {
    if links != [] {
      assert IsAt(Lower(links[0].title), 0, "");
      EmptyQueryKeepsAll(links[1..]);
    }
  }

  /** The search ignores the case of the query. */
  lemma {:induction false} SearchIgnoresQueryCase(links: seq<LinkItem>, query: string)
    ensures Search(links, Lower(query)) == Search(links, query)
  {
    LowerIdempotent(query);
    if links != [] {
      SearchIgnoresQueryCase(links[1..], query);
    }
  }

  /** The state held by `App`. */
  class AppState {
    var appName: string
    var links: seq<LinkItem>
    var isLoading: bool
    var error: Option<string>
    var isModalOpen: bool
    var editingLink: Option<LinkItem>
    var creationType: ItemType
    var searchQuery: string
    var view: View

    /** The `useState` initial values. */
    constructor ()
      ensures appName == "Service Dashboard" && links == [] && isLoading && error == None
      ensures !isModalOpen && editingLink == None && creationType == Link
      ensures searchQuery == "" && view == DashboardView
    {
      appName := "Service Dashboard";
      links := [];
      isLoading := true;
      error := None;
      isModalOpen := false;
      editingLink := None;
      creationType := Link;
      searchQuery := "";
      view := DashboardView;
    }

    /** `fetchData`: an ok reply replaces name and list and clears the
        error; a failure keeps them and records its message. */
    method FetchData(reply: Reply<AppData>)
      modifies this`appName, this`links, this`error, this`isLoading
      ensures !isLoading
      ensures reply.Ok? ==> appName == reply.body.appName && links == reply.body.links && error == None
      ensures reply.NotOk? ==>
                appName == old(appName) && links == old(links) && error == Some(reply.reason)
    {
      isLoading := true;
      if reply.Ok? {
        appName := reply.body.appName;
        links := reply.body.links;
        error := None;
      } else {
        error := Some(reply.reason);
      }
      isLoading := false;
    }

    /** `handleUpdateLink`: an ok reply replaces the entries carrying the
        saved id and closes the edit; a failure changes nothing. */
    method UpdateLink(reply: Reply<LinkItem>)
      modifies this`links, this`editingLink
      ensures reply.Ok? ==> links == ReplaceById(old(links), reply.body) && editingLink == None
      ensures reply.NotOk? ==> links == old(links) && editingLink == old(editingLink)
    {
      if reply.Ok? {
        links := ReplaceById(links, reply.body);
        editingLink := None;
      }
    }

    /** `handleDeleteLink` */
    method DeleteLink(id: string, reply: Reply<()>)
      modifies this`links
      ensures links == if reply.Ok? then RemoveById(old(links), id) else old(links)
    {
      if reply.Ok? {
        links := RemoveById(links, id);
      }
    }

    /** `handleToggleLink`: sends the flipped first entry with the id, if
        any, and applies the reply as `handleUpdateLink` does. */
    method ToggleLink(id: string, reply: Reply<LinkItem>) returns (sent: Option<LinkItem>)
      modifies this`links, this`editingLink
      ensures sent == ToggleRequest(old(links), id)
      ensures links == if sent.Some? && reply.Ok? then ReplaceById(old(links), reply.body) else old(links)
      ensures sent.Some? && reply == Ok(sent.value) ==> links == Toggled(old(links), id)
      ensures editingLink == if sent.Some? && reply.Ok? then None else old(editingLink)
    {
      sent := ToggleRequest(links, id);
      if sent.Some? {
        UpdateLink(reply);
      }
    }

    /** `handleAppNameChange`: the name changes at once; a failed save
        reloads everything from the server. */
    method AppNameChange(name: string, reply: Reply<()>, reload: Reply<AppData>)
      modifies this`appName, this`links, this`error, this`isLoading
      ensures reply.Ok? ==> appName == name && links == old(links) && error == old(error)
      ensures reply.NotOk? && reload.Ok? ==> appName == reload.body.appName && links == reload.body.links
      ensures reply.NotOk? && reload.NotOk? ==> appName == name && links == old(links)
      ensures reply.Ok? ==> isLoading == old(isLoading)
      ensures reply.NotOk? ==> !isLoading
      ensures reply.NotOk? && reload.Ok? ==> error == None
      ensures reply.NotOk? && reload.NotOk? ==> error == Some(reload.reason)
    {
      appName := name;
      if reply.NotOk? {
        FetchData(reload);
      }
    }

    /** `openAddModal` */
    method OpenAddModal(t: ItemType)
      modifies this`editingLink, this`creationType, this`isModalOpen
      ensures editingLink == None && creationType == t && isModalOpen
    {
      editingLink := None;
      creationType := t;
      isModalOpen := true;
    }

    /** `openEditModal` */
    method OpenEditModal(l: LinkItem)
      modifies this`editingLink, this`isModalOpen
      ensures editingLink == Some(l) && isModalOpen
    {
      editingLink := Some(l);
      isModalOpen := true;
    }

    /** `closeModal` */
    method CloseModal()
      modifies this`isModalOpen, this`editingLink
      ensures !isModalOpen && editingLink == None
    {
      isModalOpen := false;
      editingLink := None;
    }

    /** `handleSaveLink`: with an entry being edited, sends the merged
        entry and applies the reply as `handleUpdateLink`; otherwise sends
        the draft under a fresh id and appends what the server returns.
        The dialog closes either way. */
    method SaveLink(d: AddLinkModal.LinkDraft, freshId: string,
                    updateReply: Reply<LinkItem>, addReply: Reply<seq<LinkItem>>)
      returns (request: SaveRequest)
      requires freshId !in Ids(links)
      modifies this`links, this`editingLink, this`isModalOpen
      ensures !isModalOpen && editingLink == None
      ensures old(editingLink).Some? ==>
                && request == UpdateRequest(Merge(old(editingLink).value, d))
                && links == if updateReply.Ok? then ReplaceById(old(links), updateReply.body) else old(links)
      ensures old(editingLink).None? ==>
                && request == CreateRequest([NewLink(freshId, d)])
                && request.batch[0].id !in Ids(old(links))
                && links == if addReply.Ok? then old(links) + addReply.body else old(links)
    {
      if editingLink.Some? {
        request := UpdateRequest(Merge(editingLink.value, d));
        UpdateLink(updateReply);
      } else {
        request := CreateRequest([NewLink(freshId, d)]);
        if addReply.Ok? {
          links := links + addReply.body;
        }
      }
      CloseModal();
    }

    /** `handleAddParsedLinks`: re-checks the candidates against the listed
        urls, promotes the survivors, sends them only if there are any,
        appends what the server returns, and shows the dashboard. */
    method AddParsedLinks(ps: seq<ApacheParser.ParsedLink>, freshIds: seq<string>,
                          reply: Reply<seq<LinkItem>>)
      returns (request: Option<seq<LinkItem>>)
      requires |freshIds| >= |ps|
      requires forall i :: 0 <= i < |freshIds| ==> freshIds[i] !in Ids(links)
      modifies this`links, this`view
      ensures var b := ImportBatch(ps, old(links), freshIds);
        && request == (if |b| > 0 then Some(b) else None)
        && links == if |b| > 0 && reply.Ok? then old(links) + reply.body else old(links)
      ensures view == DashboardView
    {
      var b := ImportBatch(ps, links, freshIds);
      if |b| > 0 {
        request := Some(b);
        if reply.Ok? {
          links := links + reply.body;
        }
      } else {
        request := None;
      }
      view := DashboardView;
    }

    /** `setSearchQuery` */
    method SetSearchQuery(q: string)
      modifies this`searchQuery
      ensures searchQuery == q
    {
      searchQuery := q;
    }

    /** `setView` */
    method SetView(v: View)
      modifies this`view
      ensures view == v
    {
      view := v;
    }
  }
}
