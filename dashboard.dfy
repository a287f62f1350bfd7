/** The grouping of components/Dashboard.tsx: the entries are split by type
    into services and plain links, each group is ordered by title, and the
    page shows a section per non-empty group, or an empty-state panel whose
    text depends on whether a search is active. */
module Dashboard {
  import opened Types

  // ---------------------------------------------------------------------
  // Title order
  // ---------------------------------------------------------------------

  /** `a.localeCompare(b) <= 0`, taken as the lexicographic order of
      character codes. */
  predicate TitleLe(a: string, b: string)
    decreases |a|
  {
    |a| == 0 || (|b| > 0 && (a[0] < b[0] || (a[0] == b[0] && TitleLe(a[1..], b[1..]))))
  }

  /** Any two titles are comparable. */
  lemma {:induction false} TitleLeTotal(a: string, b: string)
    ensures TitleLe(a, b) || TitleLe(b, a)
    decreases |a|
  {
    if |a| > 0 && |b| > 0 && a[0] == b[0] {
      TitleLeTotal(a[1..], b[1..]);
    }
  }

  /** The title order is transitive. */
  lemma {:induction false} TitleLeTrans(a: string, b: string, c: string)
    requires TitleLe(a, b) && TitleLe(b, c)
    ensures TitleLe(a, c)
    decreases |a|
  {
    if |a| > 0 && a[0] == b[0] && b[0] == c[0] {
      TitleLeTrans(a[1..], b[1..], c[1..]);
    }
  }

  /** Two titles each at most the other are equal. */
  lemma {:induction false} TitleLeAntisymmetric(a: string, b: string)
    requires TitleLe(a, b) && TitleLe(b, a)
    ensures a == b
    decreases |a|
  {
    if |a| > 0 {
      TitleLeAntisymmetric(a[1..], b[1..]);
      assert a == [a[0]] + a[1..] && b == [b[0]] + b[1..];
    }
  }

  /** Ascending by title: every entry's title is at most every later one's. */
  ghost predicate SortedByTitle(s: seq<LinkItem>)
  {
    forall i, j :: 0 <= i < j < |s| ==> TitleLe(s[i].title, s[j].title)
  }

  // ---------------------------------------------------------------------
  // Filter and sort
  // ---------------------------------------------------------------------

  /** `links.filter(link => link.type === t)`: every entry of type `t`, as
      often as it occurs, and no other. */
  function OfType(links: seq<LinkItem>, t: ItemType): (r: seq<LinkItem>)
    ensures |r| <= |links|
    ensures forall l :: multiset(r)[l] == if l.itemType == t then multiset(links)[l] else 0
  {
    if links == [] then []
    else
      assert links == [links[0]] + links[1..];
      if links[0].itemType == t then [links[0]] + OfType(links[1..], t)
      else OfType(links[1..], t)
  }

  /** Filtering distributes over concatenation: a group keeps the input
      order of its entries. */
  lemma {:induction false} OfTypeKeepsOrder(a: seq<LinkItem>, b: seq<LinkItem>, t: ItemType)
    ensures OfType(a + b, t) == OfType(a, t) + OfType(b, t)
  {
    if a == [] {
      assert a + b == b;
    } else {
      assert (a + b)[1..] == a[1..] + b;
      OfTypeKeepsOrder(a[1..], b, t);
    }
  }

  /** One step of insertion: `x` goes before the first entry whose title it
      does not exceed, after every entry that sorts strictly before it. */
  function Insert(x: LinkItem, s: seq<LinkItem>): (r: seq<LinkItem>)
    ensures multiset(r) == multiset(s) + multiset{x}
  {
    if s == [] then [x]
    else if TitleLe(x.title, s[0].title) then [x] + s
    else
      assert s == [s[0]] + s[1..];
      [s[0]] + Insert(x, s[1..])
  }

  /** The rest of a sorted list is sorted and comes after its head. */
  lemma SortedTail(s: seq<LinkItem>)
    requires SortedByTitle(s) && s != []
    ensures SortedByTitle(s[1..])
    ensures forall y :: y in s[1..] ==> TitleLe(s[0].title, y.title)
  {
    var rest := s[1..];
    forall i, j | 0 <= i < j < |rest| ensures TitleLe(rest[i].title, rest[j].title) {
      assert rest[i] == s[i + 1] && rest[j] == s[j + 1];
    }
    forall y | y in rest ensures TitleLe(s[0].title, y.title) {
      var k :| 0 <= k < |rest| && rest[k] == y;
      assert s[k + 1] == y;
    }
  }

  /** A head that comes before every entry of a sorted list keeps it
      sorted. */
  lemma SortedCons(h: LinkItem, tail: seq<LinkItem>)
    requires SortedByTitle(tail) && forall y :: y in tail ==> TitleLe(h.title, y.title)
    ensures SortedByTitle([h] + tail)
  {
    var r := [h] + tail;
    forall i, j | 0 <= i < j < |r| ensures TitleLe(r[i].title, r[j].title) {
      assert r[j] == tail[j - 1];
      if i > 0 {
        assert r[i] == tail[i - 1];
      }
    }
  }

  /** Inserting into a sorted list keeps it sorted. */
  lemma {:induction false} InsertSorted(x: LinkItem, s: seq<LinkItem>)
    requires SortedByTitle(s)
    ensures SortedByTitle(Insert(x, s))
  {
    if s == [] {
    } else {
      SortedTail(s);
      if TitleLe(x.title, s[0].title) {
        forall y | y in s ensures TitleLe(x.title, y.title) {
          if y != s[0] {
            TitleLeTrans(x.title, s[0].title, y.title);
          }
        }
        SortedCons(x, s);
      } else {
        var rest := Insert(x, s[1..]);
        InsertSorted(x, s[1..]);
        TitleLeTotal(x.title, s[0].title);
        forall y | y in rest ensures TitleLe(s[0].title, y.title) {
          assert y in multiset(rest);
          assert y == x || y in s[1..];
        }
        SortedCons(s[0], rest);
      }
    }
  }

  /** `.sort((a, b) => a.title.localeCompare(b.title))`, as an insertion
      sort; the result is ascending by title and a permutation of the
      input. */
  function SortByTitle(s: seq<LinkItem>): (r: seq<LinkItem>)
    ensures multiset(r) == multiset(s)
    ensures SortedByTitle(r)
  {
    if s == [] then []
    else
      assert s == [s[0]] + s[1..];
      InsertSorted(s[0], SortByTitle(s[1..]));
      Insert(s[0], SortByTitle(s[1..]))
  }

  /** The entries titled `t`, in their order. */
  function WithTitle(s: seq<LinkItem>, t: string): seq<LinkItem>
  {
    if s == [] then []
    else (if s[0].title == t then [s[0]] else []) + WithTitle(s[1..], t)
  }

  /** `WithTitle` of a list built from its head. */
  lemma WithTitleCons(h: LinkItem, rest: seq<LinkItem>, t: string)
    ensures WithTitle([h] + rest, t) == (if h.title == t then [h] else []) + WithTitle(rest, t)
  {
    assert ([h] + rest)[1..] == rest;
  }

  /** Every title is at most itself. */
  lemma TitleLeRefl(a: string)
    ensures TitleLe(a, a)
  {
    TitleLeTotal(a, a);
  }

  /** A head that does not share `x`'s title keeps its place among the
      entries titled `t` when `x` is inserted after it. */
  lemma PastHead(h: LinkItem, x: LinkItem, r: seq<LinkItem>, tail: seq<LinkItem>, t: string)
    requires h.title != x.title
    requires WithTitle(r, t) == (if x.title == t then [x] else []) + WithTitle(tail, t)
    ensures WithTitle([h] + r, t) == (if x.title == t then [x] else []) + WithTitle([h] + tail, t)
  {
    WithTitleCons(h, r, t);
    WithTitleCons(h, tail, t);
  }

  /** Inserting `x` puts it ahead of every entry that shares its title:
      among the entries titled `t`, `x` comes first when it is one of them,
      and the others keep their order. */
  lemma {:induction false} InsertWithTitle(x: LinkItem, s: seq<LinkItem>, t: string)
    ensures WithTitle(Insert(x, s), t)
            == (if x.title == t then [x] else []) + WithTitle(s, t)
  {
    if s == [] {
      WithTitleCons(x, [], t);
    } else if TitleLe(x.title, s[0].title) {
      WithTitleCons(x, s, t);
    } else {
      InsertWithTitle(x, s[1..], t);
      TitleLeRefl(x.title);
      assert Insert(x, s) == [s[0]] + Insert(x, s[1..]);
      PastHead(s[0], x, Insert(x, s[1..]), s[1..], t);
      assert [s[0]] + s[1..] == s;
    }
  }

  /** The sort is stable: the entries sharing any one title keep their
      input order, as `Array.prototype.sort` promises. */
  lemma {:induction false} SortByTitleStable(s: seq<LinkItem>, t: string)
    ensures WithTitle(SortByTitle(s), t) == WithTitle(s, t)
  {
    if s != [] {
      SortByTitleStable(s[1..], t);
      InsertWithTitle(s[0], SortByTitle(s[1..]), t);
    }
  }

  /** `services` */
  function Services(links: seq<LinkItem>): seq<LinkItem>
  {
    SortByTitle(OfType(links, Service))
  }

  /** `regularLinks` */
  function RegularLinks(links: seq<LinkItem>): seq<LinkItem>
  {
    SortByTitle(OfType(links, Link))
  }

  /** A sorted group holds exactly the entries of its type. */
  lemma GroupMembers(links: seq<LinkItem>, t: ItemType)
    ensures forall l :: l in SortByTitle(OfType(links, t)) <==> l in links && l.itemType == t
  {
    var g := SortByTitle(OfType(links, t));
    forall l ensures l in g <==> l in links && l.itemType == t {
      assert l in g <==> l in multiset(g);
      assert l in links <==> l in multiset(links);
    }
  }

  /** The two groups hold exactly the services and exactly the plain links,
      each sorted by title, and together they are a permutation of the
      entries. */
  lemma GroupsPartition(links: seq<LinkItem>)
    ensures forall l :: l in Services(links) <==> l in links && l.itemType == Service
    ensures forall l :: l in RegularLinks(links) <==> l in links && l.itemType == Link
    ensures SortedByTitle(Services(links)) && SortedByTitle(RegularLinks(links))
    ensures multiset(Services(links)) + multiset(RegularLinks(links)) == multiset(links)
  {
    GroupMembers(links, Service);
    GroupMembers(links, Link);
    var ms, mg := multiset(OfType(links, Service)), multiset(OfType(links, Link));
    assert ms + mg == multiset(links) by {
      forall l ensures (ms + mg)[l] == multiset(links)[l] {
        assert ms[l] == if l.itemType == Service then multiset(links)[l] else 0;
        assert mg[l] == if l.itemType == Link then multiset(links)[l] else 0;
      }
    }
  }

  // ---------------------------------------------------------------------
  // What the page shows
  // ---------------------------------------------------------------------

  /** The text of the empty-state panel. */
  datatype EmptyText = NoMatch(query: string) | NothingYet

  /** The page below the counters: the two sections (`None` when a group is
      not rendered) or the empty-state panel. */
  datatype Body =
    | Sections(services: Option<seq<LinkItem>>, regular: Option<seq<LinkItem>>)
    | EmptyState(text: EmptyText)

  /** The rendering decisions of `Dashboard`. */
  function Render(links: seq<LinkItem>, searchQuery: string): Body
  {
    if |links| > 0 then
      var s, g := Services(links), RegularLinks(links);
      Sections(if |s| > 0 then Some(s) else None, if |g| > 0 then Some(g) else None)
    else
      EmptyState(if searchQuery != "" then NoMatch(searchQuery) else NothingYet)
  }

  /** The empty-state panel appears exactly for an empty list, with the
      search text exactly when a query is set; otherwise each section
      appears exactly when its group is non-empty, and at least one does. */
  lemma RenderSpec(links: seq<LinkItem>, searchQuery: string)
    ensures Render(links, searchQuery).EmptyState? <==> |links| == 0
    ensures Render(links, searchQuery).EmptyState? ==>
              Render(links, searchQuery).text ==
                (if searchQuery != "" then NoMatch(searchQuery) else NothingYet)
    ensures Render(links, searchQuery).Sections? ==>
              var b := Render(links, searchQuery);
              && (b.services.Some? <==> |Services(links)| > 0)
              && (b.services.Some? ==> b.services.value == Services(links))
              && (b.regular.Some? <==> |RegularLinks(links)| > 0)
              && (b.regular.Some? ==> b.regular.value == RegularLinks(links))
              && (b.services.Some? || b.regular.Some?)
  {
    if |links| > 0 {
      GroupsPartition(links);
      assert links[0] in links;
      if links[0].itemType == Service {
        assert links[0] in Services(links);
      } else {
        assert links[0] in RegularLinks(links);
      }
    }
  }
}
