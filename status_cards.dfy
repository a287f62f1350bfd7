/** The four counters of components/StatusCards.tsx: enabled services,
    enabled plain links, enabled entries and disabled entries. */
module StatusCards {
  import opened Types
  import Dashboard

  /** The positions from `k` on of the entries that satisfy `p`. */
  ghost function PositionsFrom(links: seq<LinkItem>, p: LinkItem -> bool, k: nat): set<int>
  {
    set i | k <= i < |links| && p(links[i])
  }

  /** The number of such positions, counted one position at a time. */
  ghost function CountFrom(links: seq<LinkItem>, p: LinkItem -> bool, k: nat): nat
    decreases |links| - k
  {
    if k >= |links| then 0 else (if p(links[k]) then 1 else 0) + CountFrom(links, p, k + 1)
  }

  /** The positions from `k` on number `CountFrom(links, p, k)`. */
  lemma {:induction false} PositionsFromSize(links: seq<LinkItem>, p: LinkItem -> bool, k: nat)
    ensures |PositionsFrom(links, p, k)| == CountFrom(links, p, k)
    decreases |links| - k
  {
    if k >= |links| {
      assert PositionsFrom(links, p, k) == {};
    } else {
      PositionsFromSize(links, p, k + 1);
      var later := PositionsFrom(links, p, k + 1);
      assert k !in later;
      if p(links[k]) {
        assert PositionsFrom(links, p, k) == later + {k};
      } else {
        assert PositionsFrom(links, p, k) == later;
      }
    }
  }

  /** Counting from `k + 1` in a list counts from `k` in its tail. */
  lemma {:induction false} CountFromTail(links: seq<LinkItem>, p: LinkItem -> bool, k: nat)
    requires links != []
    ensures CountFrom(links, p, k + 1) == CountFrom(links[1..], p, k)
    decreases |links| - k
  {
    if k + 1 < |links| {
      assert links[1..][k] == links[k + 1];
      CountFromTail(links, p, k + 1);
    }
  }

  /** `links.filter(p).length`: the number of entries that satisfy `p`. */
  function CountWhere(links: seq<LinkItem>, p: LinkItem -> bool): (n: nat)
    ensures n == |set i | 0 <= i < |links| && p(links[i])|
    ensures n <= |links|
    ensures |links| == 0 ==> n == 0
  {
    if links == [] then
      assert PositionsFrom(links, p, 0) == {};
      0
    else
      PositionsFromSize(links, p, 0);
      PositionsFromSize(links[1..], p, 0);
      CountFromTail(links, p, 0);
      (if p(links[0]) then 1 else 0) + CountWhere(links[1..], p)
  }

  predicate IsActiveService(l: LinkItem) { l.itemType == Service && l.enabled }
  predicate IsActiveLink(l: LinkItem) { l.itemType == Link && l.enabled }
  predicate IsOnline(l: LinkItem) { l.enabled }
  predicate IsOffline(l: LinkItem) { !l.enabled }

  /** The values shown on the four cards. */
  datatype Counts = Counts(activeServices: nat, activeLinks: nat, online: nat, offline: nat)

  /** An entry is enabled exactly when it is an enabled service or an
      enabled link, since those are the only two types. */
  lemma {:induction false} OnlineIsActiveSum(links: seq<LinkItem>)
    ensures CountWhere(links, IsOnline) ==
              CountWhere(links, IsActiveService) + CountWhere(links, IsActiveLink)
  {
    if links != [] {
      OnlineIsActiveSum(links[1..]);
    }
  }

  /** Every entry is either enabled or disabled. */
  lemma {:induction false} OnlineOfflineTotal(links: seq<LinkItem>)
    ensures CountWhere(links, IsOnline) + CountWhere(links, IsOffline) == |links|
  {
    if links != [] {
      OnlineOfflineTotal(links[1..]);
    }
  }

  /** The counters of `StatusCards`: the online count is the sum of the two
      active counts, online and offline add up to the number of entries,
      each is at most that number and all are zero for no entries. */
  function Counters(links: seq<LinkItem>): (c: Counts)
    ensures c.activeServices == |set i | 0 <= i < |links| && links[i].itemType == Service && links[i].enabled|
    ensures c.activeLinks == |set i | 0 <= i < |links| && links[i].itemType == Link && links[i].enabled|
    ensures c.online == |set i | 0 <= i < |links| && links[i].enabled|
    ensures c.offline == |set i | 0 <= i < |links| && !links[i].enabled|
    ensures c.online == c.activeServices + c.activeLinks
    ensures c.online + c.offline == |links|
    ensures c.activeServices <= |links| && c.activeLinks <= |links|
    ensures c.online <= |links| && c.offline <= |links|
    ensures |links| == 0 ==> c == Counts(0, 0, 0, 0)
  {
    OnlineIsActiveSum(links);
    OnlineOfflineTotal(links);
    assert PositionsFrom(links, IsActiveService, 0)
        == set i | 0 <= i < |links| && links[i].itemType == Service && links[i].enabled;
    assert PositionsFrom(links, IsActiveLink, 0)
        == set i | 0 <= i < |links| && links[i].itemType == Link && links[i].enabled;
    assert PositionsFrom(links, IsOnline, 0) == set i | 0 <= i < |links| && links[i].enabled;
    assert PositionsFrom(links, IsOffline, 0) == set i | 0 <= i < |links| && !links[i].enabled;
    Counts(CountWhere(links, IsActiveService), CountWhere(links, IsActiveLink),
           CountWhere(links, IsOnline), CountWhere(links, IsOffline))
  }

  /** Counting enabled entries of one type over the whole list counts the
      enabled entries of that type's group. */
  lemma {:induction false} CountOfType(links: seq<LinkItem>, t: ItemType)
    ensures CountWhere(links, if t == Service then IsActiveService else IsActiveLink)
            == CountWhere(Dashboard.OfType(links, t), IsOnline)
  {
    if links != [] {
      CountOfType(links[1..], t);
      if links[0].itemType == t {
        assert ([links[0]] + Dashboard.OfType(links[1..], t))[1..] == Dashboard.OfType(links[1..], t);
      }
    }
  }

  /** The active-services card never shows more than the services section
      lists, nor the active-links card more than the links section. */
  lemma ActiveWithinGroups(links: seq<LinkItem>)
    ensures Counters(links).activeServices <= |Dashboard.Services(links)|
    ensures Counters(links).activeLinks <= |Dashboard.RegularLinks(links)|
  {
    CountOfType(links, Service);
    CountOfType(links, Link);
    assert |Dashboard.Services(links)| == |multiset(Dashboard.OfType(links, Service))|;
    assert |Dashboard.RegularLinks(links)| == |multiset(Dashboard.OfType(links, Link))|;
  }
}
