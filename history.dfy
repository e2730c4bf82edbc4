/** The per-tab navigation log (`tabHistory`): the URLs a tab has shown, oldest first. */
module TabHistory {
  import opened Urls

  type History = map<int, seq<string>>

  /** The list of a tab; a tab that was never recorded has none. */
  function Entries(h: History, tabId: int): (list: seq<string>)
  {
    if tabId in h then h[tabId] else []
  }

  /** A recorded list: never empty (it is created together with its first URL), holds no
      restricted URL and never repeats the entry just before. */
  ghost predicate Clean(s: seq<string>)
  {
    s != []
    && (forall i | 0 <= i < |s| :: !IsRestricted(s[i]))
    // Neighbours are named separately (j == i + 1) so that the trigger s[i], s[j] cannot
    // feed itself the way a trigger on s[i] producing s[i + 1] would.
    && (forall i, j | 0 <= i < j < |s| && j == i + 1 :: s[i] != s[j])
  }

  ghost predicate WellFormed(h: History)
  {
    forall t | t in h :: Clean(h[t])
  }

  /** `updateTabHistory(tabId, url)`: restricted URLs are dropped, an empty list is created for a
      new tab, and the URL is pushed unless it equals the tab's last entry. */
  function Updated(h: History, tabId: int, url: string): (r: History)
    ensures forall t | t != tabId :: Entries(r, t) == Entries(h, t)
    ensures Entries(r, tabId) ==
              if !IsRestricted(url) && (Entries(h, tabId) == [] || Entries(h, tabId)[|Entries(h, tabId)| - 1] != url)
              then Entries(h, tabId) + [url]
              else Entries(h, tabId)
    ensures r.Keys <= h.Keys + {tabId}
  {
    if IsRestricted(url) then h
    else
      var list := Entries(h, tabId);
      if |list| == 0 || list[|list| - 1] != url then h[tabId := list + [url]] else h
  }

  lemma UpdatedKeepsWellFormed(h: History, tabId: int, url: string)
    requires WellFormed(h)
    ensures WellFormed(Updated(h, tabId, url))
  {
  }

  /** The history after visiting `urls` in order in tab `tabId`. */
  function Replay(h: History, tabId: int, urls: seq<string>): (r: History)
  {
    if urls == [] then h
    else Updated(Replay(h, tabId, urls[..|urls| - 1]), tabId, urls[|urls| - 1])
  }

  // An independent reading of a tab's list: the visited URLs that are not restricted,
  // with each run of equal consecutive URLs kept once.

  function Visible(urls: seq<string>): (r: seq<string>)
  {
    if urls == [] then []
    else (if IsRestricted(urls[0]) then [] else [urls[0]]) + Visible(urls[1..])
  }

  function Collapse(s: seq<string>): (r: seq<string>)
  {
    if |s| <= 1 then s
    else if s[0] == s[1] then Collapse(s[1..])
    else [s[0]] + Collapse(s[1..])
  }

  lemma {:induction false} VisibleSnoc(s: seq<string>, x: string)
    ensures Visible(s + [x]) == Visible(s) + (if IsRestricted(x) then [] else [x])
  {
    if s == [] {
      assert s + [x] == [x];
    } else {
      assert (s + [x])[1..] == s[1..] + [x];
      VisibleSnoc(s[1..], x);
    }
  }

  lemma {:induction false} CollapseLast(s: seq<string>)
    requires s != []
    ensures Collapse(s) != [] && Collapse(s)[|Collapse(s)| - 1] == s[|s| - 1]
  {
    if |s| > 1 {
      CollapseLast(s[1..]);
    }
  }

  lemma {:induction false} CollapseSnoc(s: seq<string>, x: string)
    ensures Collapse(s + [x]) ==
              if s != [] && s[|s| - 1] == x then Collapse(s) else Collapse(s) + [x]
  {
    var t := s + [x];
    if |s| == 0 {
      assert t == [x];
    } else if |s| == 1 {
      assert t == [s[0], x] && t[1..] == [x];
    } else {
      var rest := s[1..];
      assert t[0] == s[0] && t[1] == s[1] && t[1..] == rest + [x];
      assert rest[|rest| - 1] == s[|s| - 1];
      CollapseSnoc(rest, x);
      if s[0] == s[1] {
        assert Collapse(t) == Collapse(rest + [x]);
        assert Collapse(s) == Collapse(rest);
      } else {
        assert Collapse(t) == [s[0]] + Collapse(rest + [x]);
        assert Collapse(s) == [s[0]] + Collapse(rest);
        assert ([s[0]] + Collapse(rest)) + [x] == [s[0]] + (Collapse(rest) + [x]);
      }
    }
  }

  /** One more visit to a tab whose list is the collapsed form of `seen`. */
  lemma UpdatedOnCollapsed(h: History, tabId: int, seen: seq<string>, x: string)
    requires Entries(h, tabId) == Collapse(seen)
    ensures Entries(Updated(h, tabId, x), tabId) ==
              Collapse(seen + (if IsRestricted(x) then [] else [x]))
  {
    if !IsRestricted(x) {
      CollapseSnoc(seen, x);
      if seen != [] {
        CollapseLast(seen);
      }
    } else {
      assert seen + [] == seen;
    }
  }

  /** A tab that starts with no list ends up with exactly its visible URLs, consecutive
      repeats collapsed: the history never holds a restricted URL or a reload twice. */
  lemma {:induction false} ReplayIsCollapsedVisits(h: History, tabId: int, urls: seq<string>)
    requires Entries(h, tabId) == []
    ensures Entries(Replay(h, tabId, urls), tabId) == Collapse(Visible(urls))
  {
    if urls != [] {
      var p, x := urls[..|urls| - 1], urls[|urls| - 1];
      assert urls == p + [x];
      ReplayIsCollapsedVisits(h, tabId, p);
      VisibleSnoc(p, x);
      UpdatedOnCollapsed(Replay(h, tabId, p), tabId, Visible(p), x);
    }
  }

  /** Replaying visits to one tab leaves every other tab's list as it was. */
  lemma {:induction false} ReplayKeepsOtherTabs(h: History, tabId: int, urls: seq<string>, other: int)
    requires other != tabId
    ensures Entries(Replay(h, tabId, urls), other) == Entries(h, other)
  {
    if urls != [] {
      ReplayKeepsOtherTabs(h, tabId, urls[..|urls| - 1], other);
    }
  }
}
