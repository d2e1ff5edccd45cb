/** The sidebar's main navigation: which entries are active for the current page, which
    groups open when a page is shown, the chevron toggle, and the side the labels align
    to under right-to-left layouts. Hrefs are relative paths. */
module NavMenu {
  import opened Wrappers
  import opened JsValues
  import opened Strings

  /** A menu entry: its title, an optional link, an optional sub-menu and the
      `defaultOpen` flag (any JavaScript value; only `true` counts). */
  datatype NavItem = NavItem(title: string, href: Option<string>, children: Submenu, defaultOpen: Value)

  /** `item.children`: absent, or an array of entries. An empty array is still truthy, so
      an entry with `Submenu([])` is drawn as a group. */
  datatype Submenu = NoSubmenu | Submenu(items: seq<NavItem>)

  // ---------------------------------------------------------------------------
  // Path matching.

  /** `currentPath === hrefPath || currentPath.startsWith(hrefPath + '/')`. */
  predicate PathMatches(hrefPath: string, currentPath: string) {
    currentPath == hrefPath || StartsWith(currentPath, hrefPath + "/")
  }

  /** A path matches exactly the paths that extend it by nothing or by whole segments. */
  lemma SegmentPrefix(hrefPath: string, rest: string)
    ensures PathMatches(hrefPath, hrefPath + rest) <==> rest == "" || rest[0] == '/'
  {
    var p := hrefPath + rest;
    if rest != "" && rest[0] == '/' {
      assert p[..|hrefPath| + 1] == hrefPath + "/";
    }
    if StartsWith(p, hrefPath + "/") {
      assert p[|hrefPath|] == (hrefPath + "/")[|hrefPath|];
    }
  }

  /** Only a path that begins with the href can match it. */
  lemma MatchExtends(hrefPath: string, currentPath: string)
    ensures PathMatches(hrefPath, currentPath) ==> StartsWith(currentPath, hrefPath)
  {
    if StartsWith(currentPath, hrefPath + "/") {
      assert currentPath[..|hrefPath|] == (hrefPath + "/")[..|hrefPath|];
    }
  }

  /** An illustration of `SegmentPrefix`: `/hr` is active on `/hr` and `/hr/x`, not on `/hrx`. */
  lemma SegmentExamples()
    ensures PathMatches("/hr", "/hr") && PathMatches("/hr", "/hr/x") && !PathMatches("/hr", "/hrx")
  {
    SegmentPrefix("/hr", "/x");
    SegmentPrefix("/hr", "x");
    assert "/hr" + "/x" == "/hr/x";
    assert "/hr" + "x" == "/hrx";
  }

  /** `isActive` as written: `page.url` is compared as if it were a path, but it carries
      the query string of the visit. */
  predicate IsActiveAsWritten(href: Option<string>, url: string) {
    href.Some? && href.value != "" && PathMatches(href.value, url)
  }

  /** The path of a page url: everything before its query string or fragment. */
  function PathPart(url: string): (p: string)
    ensures |p| <= |url| && p == url[..|p|]
    ensures forall i :: 0 <= i < |p| ==> p[i] != '?' && p[i] != '#'
    ensures |p| < |url| ==> url[|p|] == '?' || url[|p|] == '#'
    decreases |url|
  {
    if url == [] || url[0] == '?' || url[0] == '#' then [] else [url[0]] + PathPart(url[1..])
  }

  /** `isActive(href)`: a missing or empty href is never active; otherwise the page's path
      must equal the href or lie below it. */
  predicate IsActive(href: Option<string>, url: string) {
    href.Some? && href.value != "" && PathMatches(href.value, PathPart(url))
  }

  /** `isActive` in terms of the path alone: a non-empty href is active exactly when the
      page's path begins with it and ends there or continues with a `/`; as written, the
      same holds of the whole url. */
  lemma ActiveIffBelowHref(href: string, url: string)
    requires href != ""
    ensures IsActive(Some(href), url) <==>
      StartsWith(PathPart(url), href) && (|PathPart(url)| == |href| || PathPart(url)[|href|] == '/')
    ensures IsActiveAsWritten(Some(href), url) <==>
      StartsWith(url, href) && (|url| == |href| || url[|href|] == '/')
  {
    BelowHref(href, PathPart(url));
    BelowHref(href, url);
  }

  lemma BelowHref(href: string, path: string)
    ensures PathMatches(href, path) <==> StartsWith(path, href) && (|path| == |href| || path[|href|] == '/')
  {
    MatchExtends(href, path);
    if StartsWith(path, href) {
      var rest := path[|href|..];
      assert href + rest == path;
      SegmentPrefix(href, rest);
    }
  }

  lemma MissingHrefInactive(url: string)
    ensures !IsActive(None, url) && !IsActive(Some(""), url)
    ensures !IsActiveAsWritten(None, url) && !IsActiveAsWritten(Some(""), url)
  {
  }

  /** The path of a url is what comes before its first `?` or `#`. */
  lemma PathBeforeQuery(path: string, query: string)
    requires forall i :: 0 <= i < |path| ==> path[i] != '?' && path[i] != '#'
    requires query != [] && (query[0] == '?' || query[0] == '#')
    ensures PathPart(path + query) == path
  {
    assert (path + query)[..|path|] == path;
  }

  /** A filtered or paginated list page loses its menu highlight as written. */
  lemma QueryStringHidesActiveEntry()
    ensures !IsActiveAsWritten(Some("/users"), "/users?page=2")
    ensures IsActive(Some("/users"), "/users?page=2")
  {
    assert "/users" + "?page=2" == "/users?page=2";
    PathBeforeQuery("/users", "?page=2");
    SegmentPrefix("/users", "?page=2");
  }

  /** On a url without a query string or fragment the two readings agree. */
  lemma AgreesWithoutQuery(href: Option<string>, url: string)
    requires forall i :: 0 <= i < |url| ==> url[i] != '?' && url[i] != '#'
    ensures IsActive(href, url) <==> IsActiveAsWritten(href, url)
  {
    assert PathPart(url) == url;
  }

  // ---------------------------------------------------------------------------
  // Active descendants.

  /** `isChildActive(children)`: some entry of the sub-menu is active or has an active
      entry below it. */
  predicate IsChildActive(m: Submenu, url: string)
    decreases m
  {
    m.Submenu? && AnyActive(m.items, url)
  }

  /** `children.some(child => isActive(child.href) || isChildActive(child.children))`. */
  predicate AnyActive(cs: seq<NavItem>, url: string)
    decreases cs
  {
    cs != [] &&
    (AnyActive(cs[..|cs| - 1], url) || IsActive(cs[|cs| - 1].href, url) || IsChildActive(cs[|cs| - 1].children, url))
  }

  /** Every entry at any depth below `cs`, `cs` included. */
  function Descendants(cs: seq<NavItem>): set<NavItem>
    decreases cs
  {
    if cs == [] then {} else Descendants(cs[..|cs| - 1]) + {cs[|cs| - 1]} + Below(cs[|cs| - 1].children)
  }

  /** Every entry at any depth below a sub-menu. */
  function Below(m: Submenu): set<NavItem>
    decreases m
  {
    if m.NoSubmenu? then {} else Descendants(m.items)
  }

  /** `Descendants` reaches every depth: it holds each entry and everything under it. */
  lemma {:induction false} DescendantsHoldSubtrees(cs: seq<NavItem>)
    ensures forall i :: 0 <= i < |cs| ==> cs[i] in Descendants(cs) && Below(cs[i].children) <= Descendants(cs)
    decreases cs
  {
    if cs != [] {
      var init := cs[..|cs| - 1];
      DescendantsHoldSubtrees(init);
      forall i | 0 <= i < |cs| - 1
        ensures cs[i] in Descendants(cs) && Below(cs[i].children) <= Descendants(cs)
      {
        assert cs[i] == init[i];
      }
    }
  }

  /** A sub-menu is shown active exactly when some entry at some depth below it is. */
  lemma {:induction false} ChildActiveIffDescendant(m: Submenu, url: string)
    ensures IsChildActive(m, url) <==> exists d :: d in Below(m) && IsActive(d.href, url)
    decreases m
  {
    if m.Submenu? {
      AnyActiveIffDescendant(m.items, url);
    }
  }

  lemma {:induction false} AnyActiveIffDescendant(cs: seq<NavItem>, url: string)
    ensures AnyActive(cs, url) <==> exists d :: d in Descendants(cs) && IsActive(d.href, url)
    decreases cs
  {
    if cs != [] {
      var init, last := cs[..|cs| - 1], cs[|cs| - 1];
      AnyActiveIffDescendant(init, url);
      ChildActiveIffDescendant(last.children, url);
      assert Descendants(cs) == Descendants(init) + {last} + Below(last.children);
    }
  }

  // ---------------------------------------------------------------------------
  // Which groups open when a page is shown.

  /** The entry is active or has an active entry below it. */
  predicate Lit(item: NavItem, url: string) {
    IsActive(item.href, url) || IsChildActive(item.children, url)
  }

  /** A group that `processMenuItems` opens under its own title and descends into. */
  predicate Expands(item: NavItem, url: string) {
    item.children.Submenu? && (Lit(item, url) || item.defaultOpen == Bool(true))
  }

  /** The key of a nested group: its depth below the top level, a dash, its title. */
  function NestedKey(level: nat, title: string): (k: string)
    ensures |k| > |NatToString(level)| && k[..|NatToString(level)|] == NatToString(level)
    ensures k[|NatToString(level)|] == '-' && k[|NatToString(level)| + 1..] == title
  {
    NatToString(level) + "-" + title
  }

  /** A key that starts with a digit, as every nested key does. */
  predicate IsNestedKeyShape(k: string) {
    |k| > 0 && IsDigit(k[0])
  }

  /** The keys `processMenuItems(items, parent)` sets (always to `true`). */
  function ProcessKeys(items: seq<NavItem>, parent: Option<string>, url: string): set<string>
    decreases items
  {
    if items == [] then {}
    else ProcessKeys(items[..|items| - 1], parent, url) + ItemKeys(items[|items| - 1], parent, url)
  }

  /** The keys one entry sets: the parent's key when it is lit, its own title and those
      of its sub-menu when it expands, and the nested keys of its sub-menu. */
  function ItemKeys(item: NavItem, parent: Option<string>, url: string): set<string>
    decreases item
  {
    (if parent.Some? && parent.value != "" && Lit(item, url) then {parent.value} else {})
    + (if Expands(item, url) then {item.title} + ProcessKeys(item.children.items, Some(item.title), url) else {})
    + (if item.children.Submenu? then NestedKeys(item.children.items, 1, url) else {})
  }

  /** The keys `checkNestedChildren(children, level)` sets. */
  function NestedKeys(cs: seq<NavItem>, level: nat, url: string): set<string>
    decreases cs
  {
    if cs == [] then {}
    else NestedKeys(cs[..|cs| - 1], level, url) + ChildKeys(cs[|cs| - 1], level, url)
  }

  /** A lit group opens under its nested key and its own sub-menu is checked one level
      deeper. */
  function ChildKeys(c: NavItem, level: nat, url: string): set<string>
    decreases c
  {
    if c.children.Submenu? && Lit(c, url) then {NestedKey(level, c.title)} + NestedKeys(c.children.items, level + 1, url)
    else {}
  }

  /** `m` with every key of `ks` set to `true`. */
  function Marked(m: map<string, bool>, ks: set<string>): (r: map<string, bool>)
    ensures r.Keys == m.Keys + ks
    ensures forall k :: k in ks ==> r[k]
    ensures forall k :: k in m && k !in ks ==> r[k] == m[k]
  {
    map k | k in m.Keys + ks :: if k in ks then true else m[k]
  }

  lemma MarkedUnion(m: map<string, bool>, a: set<string>, b: set<string>)
    ensures Marked(Marked(m, a), b) == Marked(m, a + b)
  {
  }

  lemma MarkOne(m: map<string, bool>, k: string)
    ensures m[k := true] == Marked(m, {k})
  {
  }

  lemma MarkNone(m: map<string, bool>)
    ensures Marked(m, {}) == m
  {
  }

  /** The expansion state of a page: every key the effect sets, each `true`. */
  function Expansion(items: seq<NavItem>, url: string): map<string, bool> {
    Marked(map[], ProcessKeys(items, None, url))
  }

  /** `!!expandedItems[key]`: a missing key counts as closed. */
  predicate IsOpen(m: map<string, bool>, key: string) {
    key in m && m[key]
  }

  /** `processMenuItems(items, parent)` on the shared map `m`. */
  method ProcessMenuItems(items: seq<NavItem>, parent: Option<string>, url: string, m: map<string, bool>)
    returns (r: map<string, bool>)
    ensures r == Marked(m, ProcessKeys(items, parent, url))
    decreases items
  {
    r := m;
    MarkNone(m);
    var i := 0;
    while i < |items|
      invariant 0 <= i <= |items|
      invariant r == Marked(m, ProcessKeys(items[..i], parent, url))
    {
      r := ProcessItem(items[i], parent, url, r);
      MarkedUnion(m, ProcessKeys(items[..i], parent, url), ItemKeys(items[i], parent, url));
      assert items[..i + 1][..i] == items[..i];
      i := i + 1;
    }
    assert items[..|items|] == items;
  }

  /** The body of `processMenuItems`'s loop, for one entry. */
  method ProcessItem(item: NavItem, parent: Option<string>, url: string, m: map<string, bool>)
    returns (r: map<string, bool>)
    ensures r == Marked(m, ItemKeys(item, parent, url))
    decreases item
  {
    var isItemActive := IsActive(item.href, url);
    var hasActiveChild := IsChildActive(item.children, url);
    r := m;
    ghost var a: set<string> := {};
    ghost var b: set<string> := {};
    ghost var c: set<string> := {};
    if parent.Some? && parent.value != "" && (isItemActive || hasActiveChild) {
      MarkOne(r, parent.value);
      r := r[parent.value := true];
      a := {parent.value};
    } else {
      MarkNone(r);
    }
    ghost var afterA := r;
    if item.children.Submenu? && (isItemActive || hasActiveChild || item.defaultOpen == Bool(true)) {
      MarkOne(r, item.title);
      r := r[item.title := true];
      r := ProcessMenuItems(item.children.items, Some(item.title), url, r);
      b := {item.title} + ProcessKeys(item.children.items, Some(item.title), url);
      MarkedUnion(afterA, {item.title}, ProcessKeys(item.children.items, Some(item.title), url));
    } else {
      MarkNone(r);
    }
    ghost var afterB := r;
    if item.children.Submenu? {
      r := CheckNestedChildren(item.children.items, 1, url, r);
      c := NestedKeys(item.children.items, 1, url);
    } else {
      MarkNone(r);
    }
    MarkedUnion(m, a, b);
    MarkedUnion(m, a + b, c);
  }

  /** `checkNestedChildren(children, level)` on the shared map `m`. */
  method CheckNestedChildren(cs: seq<NavItem>, level: nat, url: string, m: map<string, bool>)
    returns (r: map<string, bool>)
    ensures r == Marked(m, NestedKeys(cs, level, url))
    decreases cs
  {
    r := m;
    MarkNone(m);
    var i := 0;
    while i < |cs|
      invariant 0 <= i <= |cs|
      invariant r == Marked(m, NestedKeys(cs[..i], level, url))
    {
      var child := cs[i];
      var childKey := NatToString(level) + "-" + child.title;
      var isChildItemActive := IsActive(child.href, url);
      var hasActiveChild := IsChildActive(child.children, url);
      ghost var before := r;
      if child.children.Submenu? && (isChildItemActive || hasActiveChild) {
        MarkOne(r, childKey);
        r := r[childKey := true];
        ghost var mid := r;
        r := CheckNestedChildren(child.children.items, level + 1, url, r);
        MarkedUnion(before, {childKey}, NestedKeys(child.children.items, level + 1, url));
      } else {
        MarkNone(r);
      }
      assert r == Marked(before, ChildKeys(child, level, url));
      MarkedUnion(m, NestedKeys(cs[..i], level, url), ChildKeys(child, level, url));
      assert cs[..i + 1][..i] == cs[..i];
      i := i + 1;
    }
    assert cs[..|cs|] == cs;
  }

  // ---------------------------------------------------------------------------
  // Properties of the expansion.

  /** Every key one entry sets is among the keys of the whole list. */
  lemma {:induction false} ItemKeysIncluded(items: seq<NavItem>, parent: Option<string>, url: string, i: nat)
    requires i < |items|
    ensures ItemKeys(items[i], parent, url) <= ProcessKeys(items, parent, url)
    decreases |items|
  {
    var init := items[..|items| - 1];
    if i < |items| - 1 {
      ItemKeysIncluded(init, parent, url, i);
      assert init[i] == items[i];
    }
  }

  lemma {:induction false} ChildKeysIncluded(cs: seq<NavItem>, level: nat, url: string, j: nat)
    requires j < |cs|
    ensures ChildKeys(cs[j], level, url) <= NestedKeys(cs, level, url)
    decreases |cs|
  {
    var init := cs[..|cs| - 1];
    if j < |cs| - 1 {
      ChildKeysIncluded(init, level, url, j);
      assert init[j] == cs[j];
    }
  }

  /** Nested keys always begin with the digits of their level. */
  lemma {:induction false} NestedKeysShape(cs: seq<NavItem>, level: nat, url: string)
    ensures forall k :: k in NestedKeys(cs, level, url) ==> IsNestedKeyShape(k)
    decreases cs
  {
    if cs != [] {
      var init, last := cs[..|cs| - 1], cs[|cs| - 1];
      NestedKeysShape(init, level, url);
      if last.children.Submenu? && Lit(last, url) {
        NestedKeysShape(last.children.items, level + 1, url);
        var k := NestedKey(level, last.title);
        assert k[0] == NatToString(level)[0];
      }
    }
  }

  /** The titles of the groups at any depth that open under their own title. */
  function ExpandedTitles(cs: seq<NavItem>, url: string): set<string> {
    set d | d in Descendants(cs) && Expands(d, url) :: d.title
  }

  /** Every key `processMenuItems(items, parent)` sets is the parent's key, the title of a
      group below that expands, or a nested key. */
  lemma {:induction false} KeysOrigin(items: seq<NavItem>, parent: Option<string>, url: string)
    ensures forall k :: k in ProcessKeys(items, parent, url) ==>
      (parent.Some? && k == parent.value) || k in ExpandedTitles(items, url) || IsNestedKeyShape(k)
    decreases items
  {
    if items != [] {
      var init, last := items[..|items| - 1], items[|items| - 1];
      KeysOrigin(init, parent, url);
      assert Descendants(items) == Descendants(init) + {last} + Below(last.children);
      assert ExpandedTitles(init, url) <= ExpandedTitles(items, url);
      if last.children.Submenu? {
        NestedKeysShape(last.children.items, 1, url);
        if Expands(last, url) {
          KeysOrigin(last.children.items, Some(last.title), url);
          assert last.title in ExpandedTitles(items, url);
          assert ExpandedTitles(last.children.items, url) <= ExpandedTitles(items, url);
        }
      }
    }
  }

  /** A top-level group is open when the page is shown if it is active, has an active
      entry at some depth below it, or is marked `defaultOpen: true`; and, when no other
      entry shares its title and the title does not begin with a digit, only then. */
  lemma TopLevelExpansion(items: seq<NavItem>, url: string, i: nat)
    requires i < |items| && items[i].children.Submenu?
    ensures Lit(items[i], url) || items[i].defaultOpen == Bool(true) ==> IsOpen(Expansion(items, url), items[i].title)
    ensures (forall d :: d in Descendants(items) && d.title == items[i].title ==> d == items[i]) &&
            (items[i].title == "" || !IsDigit(items[i].title[0])) &&
            IsOpen(Expansion(items, url), items[i].title)
            ==> IsActive(items[i].href, url) || IsChildActive(items[i].children, url) || items[i].defaultOpen == Bool(true)
  {
    ItemKeysIncluded(items, None, url, i);
    KeysOrigin(items, None, url);
    DescendantsHoldSubtrees(items);
  }

  /** The sub-menu of a top-level entry has its lit groups opened under `1-<title>`, and
      below a lit nested group the next level's keys start from the next number. */
  lemma NestedLevels(items: seq<NavItem>, url: string, i: nat, j: nat)
    requires i < |items| && items[i].children.Submenu? && j < |items[i].children.items|
    ensures var c := items[i].children.items[j];
      c.children.Submenu? && Lit(c, url) ==>
        IsOpen(Expansion(items, url), NestedKey(1, c.title)) &&
        NestedKeys(c.children.items, 2, url) <= ProcessKeys(items, None, url)
  {
    ItemKeysIncluded(items, None, url, i);
    ChildKeysIncluded(items[i].children.items, 1, url, j);
  }

  // ---------------------------------------------------------------------------
  // The chevron toggle.

  /** `{ ...expandedItems, [title]: !expandedItems[title] }`. */
  function Toggled(m: map<string, bool>, key: string): (r: map<string, bool>)
    ensures key in r && r[key] == !IsOpen(m, key)
    ensures forall k :: k != key ==> (k in r <==> k in m) && (k in m ==> r[k] == m[k])
  {
    m[key := !IsOpen(m, key)]
  }

  /** Toggling a group twice leaves every group open or closed as before. */
  lemma ToggleTwiceRestores(m: map<string, bool>, key: string)
    ensures forall k :: IsOpen(Toggled(Toggled(m, key), key), k) <==> IsOpen(m, k)
  {
  }

  // ---------------------------------------------------------------------------
  // Label alignment.

  datatype Side = Left | Right {
    function Opposite(): Side {
      if this == Left then Right else Left
    }
  }

  /** Under a right-to-left document the configured side is mirrored. */
  function EffectivePosition(position: Side, isRtl: bool): (r: Side)
    ensures r == position <==> !isRtl
    ensures r != position ==> r == position.Opposite()
  {
    if isRtl then position.Opposite() else position
  }

  /** Mirroring twice gives back the configured side. */
  lemma MirrorTwice(position: Side)
    ensures EffectivePosition(EffectivePosition(position, true), true) == position
    ensures EffectivePosition(EffectivePosition(position, false), false) == position
  {
  }

  // ---------------------------------------------------------------------------
  // The component's state.

  class NavMain {
    const items: seq<NavItem>
    const position: Side
    const isRtl: bool
    var url: string
    var expanded: map<string, bool>

    /** Mounting: the state starts empty and the effect computes the expansion. */
    constructor (items: seq<NavItem>, position: Side, isRtl: bool, url: string)
      ensures this.items == items && this.position == position && this.isRtl == isRtl
      ensures this.url == url && expanded == Expansion(items, url)
    {
      this.items := items;
      this.position := position;
      this.isRtl := isRtl;
      this.url := url;
      var computed := ProcessMenuItems(items, None, url, map[]);
      expanded := computed;
    }

    /** A new page: the expansion is recomputed from an empty map, so groups opened by
        hand on the previous page close again unless the new page opens them. */
    method Navigate(newUrl: string)
      modifies this
      ensures url == newUrl && expanded == Expansion(items, newUrl)
    {
      url := newUrl;
      var computed := ProcessMenuItems(items, None, url, map[]);
      expanded := computed;
    }

    /** The chevron of the group with key `key`. */
    method ToggleExpand(key: string)
      modifies this
      ensures expanded == Toggled(old(expanded), key) && url == old(url)
    {
      expanded := expanded[key := !(key in expanded && expanded[key])];
    }

  }
}
