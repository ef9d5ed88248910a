/**
 * The admin shell: the side menu's selection and expansion, the breadcrumb
 * derived from a click, their copies in `localStorage`, the identity read
 * from cookies, and the logout and logo-click resets.
 *
 * Storage values are held already parsed (a `selectedKeys` entry is the
 * list `JSON.stringify` wrote); labels are opaque values standing for the
 * React nodes of the menu.
 */
module AdminLayout {
  import opened Js
  import AuthSlice
  import Middleware

  /** A menu label: plain text or a link to a route. */
  datatype Label = Text(text: string) | Link(href: string, text: string)

  datatype MenuChild = MenuChild(key: string, caption: Label)

  /** A top-level menu node; `children` is absent or an array (an empty array is still truthy). */
  datatype MenuItem = MenuItem(key: string, caption: Label, children: Option<seq<MenuChild>>)

  /** A breadcrumb entry `{ title }`; `None` is `undefined`. */
  datatype Crumb = Crumb(title: Option<Label>)

  /** `items2`, the static two-level menu. */
  const Items2: seq<MenuItem> := [
    MenuItem("sub1", Text("活動管理"), Some([MenuChild("1", Link("/events", "活動總覽")),
                                          MenuChild("2", Link("/tags", "標籤管理"))])),
    MenuItem("sub2", Text("會員管理"), Some([MenuChild("3", Text("會員列表"))])),
    MenuItem("sub3", Text("訂單管理"), Some([MenuChild("4", Text("訂單列表"))]))
  ]

  const HomeCrumb := Crumb(Some(Text("首頁")))
  const EmptyCrumb := Crumb(Some(Text("")))

  const SelectedKeysItem := "selectedKeys"
  const OpenKeysItem := "openKeys"
  const UsernameCookie := "username"

  // ----- The breadcrumb lookup over a menu tree -----

  predicate HasChildKey(children: seq<MenuChild>, key: string) {
    exists c :: c in children && c.key == key
  }

  /** `item?.key === key || item.children?.some(child => child.key === key)`. */
  predicate ItemMatches(item: MenuItem, key: string) {
    item.key == key || (item.children.Some? && HasChildKey(item.children.value, key))
  }

  /** `items.find(...)`: the first top-level node that matches. */
  function FindItem(items: seq<MenuItem>, key: string): (r: Option<MenuItem>)
    ensures r.Some? ==> r.value in items && ItemMatches(r.value, key)
    ensures r.None? <==> forall item :: item in items ==> !ItemMatches(item, key)
  {
    if items == [] then None
    else if ItemMatches(items[0], key) then Some(items[0])
    else FindItem(items[1..], key)
  }

  /** `children.find(child => child.key === key)`. */
  function FindChild(children: seq<MenuChild>, key: string): (r: Option<MenuChild>)
    ensures r.Some? ==> r.value in children && r.value.key == key
    ensures r.None? <==> !HasChildKey(children, key)
  {
    if children == [] then None
    else if children[0].key == key then Some(children[0])
    else FindChild(children[1..], key)
  }

  /** `find` returns the FIRST matching node: the one at `i` when every node before it fails. */
  lemma {:induction false} FindItemIsFirstMatch(items: seq<MenuItem>, key: string, i: nat)
    requires i < |items| && ItemMatches(items[i], key)
    requires forall j :: 0 <= j < i ==> !ItemMatches(items[j], key)
    ensures FindItem(items, key) == Some(items[i])
  {
    if i > 0 {
      assert !ItemMatches(items[0], key);
      FindItemIsFirstMatch(items[1..], key, i - 1);
    }
  }

  /** The same for `children.find`: the child at `i` when no earlier child has the key. */
  lemma {:induction false} FindChildIsFirstMatch(children: seq<MenuChild>, key: string, i: nat)
    requires i < |children| && children[i].key == key
    requires forall j :: 0 <= j < i ==> children[j].key != key
    ensures FindChild(children, key) == Some(children[i])
  {
    if i > 0 {
      assert children[0].key != key;
      FindChildIsFirstMatch(children[1..], key, i - 1);
    }
  }

  /**
   * The entry the click handler makes for one key: a node with children yields
   * the child with that key's label (`undefined` when no child has it), a
   * childless node its own label, and a key found nowhere `''`.
   */
  function CrumbFor(items: seq<MenuItem>, key: string): (r: Crumb)
    ensures (forall item :: item in items ==> !ItemMatches(item, key)) ==> r == EmptyCrumb
    ensures r.title.None? ==>
      exists item :: item in items && item.children.Some? && item.key == key && !HasChildKey(item.children.value, key)
  {
    match FindItem(items, key)
    case None => EmptyCrumb
    case Some(item) =>
      if item.children.Some? then
        match FindChild(item.children.value, key)
        case Some(child) => Crumb(Some(child.caption))
        case None => Crumb(None)
      else Crumb(Some(item.caption))
  }

  /** `keys.map(key => CrumbFor(key))`. */
  function Crumbs(items: seq<MenuItem>, keys: seq<string>): (r: seq<Crumb>)
    ensures |r| == |keys|
    ensures forall i :: 0 <= i < |keys| ==> r[i] == CrumbFor(items, keys[i])
  {
    if keys == [] then [] else [CrumbFor(items, keys[0])] + Crumbs(items, keys[1..])
  }

  /** The keys of one node: its own, then its children's. */
  function ItemKeys(item: MenuItem): seq<string> {
    [item.key] + (if item.children.Some? then ChildKeys(item.children.value) else [])
  }

  function ChildKeys(children: seq<MenuChild>): (r: seq<string>)
    ensures |r| == |children|
    ensures forall i :: 0 <= i < |children| ==> r[i] == children[i].key
  {
    if children == [] then [] else [children[0].key] + ChildKeys(children[1..])
  }

  /** Every key of the tree, node by node. */
  function AllKeys(items: seq<MenuItem>): seq<string> {
    if items == [] then [] else ItemKeys(items[0]) + AllKeys(items[1..])
  }

  predicate Distinct(s: seq<string>) {
    forall i, j :: 0 <= i < j < |s| ==> s[i] != s[j]
  }

  /** No key occurs twice anywhere in the tree. */
  predicate UniqueKeys(items: seq<MenuItem>) {
    items == [] ||
    (&& Distinct(ItemKeys(items[0]))
     && (forall k :: k in ItemKeys(items[0]) ==> k !in AllKeys(items[1..]))
     && UniqueKeys(items[1..]))
  }

  lemma {:induction false} InAllKeys(items: seq<MenuItem>, j: nat, k: string)
    requires j < |items| && k in ItemKeys(items[j])
    ensures k in AllKeys(items)
  {
    if j > 0 {
      InAllKeys(items[1..], j - 1, k);
    }
  }

  lemma {:induction false} ChildKeyListed(children: seq<MenuChild>, c: MenuChild)
    requires c in children
    ensures c.key in ChildKeys(children)
  {
    if children[0] != c {
      ChildKeyListed(children[1..], c);
    }
  }

  lemma ChildKeyInItemKeys(item: MenuItem, c: MenuChild)
    requires item.children.Some? && c in item.children.value
    ensures c.key in ItemKeys(item)
  {
    ChildKeyListed(item.children.value, c);
  }

  /** A node matches only keys of its own. */
  lemma NoMatchOutsideItemKeys(item: MenuItem, k: string)
    requires k !in ItemKeys(item)
    ensures !ItemMatches(item, k)
  {
    if item.children.Some? {
      forall c | c in item.children.value
        ensures c.key != k
      {
        ChildKeyInItemKeys(item, c);
      }
    }
  }

  lemma {:induction false} NotInAllKeysNoMatch(items: seq<MenuItem>, k: string)
    requires k !in AllKeys(items)
    ensures FindItem(items, k).None?
  {
    if items != [] {
      NoMatchOutsideItemKeys(items[0], k);
      NotInAllKeysNoMatch(items[1..], k);
    }
  }

  /** With distinct child keys, looking a child's key up finds that very child. */
  lemma {:induction false} FindDistinctChild(children: seq<MenuChild>, c: MenuChild)
    requires Distinct(ChildKeys(children)) && c in children
    ensures FindChild(children, c.key) == Some(c)
  {
    if children[0] != c {
      assert c in children[1..];
      var ix :| 0 <= ix < |children| && children[ix] == c;
      assert ix > 0;
      assert ChildKeys(children)[0] != ChildKeys(children)[ix];
      assert Distinct(ChildKeys(children[1..])) by {
        forall i, j | 0 <= i < j < |children| - 1
          ensures ChildKeys(children[1..])[i] != ChildKeys(children[1..])[j]
        {
          assert ChildKeys(children)[i + 1] != ChildKeys(children)[j + 1];
        }
      }
      FindDistinctChild(children[1..], c);
    }
  }

  /** A key owned by a later node is not matched by the first one. */
  lemma LaterKeySkipsFirst(items: seq<MenuItem>, j: nat, k: string)
    requires UniqueKeys(items) && 0 < j < |items| && k in ItemKeys(items[j])
    ensures FindItem(items, k) == FindItem(items[1..], k)
    ensures CrumbFor(items, k) == CrumbFor(items[1..], k)
  {
    InAllKeys(items[1..], j - 1, k);
    NoMatchOutsideItemKeys(items[0], k);
  }

  /** The children of a node with distinct keys have distinct keys. */
  lemma ChildKeysDistinct(item: MenuItem)
    requires item.children.Some? && Distinct(ItemKeys(item))
    ensures Distinct(ChildKeys(item.children.value))
  {
    var ks := ItemKeys(item);
    forall a, b | 0 <= a < b < |item.children.value|
      ensures ChildKeys(item.children.value)[a] != ChildKeys(item.children.value)[b]
    {
      assert ks[a + 1] != ks[b + 1];
    }
  }

  /** The first node's child keys yield that child's label. */
  lemma {:induction false} FirstNodeChildYieldsLabel(items: seq<MenuItem>, c: MenuChild)
    requires UniqueKeys(items)
    requires |items| > 0 && items[0].children.Some? && c in items[0].children.value
    ensures CrumbFor(items, c.key) == Crumb(Some(c.caption))
  {
    ChildKeysDistinct(items[0]);
    FindDistinctChild(items[0].children.value, c);
    assert ItemMatches(items[0], c.key);
    assert FindItem(items, c.key) == Some(items[0]);
  }

  /** A key that is a child of a top-level node yields that child's label. */
  lemma {:induction false} ChildKeyYieldsLabel(items: seq<MenuItem>, j: nat, c: MenuChild)
    requires UniqueKeys(items)
    requires j < |items| && items[j].children.Some? && c in items[j].children.value
    ensures CrumbFor(items, c.key) == Crumb(Some(c.caption))
  {
    if j == 0 {
      FirstNodeChildYieldsLabel(items, c);
    } else {
      ChildKeyInItemKeys(items[j], c);
      LaterKeySkipsFirst(items, j, c.key);
      assert items[1..][j - 1] == items[j];
      ChildKeyYieldsLabel(items[1..], j - 1, c);
    }
  }

  /** The first node's own key, when it has children, yields an undefined title. */
  lemma {:induction false} FirstNodeKeyYieldsUndefined(items: seq<MenuItem>)
    requires UniqueKeys(items)
    requires |items| > 0 && items[0].children.Some?
    ensures CrumbFor(items, items[0].key) == Crumb(None)
  {
    var k := items[0].key;
    var ks := ItemKeys(items[0]);
    forall c | c in items[0].children.value
      ensures c.key != k
    {
      var ix :| 0 <= ix < |items[0].children.value| && items[0].children.value[ix] == c;
      assert ChildKeys(items[0].children.value)[ix] == c.key;
      assert ks[ix + 1] == c.key && ks[0] == k;
    }
    assert !HasChildKey(items[0].children.value, k);
    assert FindItem(items, k) == Some(items[0]);
  }

  /**
   * A key that is itself a top-level node with children yields an undefined
   * title: the node is found, but none of its children carries its key.
   */
  lemma {:induction false} ParentKeyYieldsUndefined(items: seq<MenuItem>, j: nat)
    requires UniqueKeys(items)
    requires j < |items| && items[j].children.Some?
    ensures CrumbFor(items, items[j].key) == Crumb(None)
  {
    if j == 0 {
      FirstNodeKeyYieldsUndefined(items);
    } else {
      assert ItemKeys(items[j])[0] == items[j].key;
      LaterKeySkipsFirst(items, j, items[j].key);
      assert items[1..][j - 1] == items[j];
      ParentKeyYieldsUndefined(items[1..], j - 1);
    }
  }

  /** A key found nowhere in the tree yields `{ title: '' }`. */
  lemma UnknownKeyYieldsEmpty(items: seq<MenuItem>, k: string)
    requires k !in AllKeys(items)
    ensures CrumbFor(items, k) == EmptyCrumb
  {
    NotInAllKeysNoMatch(items, k);
  }

  /** The static menu has no repeated key. */
  lemma StaticMenuUnique()
    ensures UniqueKeys(Items2)
  {
    assert ItemKeys(Items2[0]) == ["sub1", "1", "2"];
    assert ItemKeys(Items2[1]) == ["sub2", "3"];
    assert ItemKeys(Items2[2]) == ["sub3", "4"];
    assert Items2[3..] == [];
    assert AllKeys(Items2[2..]) == ["sub3", "4"];
    assert AllKeys(Items2[1..]) == ["sub2", "3", "sub3", "4"];
  }

  // ----- Reversing `keyPath` in place -----

  function Reversed(s: seq<string>): (r: seq<string>)
    ensures |r| == |s|
  {
    if s == [] then [] else [s[|s| - 1]] + Reversed(s[..|s| - 1])
  }

  lemma {:induction false} ReversedAt(s: seq<string>, i: nat)
    requires i < |s|
    ensures Reversed(s)[i] == s[|s| - 1 - i]
  {
    if i > 0 {
      ReversedAt(s[..|s| - 1], i - 1);
    }
  }

  /** `keyPath.reverse()`: swaps from both ends towards the middle. */
  method ReverseInPlace(a: array<string>)
    modifies a
    ensures a[..] == Reversed(old(a[..]))
  {
    var lo, hi := 0, a.Length - 1;
    while lo < hi
      invariant 0 <= lo <= a.Length && hi == a.Length - 1 - lo
      invariant forall k :: 0 <= k < lo ==> a[k] == old(a[a.Length - 1 - k]) && a[a.Length - 1 - k] == old(a[k])
      invariant forall k :: lo <= k <= hi ==> a[k] == old(a[k])
    {
      a[lo], a[hi] := a[hi], a[lo];
      lo, hi := lo + 1, hi - 1;
    }
    forall k | 0 <= k < a.Length
      ensures a[k] == Reversed(old(a[..]))[k]
    {
      ReversedAt(old(a[..]), k);
    }
  }

  /** The breadcrumb of a click has one entry per `keyPath` element, root first. */
  lemma ClickBreadcrumbShape(items: seq<MenuItem>, keyPath: seq<string>)
    ensures var r := Crumbs(items, Reversed(keyPath));
      && |r| == |keyPath|
      && forall i :: 0 <= i < |keyPath| ==> r[i] == CrumbFor(items, keyPath[|keyPath| - 1 - i])
  {
    forall i | 0 <= i < |keyPath|
      ensures Crumbs(items, Reversed(keyPath))[i] == CrumbFor(items, keyPath[|keyPath| - 1 - i])
    {
      ReversedAt(keyPath, i);
    }
  }

  /** Clicking "活動總覽" (`keyPath = ['1', 'sub1']`) gives an undefined title, then the child's link. */
  lemma EventsClickBreadcrumb()
    ensures Crumbs(Items2, Reversed(["1", "sub1"])) == [Crumb(None), Crumb(Some(Link("/events", "活動總覽")))]
  {
    StaticMenuUnique();
    assert Reversed(["1", "sub1"]) == ["sub1", "1"] by {
      assert ["1", "sub1"][..1] == ["1"];
    }
    ParentKeyYieldsUndefined(Items2, 0);
    assert MenuChild("1", Link("/events", "活動總覽")) in Items2[0].children.value;
    ChildKeyYieldsLabel(Items2, 0, MenuChild("1", Link("/events", "活動總覽")));
  }

  // ----- The shell's state -----

  /** The user dropdown: a logout entry (key `'1'`) or a link to `/login` (key `'0'`). */
  datatype UserMenuItem = LogoutEntry | LoginLink(href: string)

  class Shell {
    var username: Option<string>
    var selectedKeys: seq<string>
    var openKeys: seq<string>
    var breadcrumbItems: seq<Crumb>
    /** `localStorage`, values already parsed. */
    var storage: map<string, seq<string>>
    /** `js-cookie`'s view of the cookies. */
    var cookies: map<string, string>

    /** The first render: every piece of state at its `useState` initial value. */
    constructor (storage0: map<string, seq<string>>, cookies0: map<string, string>)
      ensures username == None && selectedKeys == [] && openKeys == [] && breadcrumbItems == []
      ensures storage == storage0 && cookies == cookies0
    {
      username, selectedKeys, openKeys, breadcrumbItems := None, [], [], [];
      storage, cookies := storage0, cookies0;
    }

    /** `Cookies.get(name)` read as a string-or-undefined. */
    function Cookie(name: string): (r: Option<string>)
      reads this
      ensures r.Some? <==> name in cookies
      ensures r.Some? ==> r.value == cookies[name]
    {
      if name in cookies then Some(cookies[name]) else None
    }

    /**
     * The mount effect: the identity from the cookies, the selection and the
     * open submenus from storage when stored; the breadcrumb is not restored.
     */
    method Mount()
      modifies this`username, this`selectedKeys, this`openKeys
      ensures username == (if Truthy(Cookie(Middleware.TokenCookie))
                           then Some(if UsernameCookie in cookies then cookies[UsernameCookie] else "")
                           else None)
      ensures selectedKeys == (if SelectedKeysItem in storage then storage[SelectedKeysItem] else old(selectedKeys))
      ensures openKeys == (if OpenKeysItem in storage then storage[OpenKeysItem] else old(openKeys))
      ensures breadcrumbItems == old(breadcrumbItems)
      ensures storage == old(storage) && cookies == old(cookies)
    {
      var token := Cookie(Middleware.TokenCookie);
      var name := Cookie(UsernameCookie);
      if Truthy(token) {
        username := Or(name, Some(""));
      } else {
        username := None;
      }
      if SelectedKeysItem in storage {
        selectedKeys := storage[SelectedKeysItem];
      }
      if OpenKeysItem in storage {
        openKeys := storage[OpenKeysItem];
      }
    }

    /**
     * A menu click: select exactly `key`, store `[key]`, reverse the widget's
     * `keyPath` array in place and derive the breadcrumb from it.
     */
    method MenuClick(key: string, keyPath: array<string>)
      modifies this`selectedKeys, this`storage, this`breadcrumbItems, keyPath
      ensures selectedKeys == [key]
      ensures storage == old(storage)[SelectedKeysItem := [key]]
      ensures keyPath[..] == Reversed(old(keyPath[..]))
      ensures breadcrumbItems == Crumbs(Items2, Reversed(old(keyPath[..])))
      ensures openKeys == old(openKeys) && username == old(username) && cookies == old(cookies)
    {
      selectedKeys := [key];
      storage := storage[SelectedKeysItem := [key]];
      ReverseInPlace(keyPath);
      breadcrumbItems := Crumbs(Items2, keyPath[..]);
    }

    /** The submenu widget reports the new open set: replace it and store it. */
    method OpenChange(keys: seq<string>)
      modifies this`openKeys, this`storage
      ensures openKeys == keys
      ensures storage == old(storage)[OpenKeysItem := keys]
      ensures selectedKeys == old(selectedKeys) && breadcrumbItems == old(breadcrumbItems)
      ensures username == old(username) && cookies == old(cookies)
    {
      openKeys := keys;
      storage := storage[OpenKeysItem := keys];
    }

    /**
     * Logout: clear the navigation state, both storage entries and both
     * cookies; then dispatch the auth slice's `resetStore()` and go to `/login`.
     */
    method Logout() returns (dispatched: AuthSlice.Action, route: string)
      modifies this`selectedKeys, this`openKeys, this`breadcrumbItems, this`storage, this`cookies
      ensures selectedKeys == [] && openKeys == [] && breadcrumbItems == []
      ensures storage == old(storage) - {SelectedKeysItem, OpenKeysItem}
      ensures cookies == old(cookies) - {Middleware.TokenCookie, UsernameCookie}
      ensures username == old(username)
      ensures dispatched == AuthSlice.ResetStoreAction() && route == "/login"
    {
      selectedKeys, openKeys, breadcrumbItems := [], [], [];
      storage := storage - {SelectedKeysItem};
      storage := storage - {OpenKeysItem};
      cookies := cookies - {Middleware.TokenCookie};
      cookies := cookies - {UsernameCookie};
      dispatched := AuthSlice.ResetStoreAction();
      route := "/login";
    }

    /** Logo click: the same navigation reset as logout, but the cookies stay; go to `/home`. */
    method LogoClick() returns (route: string)
      modifies this`selectedKeys, this`openKeys, this`breadcrumbItems, this`storage
      ensures selectedKeys == [] && openKeys == [] && breadcrumbItems == []
      ensures storage == old(storage) - {SelectedKeysItem, OpenKeysItem}
      ensures cookies == old(cookies) && username == old(username)
      ensures route == "/home"
    {
      selectedKeys, openKeys, breadcrumbItems := [], [], [];
      storage := storage - {SelectedKeysItem};
      storage := storage - {OpenKeysItem};
      route := "/home";
    }

    /** The rendered breadcrumb: `首頁`, then the stored entries in order. */
    function RenderedBreadcrumb(): (r: seq<Crumb>)
      reads this
      ensures |r| == |breadcrumbItems| + 1
      ensures r[0] == HomeCrumb && r[1..] == breadcrumbItems
    {
      [HomeCrumb] + breadcrumbItems
    }

    /** `username ? [logout] : [login link]`: an empty name is falsy too. */
    function UserMenuItems(): (r: seq<UserMenuItem>)
      reads this
      ensures |r| == 1
      ensures r[0] == LogoutEntry <==> Truthy(username)
      ensures r[0] != LogoutEntry ==> r[0] == LoginLink("/login")
    {
      if Truthy(username) then [LogoutEntry] else [LoginLink("/login")]
    }
  }

  /**
   * A token cookie without a username cookie shows the login link on mount,
   * although the shell has a token: `username` becomes `''`, which is falsy.
   */
  method TokenWithoutNameShowsLogin(t: string) returns (items: seq<UserMenuItem>)
    requires t != ""
    ensures items == [LoginLink("/login")]
  {
    var shell := new Shell(map[], map[Middleware.TokenCookie := t]);
    shell.Mount();
    assert shell.username == Some("");
    items := shell.UserMenuItems();
  }

  /**
   * After logout, the next request the middleware runs on (any path its
   * matcher selects) is redirected to `/home`; an asset path is not gated.
   */
  method LogoutThenNavigate(shell: Shell, origin: string, path: string) returns (response: Option<Middleware.Response>)
    modifies shell`selectedKeys, shell`openKeys, shell`breadcrumbItems, shell`storage, shell`cookies
    ensures response.Some? <==> Middleware.Matches(path)
    ensures response.Some? ==> response.value == Middleware.Redirect(origin + Middleware.LandingPath)
  {
    var _, _ := shell.Logout();
    if Middleware.Matches(path) {
      response := Some(Middleware.Gate(Middleware.Request(origin, path, shell.cookies)));
    } else {
      response := None;
    }
  }

  /** Reload after a click restores selection and expansion but not the breadcrumb. */
  method ReloadRestoresSelectionOnly(openKeys: seq<string>, key: string, keyPath: array<string>)
      returns (restored: Shell)
    modifies keyPath
    ensures restored.selectedKeys == [key] && restored.openKeys == openKeys
    ensures restored.breadcrumbItems == []
  {
    var before := new Shell(map[], map[]);
    before.OpenChange(openKeys);
    before.MenuClick(key, keyPath);
    restored := new Shell(before.storage, before.cookies);
    restored.Mount();
  }
}
