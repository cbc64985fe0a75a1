/**
 * The navigation shell: the fixed table of menu entries, the entries a
 * user may see (those they may read), and which entry is highlighted for
 * the current path.
 */
module SidebarNav {
  import opened Wrappers
  import opened Text
  import opened Auth

  datatype NavItem = NavItem(href: string, text: string, subModulo: string)

  /** `allNavItems`, in display order. */
  const AllNavItems: seq<NavItem> := [
    NavItem("/dashboard", "Inicio", "Inicio"),
    NavItem("/tipo-clientes", "Tipos de Cliente", "Tipos de Cliente"),
    NavItem("/clientes", "Clientes", "Clientes"),
    NavItem("/facturas", "Facturas", "Facturas"),
    NavItem("/productos", "Productos", "Productos"),
    NavItem("/reportes/clientes", "Reporte Clientes", "Reportes Clientes"),
    NavItem("/reportes/facturas", "Reporte Facturas", "Reportes Facturas")
  ]

  /** The filter callback: report entries and the others take separate
      branches that ask the same question. */
  predicate Keep(user: Option<User>, item: NavItem)
    ensures Keep(user, item) ==> user.Some?
    ensures user.Some? && item.subModulo == Dashboard ==> Keep(user, item)
  {
    if StartsWith(item.subModulo, "Reporte") then HasPermission(user, item.subModulo, Read)
    else HasPermission(user, item.subModulo, Read)
  }

  /** `Array.prototype.filter` with `Keep`. */
  function FilterItems(user: Option<User>, items: seq<NavItem>): (r: seq<NavItem>)
    ensures |r| <= |items|
    ensures forall x | x in r :: x in items
  {
    if items == [] then []
    else (if Keep(user, items[0]) then [items[0]] else []) + FilterItems(user, items[1..])
  }

  /** `navItems`: the entries shown to `user`. */
  function NavItems(user: Option<User>): (r: seq<NavItem>)
    ensures |r| <= |AllNavItems|
    ensures forall x | x in r :: x in AllNavItems
  {
    FilterItems(user, AllNavItems)
  }

  /** `a` is obtained from `b` by deleting entries: each entry of `b` is
      either kept, in place, or dropped. */
  predicate IsSubsequence(a: seq<NavItem>, b: seq<NavItem>)
    decreases |b|
  {
    if b == [] then a == []
    else (a != [] && a[0] == b[0] && IsSubsequence(a[1..], b[1..])) || IsSubsequence(a, b[1..])
  }

  predicate NoDuplicates(s: seq<NavItem>)
  {
    forall i, j | 0 <= i < j < |s| :: s[i] != s[j]
  }

  /** The report branch changes nothing: every entry is kept exactly when
      its sub-module may be read. */
  lemma KeepIsReadPermission(user: Option<User>, item: NavItem)
    ensures Keep(user, item) == HasPermission(user, item.subModulo, Read)
  {
  }

  /** The filter keeps exactly the readable entries, in their original
      order and without adding any. */
  lemma {:induction false} FilterItemsSpec(user: Option<User>, items: seq<NavItem>)
    ensures IsSubsequence(FilterItems(user, items), items)
    ensures forall x :: x in FilterItems(user, items) <==> x in items && HasPermission(user, x.subModulo, Read)
  {
    if items != [] {
      FilterItemsSpec(user, items[1..]);
      var rest := FilterItems(user, items[1..]);
      if Keep(user, items[0]) {
        assert FilterItems(user, items) == [items[0]] + rest;
        assert ([items[0]] + rest)[1..] == rest;
      } else {
        assert FilterItems(user, items) == rest;
      }
    }
  }

  /** A subsequence is no longer than its source, and a subsequence of a
      list without duplicates has none either. */
  lemma {:induction false} SubsequenceProperties(a: seq<NavItem>, b: seq<NavItem>)
    requires IsSubsequence(a, b)
    ensures |a| <= |b|
    ensures forall x | x in a :: x in b
    ensures NoDuplicates(b) ==> NoDuplicates(a)
    decreases |b|
  {
    if b != [] {
      if a != [] && a[0] == b[0] && IsSubsequence(a[1..], b[1..]) {
        SubsequenceProperties(a[1..], b[1..]);
        assert forall x | x in a :: x == a[0] || x in a[1..];
        if NoDuplicates(b) {
          assert b[0] !in b[1..];
          forall i, j | 0 <= i < j < |a| ensures a[i] != a[j] {
            assert a[j] == a[1..][j - 1];
            if i > 0 {
              assert a[i] == a[1..][i - 1];
            } else {
              assert a[j] in a[1..];
            }
          }
        }
      } else {
        SubsequenceProperties(a, b[1..]);
        assert NoDuplicates(b) ==> NoDuplicates(b[1..]);
      }
    }
  }

  /** The visible entries are the readable entries of the table, in table
      order: at most seven of them, none twice. */
  lemma NavItemsSpec(user: Option<User>)
    ensures IsSubsequence(NavItems(user), AllNavItems)
    ensures forall x :: x in NavItems(user) <==> x in AllNavItems && HasPermission(user, x.subModulo, Read)
    ensures |NavItems(user)| <= 7
    ensures NoDuplicates(NavItems(user))
  {
    FilterItemsSpec(user, AllNavItems);
    AllNavItemsDistinct();
    SubsequenceProperties(NavItems(user), AllNavItems);
  }

  /** Nobody logged in: the menu is empty. */
  lemma NoUserNoItems()
    ensures NavItems(None) == []
  {
    FilterItemsSpec(None, AllNavItems);
  }

  /** Any logged-in user sees the dashboard entry, first. */
  lemma DashboardFirst(u: User)
    ensures |NavItems(Some(u))| >= 1 && NavItems(Some(u))[0] == AllNavItems[0]
  {
    assert Keep(Some(u), AllNavItems[0]);
  }

  /** The `isActive` test of a menu entry at `pathname`. */
  predicate IsActive(pathname: string, href: string)
    ensures href == "/dashboard" && pathname == "/" ==> IsActive(pathname, href)
    ensures IsActive(pathname, href) && pathname != "/" ==>
      |href| <= |pathname| && forall i | 0 <= i < |href| :: pathname[i] == href[i]
  {
    StartsWith(pathname, href) || (href == "/dashboard" && pathname == "/")
  }

  /** At the root path only the dashboard entry is highlighted. */
  lemma RootActivatesDashboardOnly(i: int)
    requires 0 <= i < |AllNavItems|
    ensures IsActive("/", AllNavItems[i].href) <==> i == 0
  {
  }

  /** No href of the table is a prefix of another one. */
  lemma HrefsPrefixFree(i: int, j: int)
    requires 0 <= i < |AllNavItems| && 0 <= j < |AllNavItems| && i != j
    ensures !StartsWith(AllNavItems[j].href, AllNavItems[i].href)
  {
    var h, g := AllNavItems[i].href, AllNavItems[j].href;
    if |h| <= |g| {
      assert g[..|h|] != h by {
        if i >= 5 || j >= 5 {
          assert g[1] != h[1] || g[10] != h[10];
        } else {
          assert g[1] != h[1];
        }
      }
    }
  }

  /** The table lists every entry once. */
  lemma AllNavItemsDistinct()
    ensures NoDuplicates(AllNavItems)
  {
    forall i, j | 0 <= i < j < |AllNavItems| ensures AllNavItems[i] != AllNavItems[j] {
      HrefsPrefixFree(i, j);
    }
  }

  /** Whatever the path, at most one entry of the table is highlighted. */
  lemma AtMostOneActive(pathname: string, i: int, j: int)
    requires 0 <= i < |AllNavItems| && 0 <= j < |AllNavItems|
    requires IsActive(pathname, AllNavItems[i].href) && IsActive(pathname, AllNavItems[j].href)
    ensures i == j
  {
    var h, g := AllNavItems[i].href, AllNavItems[j].href;
    if i != j {
      if pathname == "/" {
        RootActivatesDashboardOnly(i);
        RootActivatesDashboardOnly(j);
      } else if |h| <= |g| {
        PrefixesComparable(pathname, h, g);
        HrefsPrefixFree(i, j);
      } else {
        PrefixesComparable(pathname, g, h);
        HrefsPrefixFree(j, i);
      }
    }
  }
}
