/**
 * The side navigation: which menus are expanded, and which entries are
 * highlighted for the current path.
 */
module Navigation {
  import opened Seqs
  import opened Text

  /** `prev.filter(name => name !== menuName)`. */
  function Without(prev: seq<string>, menuName: string): (r: seq<string>)
    ensures menuName !in r
    ensures forall x :: x != menuName ==> (x in r <==> x in prev)
    ensures IsSubsequence(r, prev)
    ensures forall x :: multiset(r)[x] == if x == menuName then 0 else multiset(prev)[x]
  {
    FilterIsSubsequence(prev, (n: string) => n != menuName);
    FilterMultiset(prev, (n: string) => n != menuName);
    Filter(prev, (n: string) => n != menuName)
  }

  /** The list `toggleMenu` replaces `openMenus` with. */
  function Toggled(prev: seq<string>, menuName: string): (r: seq<string>)
    ensures menuName in r <==> menuName !in prev
    ensures forall x :: x != menuName ==> (x in r <==> x in prev)
    ensures menuName in prev ==> IsSubsequence(r, prev) && menuName !in r
    ensures menuName in prev ==> forall x :: multiset(r)[x] == if x == menuName then 0 else multiset(prev)[x]
    ensures menuName !in prev ==> r == prev + [menuName]
  {
    if menuName in prev then Without(prev, menuName) else prev + [menuName]
  }

  /** Opening a closed menu and closing it again restores the list. */
  lemma ToggleTwiceRestores(prev: seq<string>, menuName: string)
    requires menuName !in prev
    ensures Toggled(Toggled(prev, menuName), menuName) == prev
  {
    var p := (n: string) => n != menuName;
    FilterConcat(prev, [menuName], p);
    FilterKeepsAll(prev, p);
    assert Filter([menuName], p) == [];
  }

  /** Closing an open menu and opening it again moves it to the end of the list. */
  lemma ToggleTwiceMovesToEnd(prev: seq<string>, menuName: string)
    requires menuName in prev
    ensures Toggled(Toggled(prev, menuName), menuName) == Without(prev, menuName) + [menuName]
  {
  }

  /** The component's state: the current path and the names of the expanded menus. */
  class NavigationState {
    const pathname: string
    var openMenus: seq<string>

    /** The expanded list never names a menu twice. */
    ghost predicate Valid()
      reads this
    {
      Distinct(openMenus)
    }

    constructor (pathname: string)
      ensures Valid() && this.pathname == pathname && openMenus == []
    {
      this.pathname := pathname;
      openMenus := [];
    }

    /** `toggleMenu`. */
    method ToggleMenu(menuName: string)
      requires Valid()
      modifies this
      ensures Valid()
      ensures openMenus == Toggled(old(openMenus), menuName)
      ensures IsMenuOpen(menuName) <==> !old(IsMenuOpen(menuName))
    {
      if menuName in openMenus {
        FilterDistinct(openMenus, (n: string) => n != menuName);
        openMenus := Without(openMenus, menuName);
      } else {
        openMenus := openMenus + [menuName];
      }
    }

    /** `isMenuOpen`. */
    predicate IsMenuOpen(menuName: string): (b: bool)
      reads this
      ensures b <==> exists i :: 0 <= i < |openMenus| && openMenus[i] == menuName
    {
      menuName in openMenus
    }

    /** `isActiveSubmenuItem`, on this component's path. */
    predicate IsActiveSubmenuItem(href: string): (b: bool)
      ensures b <==> (pathname == href ||
                      (|href| < |pathname| && pathname[..|href|] == href && pathname[|href|] == '/'))
    {
      IsActivePath(pathname, href)
    }
  }

  /** The current path is `href` itself or lies below it: `pathname.startsWith(href + '/')`. */
  function IsActivePath(pathname: string, href: string): (b: bool)
    ensures b <==> (pathname == href ||
                    (|href| < |pathname| && pathname[..|href|] == href && pathname[|href|] == '/'))
  {
    var below := href + "/";
    assert StartsWith(pathname, below) <==>
      |href| < |pathname| && pathname[..|href|] == href && pathname[|href|] == '/' by {
      if |href| < |pathname| {
        assert pathname[..|below|][..|href|] == pathname[..|href|];
      }
    }
    pathname == href || StartsWith(pathname, below)
  }

  /** `/tickets` is active on `/tickets/new` but not on `/ticketsx`. */
  lemma PrefixExamples()
    ensures IsActivePath("/tickets/new", "/tickets")
    ensures !IsActivePath("/ticketsx", "/tickets")
  {
  }

  datatype SubItem = SubItem(name: string, href: string)

  datatype NavItem = Link(name: string, href: string) | Menu(name: string, submenu: seq<SubItem>)

  /** `hasActiveSubmenuItem`: some entry of the submenu is active. */
  function HasActiveSubmenuItem(pathname: string, submenu: seq<SubItem>): (b: bool)
    ensures b <==> exists i :: 0 <= i < |submenu| && IsActivePath(pathname, submenu[i].href)
    decreases |submenu|
  {
    if |submenu| == 0 then false
    else IsActivePath(pathname, submenu[0].href) || HasActiveSubmenuItem(pathname, submenu[1..])
  }

  /** Whether an entry of the menu bar is highlighted: a link by its own path, a menu by its entries. */
  function IsHighlighted(pathname: string, item: NavItem): (b: bool)
    ensures item.Link? ==> (b <==> IsActivePath(pathname, item.href))
    ensures item.Menu? ==>
      (b <==> exists i :: 0 <= i < |item.submenu| && IsActivePath(pathname, item.submenu[i].href))
  {
    match item
    case Link(_, href) => IsActivePath(pathname, href)
    case Menu(_, submenu) => HasActiveSubmenuItem(pathname, submenu)
  }

  /** The "Chamados" menu. */
  const TicketsMenu: NavItem := Menu("Chamados", [
    SubItem("Novo Chamado", "/tickets/new"),
    SubItem("Kanban", "/kanban"),
    SubItem("Lista de Chamados", "/tickets")])

  /** On the new-ticket page the ticket list entry is highlighted too, since its path is a prefix. */
  lemma NewTicketHighlightsList()
    ensures IsActivePath("/tickets/new", TicketsMenu.submenu[0].href)
    ensures IsActivePath("/tickets/new", TicketsMenu.submenu[2].href)
    ensures !IsActivePath("/tickets/new", TicketsMenu.submenu[1].href)
    ensures IsHighlighted("/tickets/new", TicketsMenu)
  {
  }
}
