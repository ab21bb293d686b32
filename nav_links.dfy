/** The admin side bar: its four links and which of them is highlighted for
    the current path. */
module NavLinks {
  import opened Common

  datatype Link = Link(name: string, href: string)

  /** `links` */
  const Links: seq<Link> := [
    Link("Dashboard", "/admin"),
    Link("Users", "/admin/users"),
    Link("Orders", "/admin/orders"),
    Link("Components", "/admin/comps")
  ]

  /** The highlight condition: the href occurs in the path (unless it is
      "/dashboard"), or the path is the href itself. */
  predicate IsActive(link: Link, pathname: string) {
    (link.href != "/dashboard" && Contains(pathname, link.href)) || pathname == link.href
  }

  datatype RenderedLink = RenderedLink(name: string, href: string, active: bool)

  /** `NavLinks()`: one rendered link per table entry, in table order. */
  function RenderLinks(pathname: string): (r: seq<RenderedLink>)
    ensures |r| == |Links| == 4
    ensures forall i :: 0 <= i < |r| ==>
              r[i].name == Links[i].name && r[i].href == Links[i].href && r[i].active == IsActive(Links[i], pathname)
  {
    seq(|Links|, i requires 0 <= i < |Links| =>
      RenderedLink(Links[i].name, Links[i].href, IsActive(Links[i], pathname)))
  }

  /** A link is active on its own page. */
  lemma ActiveOnOwnPage(link: Link)
    ensures IsActive(link, link.href)
  {
  }

  /** No listed link is "/dashboard", so for the listed links being active is
      exactly the path containing the href. */
  lemma {:induction false} ActiveIffContains(i: nat, pathname: string)
    requires i < |Links|
    ensures Links[i].href != "/dashboard"
    ensures IsActive(Links[i], pathname) <==> Contains(pathname, Links[i].href)
  {
    assert Links[i].href != "/dashboard" by {
      assert Links[i].href[..2] == "/a";
    }
    if pathname == Links[i].href {
      PrefixContained(Links[i].href, pathname);
    }
  }

  /** Every href starts with "/admin". */
  lemma AdminPrefix(i: nat)
    requires i < |Links|
    ensures IsPrefix("/admin", Links[i].href)
  {
  }

  /** Dashboard ("/admin") is highlighted whenever any link is. */
  lemma DashboardActiveWhenAnyActive(i: nat, pathname: string)
    requires i < |Links| && IsActive(Links[i], pathname)
    ensures IsActive(Links[0], pathname)
  {
    ActiveIffContains(i, pathname);
    AdminPrefix(i);
    PrefixContained("/admin", Links[i].href);
    ContainsTransitive(pathname, Links[i].href, "/admin");
    ActiveIffContains(0, pathname);
  }

  /** The users page highlights Dashboard and Users, and nothing else. */
  lemma UsersPage()
    ensures var r := RenderLinks("/admin/users");
            r[0].active && r[1].active && !r[2].active && !r[3].active
  {
    PrefixContained("/admin", "/admin/users");
    ActiveIffContains(2, "/admin/users");
    ActiveIffContains(3, "/admin/users");
    var p := "/admin/users";
    forall k | 0 <= k <= |p|
      ensures !IsPrefix("/admin/orders", p[k..]) && !IsPrefix("/admin/comps", p[k..])
    {
      if k == 0 {
        assert p[k..][7] != "/admin/orders"[7];
        assert p[k..][7] != "/admin/comps"[7];
      }
    }
  }
}
