/**
 * The profile/orders tab bar of `app/user/main-nav.tsx`: two links in a fixed
 * order, each highlighted (with its overlay) when its href occurs anywhere in
 * the current path.
 */
module MainNav {
  import opened JsText

  datatype Link = Link(title: string, href: string)

  /** `links`, in display order. */
  const Links: seq<Link> := [Link("Profile", "/user/profile"), Link("Orders", "/user/orders")]

  /** One rendered tab: its title, its href, whether it is highlighted and whether the overlay is drawn. */
  datatype Tab = Tab(title: string, href: string, active: bool, overlay: bool)

  /** `pathname.includes(href)` */
  predicate IsActive(pathname: string, href: string) {
    Includes(pathname, href)
  }

  /** `links.map(...)`: one tab per link, same order, the overlay exactly on active tabs. */
  function Tabs(pathname: string): (tabs: seq<Tab>)
    ensures |tabs| == |Links|
    ensures forall k :: 0 <= k < |tabs| ==>
      tabs[k].title == Links[k].title && tabs[k].href == Links[k].href &&
      (tabs[k].active <==> IsActive(pathname, Links[k].href)) &&
      (tabs[k].overlay <==> tabs[k].active)
  {
    seq(|Links|, k requires 0 <= k < |Links| =>
      var active := IsActive(pathname, Links[k].href);
      Tab(Links[k].title, Links[k].href, active, active))
  }

  /** The path equal to an href, or any path that contains it (deeper, or even with a prefix), activates it. */
  lemma ContainingPathActivates(before: string, href: string, after: string)
    ensures IsActive(before + href + after, href)
    ensures IsActive(href, href)
  {
    IncludesInside(before, href, after);
    IncludesInside([], href, []);
    assert [] + href + [] == href;
  }

  /** The order page "/user/orders/abc" highlights Orders and not Profile. */
  lemma OrderPageHighlightsOrders()
    ensures var tabs := Tabs("/user/orders/abc"); tabs[1].active && !tabs[0].active
  {
    var p := "/user/orders/abc";
    assert p == "" + "/user/orders" + "/abc";
    ContainingPathActivates("", "/user/orders", "/abc");
    ProfileNotInOrderPath();
  }

  /** "/user/profile" occurs nowhere in "/user/orders/abc". */
  lemma ProfileNotInOrderPath()
    ensures !Includes("/user/orders/abc", "/user/profile")
  {
    var s, sub := "/user/orders/abc", "/user/profile";
    forall i: nat
      ensures !OccursAt(s, sub, i)
    {
      if i + |sub| <= |s| {
        assert s[i..i + |sub|][0] == s[i];
        assert s[i..i + |sub|][6] == s[i + 6];
      }
    }
    NotIncludes(s, sub);
  }
}
