/**
 * The dashboard header of `components/user/user-navbar.tsx`: the avatar's
 * initials, the four navigation links and which of them is highlighted for
 * the current path, and the light/dark theme toggle.
 */
module UserNavbar {
  import opened Wrappers
  import opened JsText

  datatype NavLink = NavLink(title: string, href: string)

  const Dashboard := NavLink("Dashboard", "/user")
  const Orders := NavLink("Orders", "/user/orders")
  const Profile := NavLink("Profile", "/user/profile")
  const Wishlist := NavLink("Wishlist", "/user/wishlist")

  /** `navLinks`, in display order. */
  const NavLinks: seq<NavLink> := [Dashboard, Orders, Profile, Wishlist]

  // ---------------------------------------------------------------------------
  // Initials

  /** The words that are not empty, in their order. */
  function NonEmpty(words: seq<string>): (r: seq<string>)
    ensures |r| <= |words|
    ensures forall i :: 0 <= i < |r| ==> r[i] != "" && r[i] in words
    ensures forall w :: w in words && w != "" ==> w in r
  {
    if words == [] then []
    else (if words[0] == "" then [] else [words[0]]) + NonEmpty(words[1..])
  }

  /** Filtering is piecewise, so the non-empty words keep their order and their repeats. */
  lemma {:induction false} NonEmptyAppend(a: seq<string>, b: seq<string>)
    ensures NonEmpty(a + b) == NonEmpty(a) + NonEmpty(b)
  {
    if a == [] {
      assert a + b == b;
    } else {
      assert (a + b)[0] == a[0] && (a + b)[1..] == a[1..] + b;
      NonEmptyAppend(a[1..], b);
    }
  }

  /** One word is kept exactly when it is not empty. */
  lemma NonEmptyOfOne(w: string)
    ensures NonEmpty([w]) == if w == "" then [] else [w]
  {
    assert [w][1..] == [];
  }

  /**
   * `words.map(n => n[0]).join("")`: `n[0]` of an empty word is undefined,
   * which `join` prints as nothing, so only the non-empty words contribute,
   * each with its first character.
   */
  function FirstChars(words: seq<string>): (r: string)
    ensures |r| == |NonEmpty(words)|
    ensures forall i :: 0 <= i < |r| ==> r[i] == NonEmpty(words)[i][0]
  {
    if words == [] then ""
    else (if words[0] == "" then "" else [words[0][0]]) + FirstChars(words[1..])
  }

  /**
   * `getUserInitials(name)`: "U" for a missing or empty name, otherwise the
   * upper-cased first letters of the space-separated words, at most two.
   */
  function UserInitials(name: Option<string>): (r: string)
    ensures name.None? || name == Some("") ==> r == "U"
    ensures |r| <= 2
    ensures forall i :: 0 <= i < |r| ==> UpperChar(r[i]) == r[i]
    ensures name.Some? && name.value != "" ==>
      var words := NonEmpty(Split(name.value, ' '));
      |r| == (if |words| < 2 then |words| else 2) &&
      forall i :: 0 <= i < |r| ==> r[i] == UpperChar(words[i][0])
  {
    match name
    case None => "U"
    case Some(n) =>
      if n == "" then "U"
      else
        var u := Upper(FirstChars(Split(n, ' ')));
        u[..if |u| < 2 then |u| else 2]
  }

  /** The first part of a text that does not start with a space is not empty and starts with its first letter. */
  lemma FirstPartStarts(b: string)
    requires b != [] && b[0] != ' '
    ensures Split(b, ' ')[0] != [] && Split(b, ' ')[0][0] == b[0]
  {
    SplitFirst(b, ' ');
  }

  /** "Ada Lovelace" gives "AL": one letter from each of the first two words. */
  lemma {:induction false} InitialsOfTwoWords(a: string, b: string)
    requires a != [] && ' ' !in a
    requires b != [] && b[0] != ' '
    ensures UserInitials(Some(a + " " + b)) == [UpperChar(a[0]), UpperChar(b[0])]
  {
    var n := a + " " + b;
    assert n == a + [' '] + b;
    SplitAtFirst(a, ' ', b);
    var rest := Split(b, ' ');
    FirstPartStarts(b);
    assert ([a] + rest)[1..] == rest;
    assert FirstChars([a] + rest) == [a[0]] + FirstChars(rest);
    assert FirstChars(rest) == [b[0]] + FirstChars(rest[1..]);
    var u := Upper(FirstChars(Split(n, ' ')));
    assert u[0] == UpperChar(a[0]) && u[1] == UpperChar(b[0]);
  }

  /** A one-word name gives its upper-cased first letter alone. */
  lemma InitialsOfOneWord(a: string)
    requires a != [] && ' ' !in a
    ensures UserInitials(Some(a)) == [UpperChar(a[0])]
  {
    SplitNoSep(a, ' ');
    assert FirstChars([a]) == [a[0]] + FirstChars([]);
  }

  /** A name made only of a space has no initials at all: both words are empty. */
  lemma SpaceOnlyNameHasNoInitials()
    ensures UserInitials(Some(" ")) == ""
  {
    assert " " == [] + [' '] + [];
    SplitAtFirst([], ' ', []);
    assert Split([], ' ') == [[]];
  }

  // ---------------------------------------------------------------------------
  // Active link

  /** `pathname === href || (href !== "/user" && pathname.startsWith(href))` */
  predicate IsActive(pathname: string, href: string) {
    pathname == href || (href != Dashboard.href && StartsWith(pathname, href))
  }

  /** A path below a link's href (other than the dashboard's) activates it. */
  lemma DeeperPathActivates(href: string, rest: string)
    requires href != Dashboard.href
    ensures IsActive(href + rest, href)
  {
    StartsWithAppend(href, rest);
  }

  /** The dashboard link is highlighted on "/user" itself and nowhere else. */
  lemma DashboardOnlyExact(pathname: string)
    ensures IsActive(pathname, Dashboard.href) <==> pathname == "/user"
  {
  }

  lemma StartsWithCharAt(s: string, p: string, k: nat)
    requires k < |p|
    ensures StartsWith(s, p) ==> s[k] == p[k]
  {
    if StartsWith(s, p) {
      assert s[..|p|][k] == s[k];
    }
  }

  /** For any path, at most one of the four links is highlighted. */
  lemma AtMostOneActive(pathname: string, i: nat, j: nat)
    requires i < j < |NavLinks|
    ensures !(IsActive(pathname, NavLinks[i].href) && IsActive(pathname, NavLinks[j].href))
  {
    StartsWithCharAt(pathname, NavLinks[j].href, 6);
    if i > 0 {
      StartsWithCharAt(pathname, NavLinks[i].href, 6);
    }
  }

  // ---------------------------------------------------------------------------
  // Theme toggle

  /** `theme === "dark" ? "light" : "dark"` (the theme may be unset or "system"). */
  function ToggledTheme(theme: Option<string>): (t: string)
    ensures t == "light" || t == "dark"
    ensures t == "light" <==> theme == Some("dark")
  {
    if theme == Some("dark") then "light" else "dark"
  }

  /** On the two named themes the toggle flips and two toggles come back; any other theme goes to "dark". */
  lemma ToggleFlips(theme: string)
    ensures theme == "dark" || theme == "light" ==>
      ToggledTheme(Some(theme)) != theme && ToggledTheme(Some(ToggledTheme(Some(theme)))) == theme
    ensures theme != "dark" ==> ToggledTheme(Some(theme)) == "dark"
  {
  }
}
