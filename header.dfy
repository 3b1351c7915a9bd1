/** The page header (frontend/src/components/Header.jsx): the title and
    whether a back button shows, both read off the current path. */
module Header {
  import opened Text

  const HomePath: string := "/home"
  const CategoryPrefix: string := "/home/"
  const HomeTitle: string := "Menu"
  const FallbackTitle: string := "App"

  /** The titles of the fixed pages. */
  const PageMap: map<string, string> := map[
    "/cart" := "Your Cart",
    "/orders" := "Orders",
    "/reservation" := "Reservation",
    "/reservation-confirmation" := "Confirmation",
    "/reservation-details" := "Reservation Details",
    "/order-details" := "Order Details"
  ]

  datatype HeaderView = HeaderView(title: string, showBack: bool)

  /** `s.charAt(0).toUpperCase() + s.slice(1)`: only the case of the
      first character may change, and it ends up upper-case. */
  function Capitalize(s: string): (r: string)
    ensures |r| == |s|
    ensures s != "" ==> r[1..] == s[1..] && UpperChar(r[0]) == r[0]
    ensures SameIgnoringCase(r, s)
  {
    if s == "" then "" else [UpperChar(s[0])] + s[1..]
  }

  /** A path under "/home/" splits on "/" into "", "home" and the pieces of
      the rest, so piece 2 (the category) is the rest's first piece. */
  lemma CategoryPiece(path: string)
    requires StartsWith(path, CategoryPrefix)
    ensures |Split(path, '/')| >= 3
    ensures Split(path, '/')[2] == Split(path[|CategoryPrefix|..], '/')[0]
  {
    var rest := path[|CategoryPrefix|..];
    assert path == "" + ['/'] + ("home" + ['/'] + rest);
    SplitAfter("", '/', "home" + ['/'] + rest);
    SplitAfter("home", '/', rest);
  }

  /** The category a "/home/…" path names: `path.split("/")[2]`. */
  function CategoryOf(path: string): (c: string)
    requires StartsWith(path, CategoryPrefix)
    ensures '/' !in c
  {
    CategoryPiece(path);
    Split(path, '/')[2]
  }

  /** No fixed page lies under "/home": the second character of each of
      their paths is not 'h'. */
  lemma PagesOutsideHome()
    ensures forall path :: path in PageMap ==> path != HomePath && !StartsWith(path, CategoryPrefix)
  {
    forall path | path in PageMap ensures path != HomePath && !StartsWith(path, CategoryPrefix) {
      assert |path| >= 2 && path[1] != 'h';
    }
  }

  /** The header for a path; every fixed page shows its own title and a
      back button. */
  function HeaderFor(path: string): (h: HeaderView)
    ensures path in PageMap ==> h == HeaderView(PageMap[path], true)
  {
    PagesOutsideHome();
    if path == HomePath then HeaderView(HomeTitle, false)
    else if StartsWith(path, CategoryPrefix) then HeaderView(Capitalize(CategoryOf(path)), true)
    else HeaderView(if path in PageMap then PageMap[path] else FallbackTitle, true)
  }

  /** The back button shows everywhere but on "/home". */
  lemma BackButtonIff(path: string)
    ensures HeaderFor(path).showBack <==> path != HomePath
  {
  }

  /** "/home/<category>" and "/home/<category>/<more>" are titled by the
      capitalised category. */
  lemma CategoryTitle(category: string, more: string)
    requires '/' !in category
    ensures HeaderFor(CategoryPrefix + category).title == Capitalize(category)
    ensures HeaderFor(CategoryPrefix + category + "/" + more).title == Capitalize(category)
  {
    var p1 := CategoryPrefix + category;
    var p2 := CategoryPrefix + category + "/" + more;
    assert StartsWith(p1, CategoryPrefix) && p1[|CategoryPrefix|..] == category;
    assert StartsWith(p2, CategoryPrefix) && p2[|CategoryPrefix|..] == category + ['/'] + more;
    CategoryPiece(p1);
    CategoryPiece(p2);
    SplitNone(category, '/');
    SplitAfter(category, '/', more);
  }

  /** The title is empty only for a "/home/" path with an empty category
      piece ("/home/", "/home//…"); every fixed page and every other path
      has a non-empty title. */
  lemma EmptyTitle(path: string)
    ensures HeaderFor(path).title == "" <==> StartsWith(path, CategoryPrefix) && CategoryOf(path) == ""
  {
  }

  /** A path that extends "/home" by anything but "/" ("/homepage",
      "/home-x", …) is neither home nor a category and falls back to "App". */
  lemma NearHomeFallsBack(more: string)
    requires more != "" && more[0] != '/'
    ensures HeaderFor(HomePath + more) == HeaderView(FallbackTitle, true)
  {
    var path := HomePath + more;
    assert path[1] == 'h' && path[5] == more[0];
    PagesOutsideHome();
  }
}
