/** The hash router of `src/App.tsx`: the page and project slug chosen from the location,
    the hash written by navigation, and the screen each page renders. The browser location
    is part of the state; scrolling, the contact settings and the admin session are not. */
module Routes {
  import opened Types
  import opened Seqs
  import opened Fragment

  // ---------------------------------------------------------------------------------------
  // Splitting a path

  /** `s.split(sep)`: the pieces between the separators, empty ones included. */
  function Split(s: string, sep: char): (parts: seq<string>)
    ensures |parts| >= 1
    ensures forall k :: 0 <= k < |parts| ==> sep !in parts[k]
  {
    if s == [] then [""]
    else
      var rest := Split(s[1..], sep);
      if s[0] == sep then [""] + rest else [[s[0]] + rest[0]] + rest[1..]
  }

  /** `parts.join(sep)` */
  function Join(parts: seq<string>, sep: char): string
  {
    if parts == [] then ""
    else if |parts| == 1 then parts[0]
    else parts[0] + [sep] + Join(parts[1..], sep)
  }

  /** Splitting loses nothing: joining the pieces gives the string back. */
  lemma {:induction false} SplitJoin(s: string, sep: char)
    ensures Join(Split(s, sep), sep) == s
  {
    if s != [] {
      var rest := Split(s[1..], sep);
      SplitJoin(s[1..], sep);
      if s[0] == sep {
        assert Split(s, sep) == [""] + rest;
        assert ([""] + rest)[1..] == rest;
        assert s == "" + [sep] + s[1..];
      } else {
        var parts := Split(s, sep);
        assert parts == [[s[0]] + rest[0]] + rest[1..];
        if |rest| == 1 {
          assert s == [s[0]] + s[1..];
        } else {
          assert parts[1..] == rest[1..];
          assert Join(rest, sep) == rest[0] + [sep] + Join(rest[1..], sep);
          assert s == [s[0]] + s[1..];
        }
      }
    }
  }

  /** A string without the separator is one piece. */
  lemma {:induction false} SplitNoSep(s: string, sep: char)
    requires sep !in s
    ensures Split(s, sep) == [s]
  {
    if s != [] {
      SplitNoSep(s[1..], sep);
      assert [s[0]] + s[1..] == s;
    }
  }

  /** A piece without the separator followed by one separator splits off as the first piece. */
  lemma {:induction false} SplitAfterPiece(a: string, sep: char, b: string)
    requires sep !in a
    ensures Split(a + [sep] + b, sep) == [a] + Split(b, sep)
  {
    if a == [] {
      assert a + [sep] + b == [sep] + b;
      assert ([sep] + b)[1..] == b;
    } else {
      var s := a + [sep] + b;
      assert s[0] == a[0];
      assert s[1..] == a[1..] + [sep] + b;
      SplitAfterPiece(a[1..], sep, b);
      assert [a[0]] + a[1..] == a;
    }
  }

  predicate NonEmpty(s: string) { s != "" }

  /** `h.split('/').filter(Boolean)`: the non-empty path segments. */
  function Segments(h: string): (segs: seq<string>)
    ensures forall k :: 0 <= k < |segs| ==> segs[k] != "" && '/' !in segs[k]
  {
    var parts := Split(h, '/');
    var segs := Filter(parts, NonEmpty);
    assert forall k :: 0 <= k < |segs| ==> segs[k] in parts by {
      forall k | 0 <= k < |segs|
        ensures segs[k] in parts
      {
        FilterMembers(parts, NonEmpty, segs[k]);
      }
    }
    segs
  }

  // ---------------------------------------------------------------------------------------
  // handleRouteChange

  const ValidPages: seq<string> := ["home", "about", "projects", "contact", "admin", "project"]

  /** The page (`currentPage`) and the slug (`projectSlug`) the router selects. */
  datatype Route = Route(page: string, slug: Option<string>)

  /** `hash.slice(1) || '/'`: the hash without its `#`, or `/` when that leaves nothing. */
  function HashPath(hash: string): string
  {
    var h := if |hash| >= 1 then hash[1..] else "";
    if h == "" then "/" else h
  }

  /** The page selection of `handleRouteChange`. A slug is chosen only for `project/<slug>`,
      and every page chosen is a valid page or `404`. */
  function ParseHash(hash: string): (r: Route)
    ensures r.page in ValidPages || r.page == "404"
    ensures r.slug.Some? ==> r.page == "project" && r.slug.value != "" && '/' !in r.slug.value
  {
    var segs := Segments(HashPath(hash));
    if segs == [] then Route("home", None)
    else if segs[0] == "project" && |segs| >= 2 then Route("project", Some(segs[1]))
    else if segs[0] in ValidPages then Route(segs[0], None)
    else Route("404", None)
  }

  /** The cases of the selection, by the segments of the hash: none gives `home`;
      `project/<slug>` gives that project; a valid first segment gives its page; any other
      gives `404`. */
  lemma ParseHashCases(hash: string)
    ensures var segs := Segments(HashPath(hash)); var r := ParseHash(hash);
      && (segs == [] ==> r == Route("home", None))
      && (|segs| >= 2 && segs[0] == "project" ==> r == Route("project", Some(segs[1])))
      && (|segs| >= 1 && segs[0] in ValidPages && !(segs[0] == "project" && |segs| >= 2) ==>
            r == Route(segs[0], None))
      && (|segs| >= 1 && segs[0] !in ValidPages ==> r == Route("404", None))
      && (r.page == "404" <==> segs != [] && segs[0] !in ValidPages)
  {
  }

  /** An empty hash, or a hash of slashes only, selects the home page. */
  lemma EmptyHashIsHome(hash: string)
    requires |hash| <= 1 || forall k :: 1 <= k < |hash| ==> hash[k] == '/'
    ensures ParseHash(hash) == Route("home", None)
  {
    var h := HashPath(hash);
    assert forall k :: 0 <= k < |h| ==> h[k] == '/';
    SlashesHaveNoSegments(h);
  }

  lemma {:induction false} SlashesHaveNoSegments(h: string)
    requires forall k :: 0 <= k < |h| ==> h[k] == '/'
    ensures Filter(Split(h, '/'), NonEmpty) == []
  {
    if h != [] {
      SlashesHaveNoSegments(h[1..]);
      assert Split(h, '/') == [""] + Split(h[1..], '/');
      FilterAppend([""], Split(h[1..], '/'), NonEmpty);
    }
  }

  // ---------------------------------------------------------------------------------------
  // handleNavigate

  /** The hash `handleNavigate` writes: `#/project/<slug>` for a project with a non-empty
      slug, `#/` for home, `#/<page>` otherwise. */
  function NavigateHash(page: string, slug: Option<string>): string
  {
    if page == "project" && slug.Some? && slug.value != "" then "#/project/" + slug.value
    else "#/" + (if page == "home" then "" else page)
  }

  /** The segments of `#/<a>` for a segment without a slash. */
  lemma SegmentsOfPage(a: string)
    requires a != "" && '/' !in a
    ensures Segments(HashPath("#/" + a)) == [a]
  {
    var h := "/" + a;
    assert HashPath("#/" + a) == h;
    assert h == "" + ['/'] + a;
    SplitAfterPiece("", '/', a);
    SplitNoSep(a, '/');
    assert Split(h, '/') == [""] + [a];
    FilterAppend([""], [a], NonEmpty);
  }

  /** The segments of `#/<a>/<b>` for segments without a slash. */
  lemma SegmentsOfPageSlug(a: string, b: string)
    requires a != "" && '/' !in a && b != "" && '/' !in b
    ensures Segments(HashPath("#/" + a + "/" + b)) == [a, b]
  {
    var tail := a + ['/'] + b;
    var h := "" + ['/'] + tail;
    assert HashPath("#/" + a + "/" + b) == h;
    SplitAfterPiece("", '/', tail);
    SplitAfterPiece(a, '/', b);
    SplitNoSep(b, '/');
    var parts := Split(h, '/');
    assert parts == [""] + ([a] + [b]);
    FilterAppend([""], [a] + [b], NonEmpty);
    FilterAppend([a], [b], NonEmpty);
  }

  // ---------------------------------------------------------------------------------------
  // Navigation, read back through the browser

  lemma PrefixesSafe()
    ensures FragmentSafe("#/project/") && FragmentSafe("#/")
  {
  }


  /** The hash of a valid page, and of a slug without characters to encode, is left as it is. */
  lemma NavigateHashSafe(page: string, slug: Option<string>)
    requires page in ValidPages
    requires slug.Some? ==> FragmentSafe(slug.value)
    ensures FragmentSafe(NavigateHash(page, slug))
  {
    PrefixesSafe();
    assert forall k :: 0 <= k < |ValidPages| ==> FragmentSafe(ValidPages[k]);
    if page == "project" && slug.Some? && slug.value != "" {
      SafeAppend("#/project/", slug.value);
    } else if page != "home" {
      SafeAppend("#/", page);
    } else {
      assert NavigateHash(page, slug) == "#/";
    }
  }

  /** The hash navigation assigns for a valid page, or for a project by a slug without a
      slash, selects that page and slug when read back as it was written. */
  lemma NavigateHashRoute(page: string, slug: Option<string>)
    requires page in ValidPages
    requires slug.Some? ==> page == "project" && slug.value != "" && '/' !in slug.value
    ensures ParseHash(NavigateHash(page, slug)) == Route(page, slug)
  {
    if page == "home" {
      EmptyHashIsHome("#/");
    } else {
      if slug.Some? {
        assert NavigateHash(page, slug) == "#/" + page + "/" + slug.value;
        SegmentsOfPageSlug(page, slug.value);
      } else {
        SegmentsOfPage(page);
      }
    }
  }

  /** Navigating to a project by a slug without a slash selects, once the browser has encoded
      the hash, the encoded slug: the slug itself exactly when it has nothing to encode. */
  lemma NavigateEncodesSlug(slug: string)
    requires slug != "" && '/' !in slug && EncodeFragment(slug) != ""
    ensures ParseHash(EncodeFragment(NavigateHash("project", Some(slug))))
         == Route("project", Some(EncodeFragment(slug)))
    ensures EncodeFragment(slug) == slug <==> FragmentSafe(slug)
  {
    var e := EncodeFragment(slug);
    PrefixesSafe();
    EncodeSafePrefix("#/project/", slug);
    NavigateHashRoute("project", Some(e));
    EncodeKeepsExactlySafe(slug);
  }

  /** Navigating to a valid page, or to a project by a slug without a slash and without
      characters the browser encodes, and then reading the hash back selects that page and
      slug. */
  lemma NavigateRoundTrip(page: string, slug: Option<string>)
    requires page in ValidPages
    requires slug.Some? ==> page == "project" && slug.value != "" && '/' !in slug.value && FragmentSafe(slug.value)
    ensures ParseHash(EncodeFragment(NavigateHash(page, slug))) == Route(page, slug)
  {
    NavigateHashSafe(page, slug);
    EncodeKeepsExactlySafe(NavigateHash(page, slug));
    NavigateHashRoute(page, slug);
  }

  /** The pieces of a string without characters to encode have none either. */
  lemma {:induction false} SplitSafe(s: string, sep: char)
    requires FragmentSafe(s)
    ensures forall k :: 0 <= k < |Split(s, sep)| ==> FragmentSafe(Split(s, sep)[k])
  {
    if s != [] {
      SplitSafe(s[1..], sep);
      var rest := Split(s[1..], sep);
      if s[0] != sep {
        SafeAppend([s[0]], rest[0]);
      }
    }
  }

  /** The slug read from a hash as the browser reports it has nothing to encode. */
  lemma ParsedSlugSafe(hash: string)
    requires FragmentSafe(hash)
    ensures ParseHash(hash).slug.Some? ==> FragmentSafe(ParseHash(hash).slug.value)
  {
    var h := HashPath(hash);
    assert FragmentSafe(h);
    var parts := Split(h, '/');
    SplitSafe(h, '/');
    var segs := Segments(h);
    if |segs| >= 2 {
      FilterMembers(parts, NonEmpty, segs[1]);
    }
  }

  /** Every route the router selects from a hash as the browser reports it, other than
      `404`, is written back by navigation as a hash that selects it again. */
  lemma ParsedRouteIsCanonical(hash: string)
    requires FragmentSafe(hash)
    requires ParseHash(hash).page != "404"
    ensures var r := ParseHash(hash); ParseHash(EncodeFragment(NavigateHash(r.page, r.slug))) == r
  {
    var r := ParseHash(hash);
    ParsedSlugSafe(hash);
    NavigateRoundTrip(r.page, r.slug);
  }

  // ---------------------------------------------------------------------------------------
  // The router's state

  /** What the router reads and writes: `window.location.pathname`, `window.location.hash`,
      and the `currentPage` and `projectSlug` state. */
  datatype RouterView = RouterView(pathname: string, hash: string, currentPage: string, projectSlug: Option<string>)

  /** `pathname.replace(/^\//, '')` */
  function DropLeadingSlash(p: string): string
  {
    if p != "" && p[0] == '/' then p[1..] else p
  }

  /** A path other than `/` to move into the hash. */
  predicate NeedsRedirect(v: RouterView)
  {
    v.pathname != "" && v.pathname != "/"
  }

  /** `handleRouteChange`: a path other than `/` is moved into the hash and the path reset,
      with no page chosen; otherwise the page and slug are selected from the hash. */
  function RouteChange(v: RouterView): (w: RouterView)
    ensures w.pathname == "/" || w.pathname == ""
  {
    if NeedsRedirect(v) then
      v.(pathname := "/", hash := EncodeFragment("#/" + DropLeadingSlash(v.pathname)))
    else
      var r := ParseHash(v.hash);
      v.(currentPage := r.page, projectSlug := r.slug)
  }

  /** `handleNavigate`: only the hash changes, to what the browser makes of the hash assigned. */
  function Navigate(v: RouterView, page: string, slug: Option<string>): RouterView
  {
    v.(hash := EncodeFragment(NavigateHash(page, slug)))
  }

  /** A redirect leaves the page and slug as they were and puts the old path, without its
      leading slash, after `#/`; the route change that the new hash triggers then selects
      from that path, and no further redirect follows. */
  lemma RedirectThenRoute(v: RouterView)
    requires NeedsRedirect(v)
    ensures var w := RouteChange(v);
      && w.currentPage == v.currentPage && w.projectSlug == v.projectSlug
      && w.hash == EncodeFragment("#/" + DropLeadingSlash(v.pathname))
      && !NeedsRedirect(w)
      && var r := ParseHash(EncodeFragment("#/" + DropLeadingSlash(v.pathname)));
         RouteChange(w) == RouterView("/", w.hash, r.page, r.slug)
  {
  }

  /** A path such as `/about` or `/project/<slug>` ends up on the page it names. The browser
      reports a path percent-encoded, so the slug in it has nothing left to encode. */
  lemma PathRedirectKeepsRoute(v: RouterView, page: string, slug: Option<string>)
    requires page in ValidPages && page != "home"
    requires slug.Some? ==> page == "project" && slug.value != "" && '/' !in slug.value && FragmentSafe(slug.value)
    requires v.pathname == NavigateHash(page, slug)[1..]
    ensures RouteChange(RouteChange(v)) == v.(pathname := "/", hash := NavigateHash(page, slug),
      currentPage := page, projectSlug := slug)
  {
    var h := NavigateHash(page, slug);
    assert h == "#" + v.pathname;
    assert "#/" + DropLeadingSlash(v.pathname) == h;
    NavigateHashSafe(page, slug);
    EncodeKeepsExactlySafe(h);
    NavigateRoundTrip(page, slug);
  }

  /** Navigation followed by the route change it triggers lands on the page asked for, when
      the path is `/` and the slug has nothing to encode; the hash is then the one assigned. */
  lemma NavigateThenRoute(v: RouterView, page: string, slug: Option<string>)
    requires !NeedsRedirect(v)
    requires page in ValidPages
    requires slug.Some? ==> page == "project" && slug.value != "" && '/' !in slug.value && FragmentSafe(slug.value)
    ensures RouteChange(Navigate(v, page, slug)) ==
      v.(hash := NavigateHash(page, slug), currentPage := page, projectSlug := slug)
  {
    NavigateHashSafe(page, slug);
    EncodeKeepsExactlySafe(NavigateHash(page, slug));
    NavigateRoundTrip(page, slug);
  }

  /** The router of `App`, with the browser location it reads and writes. */
  class Router {
    var pathname: string
    var hash: string
    var currentPage: string
    var projectSlug: Option<string>

    ghost function View(): RouterView
      reads this
    {
      RouterView(pathname, hash, currentPage, projectSlug)
    }

    /** The state on mount, before the first route change: `home` and no slug. */
    constructor(pathname: string, hash: string)
      ensures View() == RouterView(pathname, hash, "home", None)
    {
      this.pathname := pathname;
      this.hash := hash;
      currentPage := "home";
      projectSlug := None;
    }

    method HandleRouteChange()
      modifies this
      ensures View() == RouteChange(old(View()))
    {
      if pathname != "" && pathname != "/" {
        var converted := DropLeadingSlash(pathname);
        pathname := "/";
        hash := EncodeFragment("#/" + converted);
        return;
      }
      var r := ParseHash(hash);
      currentPage := r.page;
      projectSlug := r.slug;
    }

    method HandleNavigate(page: string, slug: Option<string>)
      modifies this
      ensures View() == Navigate(old(View()), page, slug)
    {
      if page == "project" && slug.Some? && slug.value != "" {
        hash := EncodeFragment("#/project/" + slug.value);
      } else {
        hash := EncodeFragment("#/" + (if page == "home" then "" else page));
      }
    }
  }

  // ---------------------------------------------------------------------------------------
  // renderPage

  /** The component `renderPage` returns. */
  datatype Screen =
    | HomeScreen | AboutScreen | ProjectsList | ProjectDetailScreen(slug: string)
    | ContactScreen | AdminScreen | NotFoundScreen

  /** `renderPage`: the page's component; `project` shows the project with a non-empty slug
      and the project list without one; anything that is not a valid page shows NotFound. */
  function RenderPage(page: string, slug: Option<string>): (s: Screen)
    ensures s.NotFoundScreen? <==> page !in ValidPages
    ensures s.ProjectDetailScreen? <==> page == "project" && slug.Some? && slug.value != ""
    ensures s.ProjectDetailScreen? ==> slug == Some(s.slug)
    ensures s == ProjectsList <==> page == "projects" || (page == "project" && (slug.None? || slug.value == ""))
  {
    match page
    case "home" => HomeScreen
    case "about" => AboutScreen
    case "projects" => ProjectsList
    case "project" => if slug.Some? && slug.value != "" then ProjectDetailScreen(slug.value) else ProjectsList
    case "contact" => ContactScreen
    case "admin" => AdminScreen
    case "404" => NotFoundScreen
    case _ => NotFoundScreen
  }

  /** Whatever the hash, the screen shown is NotFound exactly when the router chose `404`,
      and a project page shows the project the hash names. */
  lemma HashRenders(hash: string)
    ensures var r := ParseHash(hash); var s := RenderPage(r.page, r.slug);
      && (s.NotFoundScreen? <==> r.page == "404")
      && (r.slug.Some? ==> s == ProjectDetailScreen(r.slug.value))
  {
  }
}
