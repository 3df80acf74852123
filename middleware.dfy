/** Route gating: every page request passes through, is sent to the login page, or is
    sent to the area that matches the session's role. */
module Middleware {
  import opened Types
  import opened Text
  import Auth

  const PUBLIC_ROUTES: seq<string> := ["/", "/login"]

  /** `NextResponse.next()`, or a redirect to `path` carrying an optional `redirect`
      query parameter. */
  datatype Response = Next | Redirect(path: string, redirectParam: Option<string>)

  /** Whether `c` ends a path segment: URL parsing treats '\\' like '/' in an http(s) URL. */
  predicate IsPathSeparator(c: char) {
    c == '/' || c == '\\'
  }

  /** Whether `s` has no separator in it. */
  predicate NoSeparator(s: string) {
    forall k :: 0 <= k < |s| ==> !IsPathSeparator(s[k])
  }

  /** The segments of the path after its leading '/': the maximal separator-free pieces, in
      order; there is always at least one. */
  function PathSegments(s: string): (r: seq<string>)
    ensures |r| >= 1
    ensures forall i :: 0 <= i < |r| ==> NoSeparator(r[i])
    decreases |s|
  {
    if s == [] then [""]
    else
      var rest := PathSegments(s[1..]);
      if IsPathSeparator(s[0]) then
        assert forall i :: 1 <= i < |[""] + rest| ==> ([""] + rest)[i] == rest[i - 1];
        [""] + rest
      else
        var first := [s[0]] + rest[0];
        var r := [first] + rest[1..];
        assert forall i :: 1 <= i < |r| ==> r[i] == rest[i];
        assert NoSeparator(first) by {
          forall k | 0 <= k < |first| ensures !IsPathSeparator(first[k]) {
            if k > 0 {
              assert first[k] == rest[0][k - 1];
            }
          }
        }
        r
  }

  /** The segments that URL parsing reads as "." and "..", in any case of `%2e`. */
  predicate IsSingleDot(seg: string) {
    seg == "." || seg == "%2e" || seg == "%2E"
  }

  predicate IsDoubleDot(seg: string) {
    seg in {"..", ".%2e", ".%2E", "%2e.", "%2E.", "%2e%2e", "%2e%2E", "%2E%2e", "%2E%2E"}
  }

  /** A segment that can stand in a resolved path: no separator, and neither "." nor "..". */
  predicate IsResolvedSegment(seg: string) {
    NoSeparator(seg) && !IsSingleDot(seg) && !IsDoubleDot(seg)
  }

  /** The path state of URL parsing: an ordinary segment is pushed, "." is dropped and ".."
      removes the last pushed segment; a "." or ".." at the very end leaves an empty last
      segment. The result is never empty when there was a segment to read, and is free of
      dot segments when the stack is and the read segments have no separator. */
  function ResolveSegments(stack: seq<string>, segs: seq<string>): (r: seq<string>)
    ensures segs != [] ==> r != []
    ensures (forall s :: s in stack ==> IsResolvedSegment(s))
            && (forall s :: s in segs ==> NoSeparator(s))
            ==> forall s :: s in r ==> IsResolvedSegment(s)
    decreases |segs|
  {
    if segs == [] then stack
    else
      var seg, final := segs[0], if |segs| == 1 then [""] else [];
      var kept := if stack == [] then stack else stack[..|stack| - 1];
      var next :=
        if IsDoubleDot(seg) then kept + final
        else if IsSingleDot(seg) then stack + final
        else stack + [seg];
      assert IsResolvedSegment("");
      assert forall s :: s in kept ==> s in stack;
      ResolveSegments(next, segs[1..])
  }

  /** Each segment with a '/' in front. */
  function SerializePath(segs: seq<string>): string {
    if segs == [] then "" else "/" + segs[0] + SerializePath(segs[1..])
  }

  /** The pathname of `new URL(p, base)` for a path `p` that starts with a separator: its
      dot segments resolved. */
  function ResolvePath(p: string): (r: string)
    requires |p| > 0 && IsPathSeparator(p[0])
    requires |p| < 2 || !IsPathSeparator(p[1])
    ensures |r| > 0 && r[0] == '/'
    ensures forall s :: s in ResolveSegments([], PathSegments(p[1..])) ==> IsResolvedSegment(s)
  {
    SerializePath(ResolveSegments([], PathSegments(p[1..])))
  }

  /** A slug made only of letters, digits, '-' and '_': URL parsing leaves it as it is. */
  predicate PlainSegment(s: string) {
    forall k :: 0 <= k < |s| ==> ('a' <= s[k] <= 'z' || 'A' <= s[k] <= 'Z' || '0' <= s[k] <= '9'
                                  || s[k] == '-' || s[k] == '_')
  }

  /** The text the template literal puts after "/tenant/": the slug, or "undefined". */
  function SlugText(session: Auth.SessionObject): string {
    if session.tenantSlug.Some? then session.tenantSlug.value else "undefined"
  }

  /** The role-based redirect target for a session on `pathname`, if any: a tenant on the
      dashboard is sent to the URL resolved from "/tenant/" and the slug, a landlord on a
      tenant page to "/dashboard". */
  function RoleRedirect(session: Auth.SessionObject, pathname: string): (r: Option<string>)
    ensures r.Some? <==> (session.role == Some("tenant") && StartsWith(pathname, "/dashboard"))
                         || (session.role == Some("landlord") && StartsWith(pathname, "/tenant"))
    ensures r.Some? ==> |r.value| > 0 && r.value[0] == '/'
  {
    if session.role == Some("tenant") && StartsWith(pathname, "/dashboard") then
      Some(ResolvePath("/tenant/" + SlugText(session)))
    else if session.role == Some("landlord") && StartsWith(pathname, "/tenant") then
      Some("/dashboard")
    else None
  }

  /** A separator-free piece in front of any text stays glued to the first segment. */
  lemma {:induction false} SegmentsPrefix(x: string, t: string)
    requires forall k :: 0 <= k < |x| ==> !IsPathSeparator(x[k])
    ensures PathSegments(x + t) == [x + PathSegments(t)[0]] + PathSegments(t)[1..]
    decreases |x|
  {
    if x != [] {
      assert (x + t)[0] == x[0] && (x + t)[1..] == x[1..] + t;
      SegmentsPrefix(x[1..], t);
      assert [x[0]] + (x[1..] + PathSegments(t)[0]) == x + PathSegments(t)[0];
    } else {
      assert x + t == t;
      assert x + PathSegments(t)[0] == PathSegments(t)[0];
      assert [PathSegments(t)[0]] + PathSegments(t)[1..] == PathSegments(t);
    }
  }

  /** A separator-free text is one segment, and a separator in front adds an empty one. */
  lemma SegmentsOfPiece(x: string)
    requires forall k :: 0 <= k < |x| ==> !IsPathSeparator(x[k])
    ensures PathSegments(x) == [x]
    ensures PathSegments("/" + x) == ["", x]
  {
    SegmentsPrefix(x, "");
    assert x + "" == x;
    assert x + [""][0] == x;
    assert ("/" + x)[0] == '/' && ("/" + x)[1..] == x;
  }

  /** A plain segment is neither "." nor "..". */
  lemma PlainNotDot(slug: string)
    requires PlainSegment(slug)
    ensures !IsDoubleDot(slug) && !IsSingleDot(slug)
  {
    if |slug| > 0 {
      assert slug[0] != '.' && slug[0] != '%';
    }
  }

  /** A tenant page path with a plain slug resolves to itself. */
  lemma PlainTenantPathResolves(slug: string)
    requires PlainSegment(slug)
    ensures ResolvePath("/tenant/" + slug) == "/tenant/" + slug
  {
    PlainTenantSegments(slug);
    PlainSegmentsResolve(slug);
    TenantPathThrough(slug, ["tenant", slug], ["tenant", slug]);
    TenantSerialized(slug);
  }

  lemma TenantSerialized(slug: string)
    ensures SerializePath(["tenant", slug]) == "/tenant/" + slug
  {
    assert SerializePath([slug]) == "/" + slug by {
      assert SerializePath([]) == "";
    }
    assert SerializePath(["tenant", slug]) == "/" + "tenant" + ("/" + slug) by {
      assert ["tenant", slug][1..] == [slug];
    }
  }

  lemma PlainTenantSegments(slug: string)
    requires PlainSegment(slug)
    ensures PathSegments("tenant" + ("/" + slug)) == ["tenant", slug]
  {
    SegmentsOfPiece(slug);
    SegmentsPrefix("tenant", "/" + slug);
    assert "tenant" + "" == "tenant";
  }

  lemma PlainSegmentsResolve(slug: string)
    requires PlainSegment(slug)
    ensures ResolveSegments([], ["tenant", slug]) == ["tenant", slug]
  {
    PlainNotDot(slug);
    PlainNotDot("tenant");
    assert ["tenant", slug][1..] == [slug];
    assert [] + ["tenant"] == ["tenant"];
    assert ResolveSegments([], ["tenant", slug]) == ResolveSegments(["tenant"], [slug]);
    assert ResolveSegments(["tenant"], [slug]) == ResolveSegments(["tenant", slug], []);
  }

  /** The slugs of the demo tenants are plain. */
  lemma DemoSlugsPlain()
    ensures forall e :: e in Auth.MOCK_USERS && e.user.tenantSlug.Some? ==> PlainSegment(e.user.tenantSlug.value)
    ensures PlainSegment("undefined")
  {
    var users := Auth.MOCK_USERS;
    DemoSlugPlain(users[1].user.tenantSlug.value);
    DemoSlugPlain(users[2].user.tenantSlug.value);
    DemoSlugPlain("undefined");
    assert forall e :: e in users ==> e == users[0] || e == users[1] || e == users[2];
  }

  lemma DemoSlugPlain(slug: string)
    requires slug == "portland-oak-st" || slug == "chicago-pine-rd" || slug == "undefined"
    ensures PlainSegment(slug)
  {
  }

  /** The session read from the cookie: none when the cookie is absent or empty. */
  function SessionFrom(cookie: Option<string>, deserialize: string -> Option<Auth.SessionObject>)
    : (r: Option<Auth.SessionObject>)
    ensures cookie.None? || cookie == Some("") ==> r.None?
    ensures r.Some? ==> Auth.Truthy(r.value.userId) && Auth.Truthy(r.value.email) && Auth.Truthy(r.value.role)
    ensures r.Some? ==> deserialize(cookie.value) == r
  {
    if cookie.Some? && cookie.value != "" then Auth.DecodeSession(cookie.value, deserialize) else None
  }

  /** The decision for a request to `pathname` with the session cookie `cookie` (None when
      the request has none). */
  function Middleware(
    pathname: string, cookie: Option<string>, deserialize: string -> Option<Auth.SessionObject>)
    : (r: Response)
    ensures pathname in PUBLIC_ROUTES ==> r == Next
    ensures r.Redirect? && r.redirectParam.Some? <==>
      pathname !in PUBLIC_ROUTES && SessionFrom(cookie, deserialize).None?
    ensures r.Redirect? && r.redirectParam.Some? ==> r == Redirect("/login", Some(pathname))
    ensures r.Redirect? ==> |r.path| > 0 && r.path[0] == '/'
  {
    if pathname in PUBLIC_ROUTES then Next
    else
      var session := SessionFrom(cookie, deserialize);
      if session.None? then Redirect("/login", Some(pathname))
      else
        match RoleRedirect(session.value, pathname)
        case Some(target) => Redirect(target, None)
        case None => Next
  }

  /** "/" and "/login" always pass, whatever the cookie. */
  lemma PublicRoutesPass(
    pathname: string, cookie: Option<string>, deserialize: string -> Option<Auth.SessionObject>)
    requires pathname == "/" || pathname == "/login"
    ensures Middleware(pathname, cookie, deserialize) == Next
  {
  }

  /** Without a usable session any other path goes to the login page, which is told where
      to return. */
  lemma NoSessionGoesToLogin(
    pathname: string, cookie: Option<string>, deserialize: string -> Option<Auth.SessionObject>)
    requires pathname !in PUBLIC_ROUTES
    requires SessionFrom(cookie, deserialize).None?
    ensures Middleware(pathname, cookie, deserialize) == Redirect("/login", Some(pathname))
  {
  }

  /** A tenant asking for the landlord dashboard is sent to the URL resolved from
      "/tenant/" and the slug, which is the tenant's own page when the slug is plain. */
  lemma TenantLeavesDashboard(
    pathname: string, cookie: Option<string>, deserialize: string -> Option<Auth.SessionObject>,
    slug: string)
    requires pathname !in PUBLIC_ROUTES && StartsWith(pathname, "/dashboard")
    requires SessionFrom(cookie, deserialize).Some?
    requires SessionFrom(cookie, deserialize).value.role == Some("tenant")
    requires SessionFrom(cookie, deserialize).value.tenantSlug == Some(slug)
    ensures Middleware(pathname, cookie, deserialize) == Redirect(ResolvePath("/tenant/" + slug), None)
    ensures PlainSegment(slug) ==> Middleware(pathname, cookie, deserialize) == Redirect("/tenant/" + slug, None)
  {
    if PlainSegment(slug) {
      PlainTenantPathResolves(slug);
    }
  }

  /** A landlord asking for a tenant page is sent to the dashboard. */
  lemma LandlordLeavesTenantPages(
    pathname: string, cookie: Option<string>, deserialize: string -> Option<Auth.SessionObject>)
    requires StartsWith(pathname, "/tenant")
    requires SessionFrom(cookie, deserialize).Some?
    requires SessionFrom(cookie, deserialize).value.role == Some("landlord")
    ensures Middleware(pathname, cookie, deserialize) == Redirect("/dashboard", None)
  {
    assert pathname !in PUBLIC_ROUTES by {
      assert pathname[..7] == "/tenant";
    }
  }

  /** Every other request with a session passes. */
  lemma AuthenticatedOtherwisePass(
    pathname: string, cookie: Option<string>, deserialize: string -> Option<Auth.SessionObject>)
    requires SessionFrom(cookie, deserialize).Some?
    requires !(SessionFrom(cookie, deserialize).value.role == Some("tenant") && StartsWith(pathname, "/dashboard"))
    requires !(SessionFrom(cookie, deserialize).value.role == Some("landlord") && StartsWith(pathname, "/tenant"))
    ensures Middleware(pathname, cookie, deserialize) == Next
  {
  }

  /** No redirect loop for a session whose slug, if it has one, is plain (as every demo
      tenant's is): following any redirect with the same cookie is let through. */
  lemma RedirectTargetPasses(
    pathname: string, cookie: Option<string>, deserialize: string -> Option<Auth.SessionObject>)
    requires Middleware(pathname, cookie, deserialize).Redirect?
    requires SessionFrom(cookie, deserialize).Some? && SessionFrom(cookie, deserialize).value.tenantSlug.Some?
             ==> PlainSegment(SessionFrom(cookie, deserialize).value.tenantSlug.value)
    ensures Middleware(Middleware(pathname, cookie, deserialize).path, cookie, deserialize) == Next
  {
    var target := Middleware(pathname, cookie, deserialize).path;
    var session := SessionFrom(cookie, deserialize);
    if target != "/login" {
      assert session.Some?;
      var s := session.value;
      if s.role == Some("tenant") {
        DemoSlugsPlain();
        PlainTenantPathResolves(SlugText(s));
        TenantPagePasses(SlugText(s), cookie, deserialize);
      } else {
        assert target == "/dashboard";
        assert target[1] == 'd';
      }
    }
  }

  /** A tenant's own page is let through for that tenant. */
  lemma TenantPagePasses(
    slug: string, cookie: Option<string>, deserialize: string -> Option<Auth.SessionObject>)
    requires SessionFrom(cookie, deserialize).Some?
    requires SessionFrom(cookie, deserialize).value.role == Some("tenant")
    ensures Middleware("/tenant/" + slug, cookie, deserialize) == Next
  {
    var target := "/tenant/" + slug;
    assert target[1] == 't';
    assert !StartsWith(target, "/dashboard");
  }

  /** A cookie is decoded without any check of the slug, so a slug that climbs out of
      "/tenant/" sends a tenant on "/dashboard" back to "/dashboard", again and again. */
  lemma DotSlugRedirectLoops(cookie: Option<string>, deserialize: string -> Option<Auth.SessionObject>)
    requires SessionFrom(cookie, deserialize).Some?
    requires SessionFrom(cookie, deserialize).value.role == Some("tenant")
    requires SessionFrom(cookie, deserialize).value.tenantSlug == Some("../dashboard")
    ensures Middleware("/dashboard", cookie, deserialize) == Redirect("/dashboard", None)
  {
    DotSlugResolves("../dashboard");
    assert StartsWith("/dashboard", "/dashboard");
  }

  /** "/tenant/../dashboard" resolves to "/dashboard". */
  lemma DotSlugResolves(slug: string)
    requires slug == "../dashboard"
    ensures ResolvePath("/tenant/" + slug) == "/dashboard"
  {
    DotSlugTenantSegments(slug);
    ClimbsToDashboard(slug);
    DashboardSerialized();
  }

  /** A slug whose tenant path has the segments "tenant", ".." and "dashboard" leads to
      the single segment "dashboard". */
  lemma ClimbsToDashboard(slug: string)
    requires PathSegments("tenant" + ("/" + slug)) == ["tenant", "..", "dashboard"]
    ensures ResolvePath("/tenant/" + slug) == SerializePath(["dashboard"])
  {
    DotSegmentsResolve();
    TenantPathThrough(slug, ["tenant", "..", "dashboard"], ["dashboard"]);
  }

  lemma DashboardSerialized()
    ensures SerializePath(["dashboard"]) == "/dashboard"
  {
    assert SerializePath([]) == "";
  }

  lemma DotSlugTenantSegments(slug: string)
    requires slug == "../dashboard"
    ensures PathSegments("tenant" + ("/" + slug)) == ["tenant", "..", "dashboard"]
  {
    assert slug == ".." + ("/" + "dashboard");
    DotSlugSegments();
  }

  /** A tenant path resolves to its resolved segments, serialized. */
  lemma TenantPathThrough(slug: string, segs: seq<string>, resolved: seq<string>)
    requires PathSegments("tenant" + ("/" + slug)) == segs && ResolveSegments([], segs) == resolved
    ensures ResolvePath("/tenant/" + slug) == SerializePath(resolved)
  {
    var p := "/tenant/" + slug;
    assert p[1] == 't' && p[1..] == "tenant" + ("/" + slug);
  }

  lemma DotSlugSegments()
    ensures PathSegments("tenant" + ("/" + (".." + ("/" + "dashboard")))) == ["tenant", "..", "dashboard"]
  {
    var a := ".." + ("/" + "dashboard");
    UpDashboardSegments();
    SegmentsPrefix("tenant", "/" + a);
    assert "tenant" + "" == "tenant";
  }

  lemma UpDashboardSegments()
    ensures PathSegments("/" + (".." + ("/" + "dashboard"))) == ["", "..", "dashboard"]
  {
    var a := ".." + ("/" + "dashboard");
    DotDotDashboardSegments();
    assert ("/" + a)[0] == '/' && ("/" + a)[1..] == a;
  }

  lemma DotDotDashboardSegments()
    ensures PathSegments(".." + ("/" + "dashboard")) == ["..", "dashboard"]
  {
    SegmentsOfPiece("dashboard");
    DotDotInFront("/" + "dashboard", "dashboard");
  }

  /** ".." glued in front of a path made of an empty segment and `x`. */
  lemma DotDotInFront(d: string, x: string)
    requires PathSegments(d) == ["", x]
    ensures PathSegments(".." + d) == ["..", x]
  {
    SegmentsPrefix("..", d);
    assert ".." + "" == "..";
  }

  lemma DotSegmentsResolve()
    ensures ResolveSegments([], ["tenant", "..", "dashboard"]) == ["dashboard"]
  {
    PlainNotDot("tenant");
    PlainNotDot("dashboard");
    assert IsDoubleDot("..");
    assert ["tenant", "..", "dashboard"][1..] == ["..", "dashboard"];
    assert ["..", "dashboard"][1..] == ["dashboard"];
    assert ResolveSegments([], ["tenant", "..", "dashboard"]) == ResolveSegments(["tenant"], ["..", "dashboard"]);
    assert ResolveSegments(["tenant"], ["..", "dashboard"]) == ResolveSegments([], ["dashboard"]);
    assert ResolveSegments([], ["dashboard"]) == ResolveSegments(["dashboard"], []);
  }
}
