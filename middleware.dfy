/** The route guard of middleware.ts: from the request path and whether the request
    carries a signed-in user, decide to let the request through or to redirect it. The
    cookie plumbing around the decision is not part of this module. */
module Middleware {

  predicate StartsWith(path: string, prefix: string) {
    |prefix| <= |path| && path[..|prefix|] == prefix
  }

  /** Sign-in, sign-up and password pages: every path under the `/auth` prefix. */
  predicate IsAuthPage(path: string) {
    StartsWith(path, "/auth")
  }

  /** Pages that need a user: a pure prefix test, so `/writer` counts as well. */
  predicate IsProtectedPage(path: string) {
    StartsWith(path, "/write") || StartsWith(path, "/profile")
  }

  const HomePath: string := "/"
  const LoginPath: string := "/auth/login"

  datatype Decision = PassThrough | Redirect(target: string)

  function Decide(path: string, authenticated: bool): (r: Decision)
    ensures r == Redirect(HomePath) <==> IsAuthPage(path) && authenticated
    ensures r == Redirect(LoginPath) <==> IsProtectedPage(path) && !authenticated
    ensures r == PassThrough <==>
              !(IsAuthPage(path) && authenticated) && !(IsProtectedPage(path) && !authenticated)
  {
    if IsAuthPage(path) && authenticated then Redirect(HomePath)
    else if IsProtectedPage(path) && !authenticated then Redirect(LoginPath)
    else PassThrough
  }

  /** No path is both an auth page and a protected page. */
  lemma AuthAndProtectedDisjoint(path: string)
    ensures !(IsAuthPage(path) && IsProtectedPage(path))
  {
    if IsAuthPage(path) {
      assert path[1] == "/auth"[1];
    }
  }

  /** A signed-in user is never sent to the login page and an anonymous one never to
      the home page. */
  lemma RedirectsMatchTheUser(path: string)
    ensures Decide(path, true) != Redirect(LoginPath)
    ensures Decide(path, false) != Redirect(HomePath)
  {
  }

  /** Following a redirect never redirects again: the home page is open to a signed-in
      user and the login page to an anonymous one. */
  lemma NoRedirectLoop(path: string, authenticated: bool)
    requires Decide(path, authenticated).Redirect?
    ensures Decide(Decide(path, authenticated).target, authenticated) == PassThrough
  {
    if authenticated {
      assert !IsAuthPage(HomePath);
      assert !IsProtectedPage(HomePath);
    } else {
      assert LoginPath[..|"/write"|] != "/write" by { assert LoginPath[1] != "/write"[1]; }
      assert LoginPath[..|"/profile"|] != "/profile" by { assert LoginPath[1] != "/profile"[1]; }
    }
  }

  /** The prefix tests are plain string prefixes. */
  lemma PrefixExamples()
    ensures IsProtectedPage("/writer") && IsProtectedPage("/write/123")
    ensures IsAuthPage("/authority") && !IsAuthPage("/") && !IsProtectedPage("/post/1")
    ensures Decide("/writer", false) == Redirect(LoginPath)
  {
    assert "/writer"[..6] == "/write";
    assert "/write/123"[..6] == "/write";
    assert "/authority"[..5] == "/auth";
    assert "/post/1"[..5] != "/auth" by { assert "/post/1"[1] != "/auth"[1]; }
    assert "/post/1"[..6] != "/write" by { assert "/post/1"[1] != "/write"[1]; }
    assert "/post/1"[..7] != "/profile" by { assert "/post/1"[2] != "/profile"[2]; }
  }
}
