/**
 * The route-protection gate placed in front of every request: when the
 * path starts with one of the protected prefixes and the caller has no
 * session token, the request is redirected to the sign-in dialog on the
 * home page; otherwise it is handed to the wrapped middleware.
 *
 * The session lookup is an input (`hasToken`), and the decision records
 * whether the gate consulted it at all.
 */
module ProtectedRoutes {

  /** Path and query of the sign-in redirect target. */
  const SignInTarget: string := "/?signin=true"
  /** The prefixes the application protects. */
  const AppPrefixes: seq<string> := ["/mastering", "/library"]

  /** What the gate does with a request; a redirect carries the requested URL as `callbackUrl`. */
  datatype Outcome =
    | Redirect(target: string, callbackUrl: string)
    | Delegated

  /** The outcome, and whether the session token was looked up on the way. */
  datatype Decision = Decision(outcome: Outcome, tokenRead: bool)

  /** The path falls under one of the prefixes: a raw string prefix, not a path segment. */
  ghost predicate Protected(requireAuth: seq<string>, pathname: string) {
    exists i :: 0 <= i < |requireAuth| && requireAuth[i] <= pathname
  }

  /** `requireAuth.some(path => pathName.startsWith(path))`, scanning from the front. */
  function AnyPrefix(requireAuth: seq<string>, pathname: string): (found: bool)
    ensures found <==> Protected(requireAuth, pathname)
  {
    if requireAuth == [] then false
    else if requireAuth[0] <= pathname then true
    else
      var rest := AnyPrefix(requireAuth[1..], pathname);
      assert Protected(requireAuth[1..], pathname) ==> Protected(requireAuth, pathname) by {
        if Protected(requireAuth[1..], pathname) {
          var i :| 0 <= i < |requireAuth[1..]| && requireAuth[1..][i] <= pathname;
          assert requireAuth[i + 1] <= pathname;
        }
      }
      rest
  }

  /**
   * The gate: looks the token up only for a protected path, redirects when
   * it is missing, and delegates in every other case.
   */
  function Gate(requireAuth: seq<string>, pathname: string, requestUrl: string, hasToken: bool): (d: Decision)
    ensures d.tokenRead <==> Protected(requireAuth, pathname)
    ensures d.outcome.Redirect? <==> Protected(requireAuth, pathname) && !hasToken
    ensures d.outcome.Redirect? ==> d.outcome.target == SignInTarget && d.outcome.callbackUrl == requestUrl
  {
    if AnyPrefix(requireAuth, pathname) then
      if !hasToken then Decision(Redirect(SignInTarget, requestUrl), true)
      else Decision(Delegated, true)
    else Decision(Delegated, false)
  }

  /** With the default empty list the gate never redirects and never reads the token. */
  lemma EmptyListNeverRedirects(pathname: string, requestUrl: string, hasToken: bool)
    ensures Gate([], pathname, requestUrl, hasToken) == Decision(Delegated, false)
  {
  }

  /** A signed-in caller is never redirected, whatever the list and the path. */
  lemma TokenHolderPasses(requireAuth: seq<string>, pathname: string, requestUrl: string)
    ensures Gate(requireAuth, pathname, requestUrl, true).outcome == Delegated
  {
  }

  /** Any path extending a listed prefix is protected, `/masteringX` included. */
  lemma RawPrefixProtects(requireAuth: seq<string>, i: nat, suffix: string, requestUrl: string)
    requires i < |requireAuth|
    ensures Gate(requireAuth, requireAuth[i] + suffix, requestUrl, false).outcome
      == Redirect(SignInTarget, requestUrl)
  {
    assert requireAuth[i] <= requireAuth[i] + suffix;
  }

  /** The application's list: `/masteringX` is protected, although it is no sub-path of `/mastering`. */
  lemma MasteringLookalikeIsProtected(requestUrl: string)
    ensures Gate(AppPrefixes, "/masteringX", requestUrl, false).outcome.Redirect?
  {
    RawPrefixProtects(AppPrefixes, 0, "X", requestUrl);
    assert AppPrefixes[0] + "X" == "/masteringX";
  }

  /** The outcome depends only on which prefixes are listed, not on their order or repetition. */
  lemma OrderIndependent(a: seq<string>, b: seq<string>, pathname: string, requestUrl: string, hasToken: bool)
    requires forall p :: p in a <==> p in b
    ensures Gate(a, pathname, requestUrl, hasToken) == Gate(b, pathname, requestUrl, hasToken)
  {
    SameSetProtects(a, b, pathname);
    SameSetProtects(b, a, pathname);
  }

  lemma SameSetProtects(a: seq<string>, b: seq<string>, pathname: string)
    requires forall p :: p in a <==> p in b
    ensures Protected(a, pathname) ==> Protected(b, pathname)
  {
    if Protected(a, pathname) {
      var i :| 0 <= i < |a| && a[i] <= pathname;
      assert a[i] in b;
      var j :| 0 <= j < |b| && b[j] == a[i];
    }
  }

  /** An empty prefix in the list protects every path. */
  lemma EmptyPrefixProtectsAll(requireAuth: seq<string>, pathname: string, requestUrl: string)
    requires "" in requireAuth
    ensures Gate(requireAuth, pathname, requestUrl, false).outcome.Redirect?
  {
    var i :| 0 <= i < |requireAuth| && requireAuth[i] == "";
  }

  /** For the application's list, exactly the paths under `/mastering` or `/library` are protected. */
  lemma AppPrefixesProtect(pathname: string, requestUrl: string, hasToken: bool)
    ensures Gate(AppPrefixes, pathname, requestUrl, hasToken).tokenRead
      <==> "/mastering" <= pathname || "/library" <= pathname
  {
    assert AppPrefixes[0] == "/mastering" && AppPrefixes[1] == "/library";
  }

  /** The sign-in target's path `/` is not protected by the application, so the redirect cannot loop. */
  lemma SignInTargetNotProtected(requestUrl: string, hasToken: bool)
    ensures Gate(AppPrefixes, "/", requestUrl, hasToken) == Decision(Delegated, false)
  {
    AppPrefixesProtect("/", requestUrl, hasToken);
    assert !("/mastering" <= "/") && !("/library" <= "/");
  }
}
