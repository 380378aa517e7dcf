/** The request proxy that guards the seller and account pages: a path under
    either prefix needs a signed-in user, and a visitor without one is sent to
    the login page with the path to come back to. The session refresh and the
    user lookup are outside the model; the user is a parameter. */
module Proxy {
  import opened Common
  import opened Strings

  const PROTECTED_PREFIXES: seq<string> := ["/seller", "/account"]
  const LOGIN_PATH := "/login"

  /** The response: the refreshed session response, or a redirect to `pathname`
      with the `next` query parameter. */
  datatype Decision = PassThrough | Redirect(pathname: string, next: string)

  /** A plain string-prefix test, so "/sellers" and "/accounting" are protected too. */
  predicate IsProtected(path: string) {
    exists k :: 0 <= k < |PROTECTED_PREFIXES| && StartsWith(path, PROTECTED_PREFIXES[k])
  }

  function Decide(path: string, user: Option<Id>): (d: Decision)
    ensures d.Redirect? <==> IsProtected(path) && user.None?
    ensures d.Redirect? ==> d == Redirect(LOGIN_PATH, path)
  {
    if !IsProtected(path) then PassThrough
    else if user.None? then Redirect(LOGIN_PATH, path)
    else PassThrough
  }

  /** Whether a path is protected, stated without the prefix list. */
  lemma ProtectedIff(path: string)
    ensures IsProtected(path) <==> StartsWith(path, "/seller") || StartsWith(path, "/account")
  {
    if StartsWith(path, "/seller") {
      assert StartsWith(path, PROTECTED_PREFIXES[0]);
    }
    if StartsWith(path, "/account") {
      assert StartsWith(path, PROTECTED_PREFIXES[1]);
    }
  }

  /** An unprotected path does not depend on the user, and a protected one with
      a user gets the same response. */
  lemma UserOnlyMattersWhenProtected(path: string, u1: Option<Id>, u2: Option<Id>)
    ensures !IsProtected(path) ==> Decide(path, u1) == Decide(path, u2) == PassThrough
    ensures u1.Some? ==> Decide(path, u1) == PassThrough
  {
  }

  /** The login page is not protected, so the redirect target is always served
      and a redirect cannot repeat itself; a sibling path sharing the prefix is
      protected. */
  lemma LoginNotProtected(user: Option<Id>)
    ensures !IsProtected(LOGIN_PATH)
    ensures Decide(LOGIN_PATH, user) == PassThrough
    ensures IsProtected("/sellers")
  {
    ProtectedIff(LOGIN_PATH);
    ProtectedIff("/sellers");
    assert "/sellers"[..|"/seller"|] == "/seller";
  }
}
