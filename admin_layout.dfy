/**
 * The admin console's frame: which sidebar entry is highlighted, the name
 * and initials shown for the signed-in user, and when a user without a
 * business is sent to onboarding.
 */
module AdminLayout {
  import opened Wrappers
  import opened Text
  import opened Domain
  import opened Names

  /** The sidebar's links, in order. */
  const NavHrefs: seq<string> := ["/admin", "/admin/appointments", "/admin/services", "/admin/staff",
                                  "/admin/schedules", "/admin/calls", "/admin/ai-agent", "/admin/settings"]

  const OnboardPath := "/admin/onboard"

  /** `isActive(href)`: the dashboard link only on the dashboard itself, any other link on every page below it. */
  function IsActive(pathname: string, href: string): (b: bool)
    ensures href == "/admin" ==> (b <==> pathname == "/admin")
    ensures href != "/admin" ==> (b <==> |href| <= |pathname| && pathname[..|href|] == href)
  {
    if href == "/admin" then pathname == "/admin" else StartsWith(pathname, href)
  }

  /** Two prefixes of one string: the shorter is a prefix of the longer. */
  lemma PrefixOfPrefix(p: string, a: string, b: string)
    requires StartsWith(p, a) && StartsWith(p, b) && |a| <= |b|
    ensures b[..|a|] == a
  {
    assert b[..|a|] == p[..|a|];
  }

  /** No sidebar link below the dashboard starts with another one. */
  lemma NavPrefixFree(i: int, j: int)
    requires 1 <= i < |NavHrefs| && 1 <= j < |NavHrefs| && i != j
    ensures |NavHrefs[i]| <= |NavHrefs[j]| ==> NavHrefs[j][..|NavHrefs[i]|] != NavHrefs[i]
  {
    var a := NavHrefs[i];
    var b := NavHrefs[j];
    if |a| <= |b| {
      assert a[7] != b[7] || a[8] != b[8] || a[9] != b[9] || a[10] != b[10];
    }
  }

  /** Whatever the page, at most one sidebar entry is highlighted. */
  lemma OneActive(pathname: string, i: int, j: int)
    requires 0 <= i < j < |NavHrefs|
    ensures !(IsActive(pathname, NavHrefs[i]) && IsActive(pathname, NavHrefs[j]))
  {
    if i > 0 && IsActive(pathname, NavHrefs[i]) && IsActive(pathname, NavHrefs[j]) {
      if |NavHrefs[i]| <= |NavHrefs[j]| {
        PrefixOfPrefix(pathname, NavHrefs[i], NavHrefs[j]);
        NavPrefixFree(i, j);
      } else {
        PrefixOfPrefix(pathname, NavHrefs[j], NavHrefs[i]);
        NavPrefixFree(j, i);
      }
    }
  }

  // -------------------------------------------------------------- user

  /** The signed-in user as the auth library returns it. */
  datatype AuthUser = AuthUser(email: Option<string>, metadataFullName: Option<string>)

  /** `authUser.user_metadata?.full_name || authUser.email?.split('@')[0]` */
  function FullName(u: AuthUser): Option<string> {
    if TruthyString(u.metadataFullName) then u.metadataFullName
    else match u.email
      case None => None
      case Some(e) => Some(Split(e, '@')[0])
  }

  /** `user?.full_name || 'Admin'`, with `user` absent until the user is read. */
  function DisplayName(user: Option<AuthUser>): (name: string)
    ensures name != ""
  {
    match user
    case None => "Admin"
    case Some(u) => StringOr(FullName(u), "Admin")
  }

  /**
   * Without a name in the metadata the part of the e-mail before the `@`
   * is shown, and 'Admin' when that part is empty or there is no e-mail.
   */
  lemma DisplayNameFromEmail(local: string, domain: string)
    requires '@' !in local
    ensures DisplayName(Some(AuthUser(Some(local + "@" + domain), None))) == (if local != "" then local else "Admin")
    ensures DisplayName(Some(AuthUser(None, None))) == "Admin"
  {
    SplitAround(local, domain, '@');
    assert local + "@" + domain == local + ['@'] + domain;
  }

  /** The sidebar's initials: two at most, upper-case, from the display name. */
  function UserInitials(user: Option<AuthUser>): (r: string)
    ensures |r| <= 2 && NoLower(r)
  {
    Initials(DisplayName(user))
  }

  /** Until the user is read, the badge shows 'Admin' and the initial 'A'. */
  lemma UnknownUserInitials()
    ensures DisplayName(None) == "Admin"
    ensures UserInitials(None) == "A"
  {
    SplitNoSep("Admin", ' ');
    assert Heads(["Admin"]) == "A" by {
      assert ["Admin"][1..] == [];
    }
  }

  // ---------------------------------------------------------- redirect

  /**
   * The onboarding redirect: a signed-in user whose profile row exists but
   * has no tenant is sent to onboarding, unless already there.
   */
  function ShouldRedirect(signedIn: bool, profileTenant: Option<Option<string>>, pathname: string): (b: bool)
    ensures b ==> signedIn && profileTenant.Some? && pathname != OnboardPath
  {
    signedIn && profileTenant.Some? && !TruthyString(profileTenant.value) && pathname != OnboardPath
  }

  /**
   * A user with a tenant, or without a profile row, is never redirected,
   * and once on the onboarding page there is no further redirect.
   */
  lemma RedirectSettles(signedIn: bool, profileTenant: Option<Option<string>>, pathname: string)
    ensures profileTenant.Some? && TruthyString(profileTenant.value) ==> !ShouldRedirect(signedIn, profileTenant, pathname)
    ensures ShouldRedirect(signedIn, profileTenant, pathname) ==> !ShouldRedirect(signedIn, profileTenant, OnboardPath)
  {
  }
}
