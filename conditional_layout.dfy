/**
 * The root layout switch: the navbar and the footer are shown on every page
 * except the authentication pages, decided by exact membership of the
 * current pathname in a fixed list.
 *
 * The list as written has "email-verified" without its leading slash. A
 * pathname always starts with '/', so that entry never matches and the
 * email-verified page keeps the navbar and footer. `ShowLayoutAsWritten`
 * models the list as written and `ShowLayout` the list with "/email-verified".
 */
module ConditionalLayout {
  const ExcludedPathsAsWritten := ["/signup", "/login", "/forgot-password", "/reset-password", "email-verified"]

  const ExcludedPaths := ["/signup", "/login", "/forgot-password", "/reset-password", "/email-verified"]

  /** A pathname as the router reports it. */
  predicate IsPathname(p: string)
  {
    |p| >= 1 && p[0] == '/'
  }

  function ShowLayoutAsWritten(pathname: string): bool
  {
    !(pathname in ExcludedPathsAsWritten)
  }

  /** With the corrected list, every pathname that hides the layout is one the router can report. */
  function ShowLayout(pathname: string): (show: bool)
    ensures !show ==> IsPathname(pathname)
  {
    !(pathname in ExcludedPaths)
  }

  /** The entry without a slash can never match a pathname. */
  lemma UnslashedEntryNeverMatches(pathname: string)
    requires IsPathname(pathname)
    ensures pathname != ExcludedPathsAsWritten[4]
  {
    assert ExcludedPathsAsWritten[4][0] == 'e';
  }

  /**
   * On every pathname the list as written behaves as the intended one,
   * except that "/email-verified" shows the layout.
   */
  lemma AsWrittenDiffersOnlyOnEmailVerified(pathname: string)
    requires IsPathname(pathname)
    ensures ShowLayoutAsWritten(pathname) <==> ShowLayout(pathname) || pathname == ExcludedPaths[4]
  {
    UnslashedEntryNeverMatches(pathname);
  }

  /** The counterexample: the email-verified page keeps its navbar and footer as written. */
  lemma EmailVerifiedShowsLayout(pathname: string)
    requires pathname == "/email-verified"
    ensures ShowLayoutAsWritten(pathname) && !ShowLayout(pathname)
  {
    assert pathname == ExcludedPaths[4];
    UnslashedEntryNeverMatches(pathname);
    assert pathname != ExcludedPathsAsWritten[0] && pathname != ExcludedPathsAsWritten[1];
    assert pathname != ExcludedPathsAsWritten[2] && pathname != ExcludedPathsAsWritten[3];
  }

  /** Matching is exact: any pathname with a trailing slash shows the layout, in both lists. */
  lemma TrailingSlashShowsLayout(pathname: string)
    requires |pathname| >= 2 && pathname[|pathname| - 1] == '/'
    ensures ShowLayout(pathname) && ShowLayoutAsWritten(pathname)
  {
    assert forall k :: 0 <= k < |ExcludedPaths| ==> ExcludedPaths[k][|ExcludedPaths[k]| - 1] != '/';
    assert forall k :: 0 <= k < |ExcludedPathsAsWritten| ==>
      ExcludedPathsAsWritten[k][|ExcludedPathsAsWritten[k]| - 1] != '/';
  }
}
