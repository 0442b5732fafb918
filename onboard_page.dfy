/**
 * The onboarding form of a new business: the URL slug it proposes from the
 * business name, and the message it shows when setting up fails.
 */
module OnboardPage {
  import opened Wrappers
  import opened Text

  /** `[a-z0-9]` */
  predicate IsSlugChar(c: char) {
    IsLower(c) || IsDigit(c)
  }

  predicate NotSlugChar(c: char) {
    !IsSlugChar(c)
  }

  /** `.replace(/(^-|-$)/g, '')`: one dash taken off each end. */
  function StripDashes(s: string): (r: string)
    ensures |r| <= |s|
  {
    var a := if s != [] && s[0] == '-' then s[1..] else s;
    if a != [] && a[|a| - 1] == '-' then a[..|a| - 1] else a
  }

  /** `name.toLowerCase().replace(/[^a-z0-9]+/g, '-').replace(/(^-|-$)/g, '')` */
  function Slug(name: string): string {
    StripDashes(ReplaceRuns(Lower(name), NotSlugChar, '-'))
  }

  /** A well-formed slug: letters, digits and single dashes between them. */
  predicate SlugShape(s: string) {
    && (forall i :: 0 <= i < |s| ==> IsSlugChar(s[i]) || s[i] == '-')
    && (s != [] ==> s[0] != '-' && s[|s| - 1] != '-')
    && (forall i :: 0 <= i < |s| - 1 ==> !(s[i] == '-' && s[i + 1] == '-'))
  }

  /** Letters, digits and dashes, never two dashes in a row. */
  predicate DashSeparated(d: string) {
    && (forall i :: 0 <= i < |d| ==> IsSlugChar(d[i]) || d[i] == '-')
    && (forall i :: 0 <= i < |d| - 1 ==> !(d[i] == '-' && d[i + 1] == '-'))
  }

  /** The dash-separated string, before its ends are trimmed. */
  lemma Dashed(name: string)
    ensures DashSeparated(ReplaceRuns(Lower(name), NotSlugChar, '-'))
  {
    var d := ReplaceRuns(Lower(name), NotSlugChar, '-');
    ReplaceRunsChars(Lower(name), NotSlugChar, '-');
    ReplaceRunsNoDouble(Lower(name), NotSlugChar, '-');
  }

  /** Trimming the ends of a dash-separated string leaves a well-formed slug. */
  lemma StripShape(d: string)
    requires DashSeparated(d)
    ensures SlugShape(StripDashes(d))
  {
    var a := if d != [] && d[0] == '-' then d[1..] else d;
    assert forall i :: 0 <= i < |a| - 1 ==> !(a[i] == '-' && a[i + 1] == '-');
    assert a != [] ==> a[0] != '-';
  }

  /**
   * A slug holds only `a`–`z`, `0`–`9` and `-`, never starts or ends with a
   * dash, and never holds two dashes in a row.
   */
  lemma SlugIsWellFormed(name: string)
    ensures SlugShape(Slug(name))
  {
    Dashed(name);
    StripShape(ReplaceRuns(Lower(name), NotSlugChar, '-'));
  }

  /** A leading dash contributes no letter or digit. */
  lemma DropFirstDash(d: string)
    requires d != [] && d[0] == '-'
    ensures Keep(d[1..], IsSlugChar) == Keep(d, IsSlugChar)
  {
  }

  /** Nor does a trailing one. */
  lemma DropLastDash(a: string)
    requires a != [] && a[|a| - 1] == '-'
    ensures Keep(a[..|a| - 1], IsSlugChar) == Keep(a, IsSlugChar)
  {
    var b := a[..|a| - 1];
    assert b + ['-'] == a;
    KeepConcat(b, ['-'], IsSlugChar);
    KeepSingleton('-', IsSlugChar);
  }

  /** Trimming the end dashes keeps every letter and digit. */
  lemma StripKeeps(d: string)
    ensures Keep(StripDashes(d), IsSlugChar) == Keep(d, IsSlugChar)
  {
    var a := if d != [] && d[0] == '-' then d[1..] else d;
    if d != [] && d[0] == '-' {
      DropFirstDash(d);
    }
    if a != [] && a[|a| - 1] == '-' {
      DropLastDash(a);
    }
  }

  /** The letters and digits of the lower-cased name appear in the slug, all of them and in order. */
  lemma SlugKeepsLettersAndDigits(name: string)
    ensures Keep(Slug(name), IsSlugChar) == Keep(Lower(name), IsSlugChar)
  {
    ReplaceRunsKeeps(Lower(name), NotSlugChar, '-', IsSlugChar);
    StripKeeps(ReplaceRuns(Lower(name), NotSlugChar, '-'));
  }

  /** A well-formed slug is its own slug. */
  lemma SlugOfSlug(s: string)
    requires SlugShape(s)
    ensures Slug(s) == s
  {
    assert Lower(s) == s;
    ReplaceRunsFixed(s, NotSlugChar, '-');
  }

  /** Generating the slug again from a slug changes nothing. */
  lemma SlugIdempotent(name: string)
    ensures Slug(Slug(name)) == Slug(name)
  {
    SlugIsWellFormed(name);
    SlugOfSlug(Slug(name));
  }

  // --------------------------------------------------------------- errors

  /** The `error` field of `onboardTenant`'s answer: a string, or some other value. */
  datatype SetupError = TextError(message: string) | OtherError

  /** What the form does after `onboardTenant` answers. */
  datatype Submitted = ShowError(message: string) | GoToDashboard

  /**
   * `if (result.error)`: a non-string error shows 'Setup failed', a
   * non-empty message is shown as it is, and an empty message is falsy, so
   * the form moves on as if setting up had worked.
   */
  function AfterSetup(error: Option<SetupError>): (r: Submitted)
    ensures error == Some(OtherError) ==> r == ShowError("Setup failed")
    ensures r.ShowError? ==> r.message != ""
    ensures r == GoToDashboard <==> error.None? || error == Some(TextError(""))
  {
    match error
    case None => GoToDashboard
    case Some(OtherError) => ShowError("Setup failed")
    case Some(TextError(m)) => if m == "" then GoToDashboard else ShowError(m)
  }
}
