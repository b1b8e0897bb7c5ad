/** The URL slug both category routes and the product route derive from a
    name:

      name.toLowerCase().replace(/[^a-z0-9]+/g, '-').replace(/(^-|-$)+/g, '')

    Lowercasing is restricted to ASCII letters (see Text.Lower). */
module Slug {
  import opened Common
  import opened Text

  predicate IsSlugChar(c: char) { IsLowerAlnum(c) || c == '-' }

  /** The characters of a string that survive into its slug, in order. */
  function Alnums(s: string): string {
    Filter(s, IsLowerAlnum)
  }

  /** The shape every slug has: only `[a-z0-9-]`, no dash at either end,
      never two dashes in a row. */
  predicate IsSlugShaped(s: string) {
    && (forall i :: 0 <= i < |s| ==> IsSlugChar(s[i]))
    && (|s| > 0 ==> s[0] != '-' && s[|s| - 1] != '-')
    && (forall i :: 0 <= i < |s| - 1 ==> !(s[i] == '-' && s[i + 1] == '-'))
  }

  /** Only `[a-z0-9-]` and no doubled dash: what the first `replace` leaves. */
  predicate IsDashSeparated(s: string) {
    && (forall i :: 0 <= i < |s| ==> IsSlugChar(s[i]))
    && (forall i :: 0 <= i < |s| - 1 ==> !(s[i] == '-' && s[i + 1] == '-'))
  }

  /** Drops the maximal leading run of characters outside `[a-z0-9]`. */
  function SkipRun(s: string): (r: string)
    ensures |r| <= |s| && r == s[|s| - |r|..]
    ensures forall i :: 0 <= i < |s| - |r| ==> !IsLowerAlnum(s[i])
    ensures |r| > 0 ==> IsLowerAlnum(r[0])
    ensures Alnums(r) == Alnums(s)
  {
    if |s| > 0 && !IsLowerAlnum(s[0]) then SkipRun(s[1..]) else s
  }

  /** `.replace(/[^a-z0-9]+/g, '-')`: every maximal run of characters
      outside `[a-z0-9]` becomes a single dash. */
  function ReplaceRuns(s: string): (r: string)
    ensures IsDashSeparated(r)
    ensures |r| == 0 <==> |s| == 0
    ensures |s| > 0 ==> (IsLowerAlnum(r[0]) <==> IsLowerAlnum(s[0]))
    ensures Alnums(r) == Alnums(s)
    decreases |s|
  {
    if |s| == 0 then ""
    else if IsLowerAlnum(s[0]) then [s[0]] + ReplaceRuns(s[1..])
    else "-" + ReplaceRuns(SkipRun(s[1..]))
  }

  /** `.replace(/(^-|-$)+/g, '')` applied to a dash-separated string: one
      leading dash and one trailing dash at most can be present, and both go. */
  function TrimDashes(t: string): (r: string)
    requires IsDashSeparated(t)
    ensures IsSlugShaped(r)
    ensures Alnums(r) == Alnums(t)
  {
    var a := if |t| > 0 && t[0] == '-' then t[1..] else t;
    assert Alnums(a) == Alnums(t) by {
      if |t| > 0 && t[0] == '-' {
        assert t == [t[0]] + a;
      }
    }
    if |a| > 0 && a[|a| - 1] == '-' then
      assert a == a[..|a| - 1] + [a[|a| - 1]];
      AlnumsAppendDash(a[..|a| - 1]);
      a[..|a| - 1]
    else
      a
  }

  lemma {:induction false} AlnumsAppendDash(s: string)
    ensures Alnums(s + "-") == Alnums(s)
  {
    if |s| > 0 {
      AlnumsAppendDash(s[1..]);
      assert (s + "-")[1..] == s[1..] + "-";
    }
  }

  /** The slug of a name. The result is slug-shaped and keeps exactly the
      name's lowercased letters and digits, in order. */
  function Slugify(name: string): (r: string)
    ensures IsSlugShaped(r)
    ensures Alnums(r) == Alnums(Lower(name))
  {
    TrimDashes(ReplaceRuns(Lower(name)))
  }

  /** The first `replace` leaves a dash-separated string alone. */
  lemma {:induction false} ReplaceRunsFixesDashSeparated(s: string)
    requires IsDashSeparated(s)
    ensures ReplaceRuns(s) == s
    decreases |s|
  {
    if |s| > 0 {
      assert IsDashSeparated(s[1..]);
      if IsLowerAlnum(s[0]) {
        ReplaceRunsFixesDashSeparated(s[1..]);
      } else {
        assert |s| > 1 ==> IsLowerAlnum(s[1]);
        assert SkipRun(s[1..]) == s[1..];
        ReplaceRunsFixesDashSeparated(s[1..]);
      }
    }
  }

  /** A slug-shaped string is its own slug. */
  lemma SlugifyFixesSlugShaped(s: string)
    requires IsSlugShaped(s)
    ensures Slugify(s) == s
  {
    assert Lower(s) == s;
    ReplaceRunsFixesDashSeparated(s);
  }

  /** Slugifying a slug changes nothing: `slug(slug(x)) == slug(x)`. */
  lemma SlugifyIdempotent(name: string)
    ensures Slugify(Slugify(name)) == Slugify(name)
  {
    SlugifyFixesSlugShaped(Slugify(name));
  }

  /** A name without ASCII letters or digits has the empty slug. */
  lemma SlugifyEmptyWithoutAlnums(name: string)
    requires Alnums(Lower(name)) == ""
    ensures Slugify(name) == ""
  {
  }

  /** Conversely, a name with a letter or digit has a non-empty slug. */
  lemma SlugifyNonEmptyWithAlnums(name: string)
    requires Alnums(Lower(name)) != ""
    ensures Slugify(name) != ""
  {
  }

  /** Two non-empty slug-shaped strings joined by one dash are slug-shaped. */
  lemma JoinSlugShaped(a: string, b: string)
    requires IsSlugShaped(a) && IsSlugShaped(b) && a != "" && b != ""
    ensures IsSlugShaped(a + "-" + b)
  {
    var s := a + "-" + b;
    assert forall i :: 0 <= i < |a| ==> s[i] == a[i];
    assert s[|a|] == '-';
    assert forall i :: |a| < i < |s| ==> s[i] == b[i - |a| - 1];
  }

  /** A decimal number is slug-shaped. */
  lemma NumberSlugShaped(n: nat)
    ensures IsSlugShaped(NatToString(n))
  {
  }
}
