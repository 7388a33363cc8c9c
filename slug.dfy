/** The business-name slug used in generated URLs and payment links:
    lower-case, replace every run of characters outside `[a-z0-9]` by one '-',
    then drop a leading and a trailing '-'. The demo hosting slug stops after
    the second step. */
module Slugify {
  import opened Text

  predicate IsSlugChar(c: char) {
    'a' <= c <= 'z' || '0' <= c <= '9'
  }

  /** No '-' directly followed by another '-'. */
  predicate NoDoubleDash(s: string) {
    forall i :: 0 <= i < |s| - 1 ==> !(s[i] == '-' && s[i + 1] == '-')
  }

  /** Every character is a slug character or '-'. */
  predicate SlugAlphabet(s: string) {
    forall i :: 0 <= i < |s| ==> IsSlugChar(s[i]) || s[i] == '-'
  }

  /** What a slug looks like: slug characters and single dashes, with no dash at either end. */
  predicate IsSlug(s: string) {
    SlugAlphabet(s) && NoDoubleDash(s) && (s != [] ==> s[0] != '-' && s[|s| - 1] != '-')
  }

  /** `.replace(/[^a-z0-9]+/g, '-')`: a character outside `[a-z0-9]` that is
      followed by another such character is dropped, the last one of a run
      becomes '-'. */
  function Dashed(s: string): (r: string)
    ensures SlugAlphabet(r) && NoDoubleDash(r)
    ensures r == [] <==> s == []
    ensures s != [] ==> (r[0] == '-' <==> !IsSlugChar(s[0]))
    ensures s != [] && IsSlugChar(s[0]) ==> r[0] == s[0]
    decreases |s|
  {
    if s == [] then []
    else if IsSlugChar(s[0]) then [s[0]] + Dashed(s[1..])
    else if |s| > 1 && !IsSlugChar(s[1]) then Dashed(s[1..])
    else "-" + Dashed(s[1..])
  }

  /** `.replace(/(^-|-$)/g, '')`: at most one dash removed at each end. */
  function TrimDashes(s: string): (r: string)
    ensures s != [] && s[0] != '-' && s[|s| - 1] != '-' ==> r == s
  {
    var front := if s != [] && s[0] == '-' then s[1..] else s;
    if front != [] && front[|front| - 1] == '-' then front[..|front| - 1] else front
  }

  /** The slug of a business name (webhook.ts triggerWebsiteBuild,
      triggerDeployAndInvoice, generateLovableBuildUrl; stripe.ts). */
  function Slug(name: string): (r: string)
    ensures IsSlug(r)
  {
    var d := Dashed(Lower(name));
    var r := TrimDashes(d);
    assert SlugAlphabet(r) && NoDoubleDash(r) by {
      var front := if d != [] && d[0] == '-' then d[1..] else d;
      assert SlugAlphabet(front) && NoDoubleDash(front);
    }
    r
  }

  /** The demo hosting slug of deployToRenderFromGitHub: runs collapsed, ends kept. */
  function RenderSlug(name: string): (r: string)
    ensures SlugAlphabet(r) && NoDoubleDash(r)
  {
    Dashed(Lower(name))
  }

  /** The slug characters of a string, in order. */
  function SlugChars(s: string): (r: string)
    ensures |r| <= |s|
    ensures forall i :: 0 <= i < |r| ==> IsSlugChar(r[i])
  {
    if s == [] then [] else (if IsSlugChar(s[0]) then [s[0]] else []) + SlugChars(s[1..])
  }

  /** A string with every '-' removed. */
  function WithoutDashes(s: string): (r: string)
    ensures |r| <= |s|
    ensures forall i :: 0 <= i < |r| ==> r[i] != '-'
  {
    if s == [] then [] else (if s[0] != '-' then [s[0]] else []) + WithoutDashes(s[1..])
  }

  lemma {:induction false} WithoutDashesAppend(a: string, b: string)
    ensures WithoutDashes(a + b) == WithoutDashes(a) + WithoutDashes(b)
    decreases |a|
  {
    if a == [] {
      assert a + b == b;
    } else {
      assert (a + b)[0] == a[0];
      assert (a + b)[1..] == a[1..] + b;
      WithoutDashesAppend(a[1..], b);
    }
  }

  /** Collapsing runs keeps every slug character of the input, in order, and
      adds nothing but dashes: removing the dashes gives back exactly the
      input's slug characters. */
  lemma {:induction false} DashedKeepsSlugChars(s: string)
    ensures WithoutDashes(Dashed(s)) == SlugChars(s)
    decreases |s|
  {
    if s != [] {
      DashedKeepsSlugChars(s[1..]);
      if IsSlugChar(s[0]) {
        WithoutDashesAppend([s[0]], Dashed(s[1..]));
      } else if !(|s| > 1 && !IsSlugChar(s[1])) {
        WithoutDashesAppend("-", Dashed(s[1..]));
      }
    }
  }

  /** A string with no slug character collapses to a single '-', or to
      nothing when it is empty. */
  lemma {:induction false} DashedRun(s: string)
    requires forall i :: 0 <= i < |s| ==> !IsSlugChar(s[i])
    ensures Dashed(s) == if s == [] then [] else "-"
    decreases |s|
  {
    if s != [] {
      DashedRun(s[1..]);
    }
  }

  /** Every slug character stays in place and splits the input: what lies
      before it and what lies after it are collapsed independently. With
      DashedRun this says that each maximal run of other characters between
      two slug characters, or at either end, becomes exactly one '-'. */
  lemma {:induction false} DashedSplitsAtSlugChar(a: string, c: char, b: string)
    requires IsSlugChar(c)
    ensures Dashed(a + [c] + b) == Dashed(a) + [c] + Dashed(b)
    decreases |a|
  {
    var s := a + [c] + b;
    if a == [] {
      assert s == [c] + b;
      assert s[1..] == b;
    } else {
      assert s[0] == a[0];
      assert s[1..] == a[1..] + [c] + b;
      DashedSplitsAtSlugChar(a[1..], c, b);
      if |a| == 1 {
        assert s[1] == c;
        assert a[1..] == [];
      } else {
        assert s[1] == a[1];
      }
    }
  }

  /** Trimming drops at most one dash at each end and nothing else. */
  lemma {:induction false} TrimDashesDropsEdgeDashes(d: string)
    ensures WithoutDashes(TrimDashes(d)) == WithoutDashes(d)
    ensures var t := TrimDashes(d); d in {t, "-" + t, t + "-", "-" + t + "-"}
  {
    var t := TrimDashes(d);
    var front := if d != [] && d[0] == '-' then d[1..] else d;
    var lead := if d != [] && d[0] == '-' then "-" else "";
    var trail := if front != [] && front[|front| - 1] == '-' then "-" else "";
    assert d == lead + front;
    assert front == t + trail;
    assert d == lead + t + trail;
    WithoutDashesAppend(lead, front);
    WithoutDashesAppend(t, trail);
    if lead == "" {
      assert d == t + trail;
    } else {
      assert d == "-" + t + trail;
    }
  }

  /** The slug keeps exactly the lower-cased name's letters and digits, in
      order, and differs from the demo hosting slug only by the dash it drops
      at either end. */
  lemma {:induction false} SlugKeepsLettersAndDigits(name: string)
    ensures WithoutDashes(Slug(name)) == SlugChars(Lower(name))
    ensures WithoutDashes(RenderSlug(name)) == SlugChars(Lower(name))
    ensures var t := Slug(name); RenderSlug(name) in {t, "-" + t, t + "-", "-" + t + "-"}
  {
    DashedKeepsSlugChars(Lower(name));
    TrimDashesDropsEdgeDashes(Dashed(Lower(name)));
  }

  /** The demo hosting slug can start and end with '-', unlike Slug. */
  lemma RenderSlugKeepsEdgeDashes()
    ensures RenderSlug(" Bo!") == "-bo-"
    ensures Slug(" Bo!") == "bo"
  {
    assert Lower(" Bo!") == " bo!";
    assert Dashed("!") == "-";
    assert Dashed("o!") == "o-";
    assert Dashed("bo!") == "bo-";
    assert Dashed(" bo!") == "-bo-";
  }

  lemma {:induction false} LowerKeepsSlugAlphabet(s: string)
    requires SlugAlphabet(s)
    ensures Lower(s) == s
  {
    assert forall i :: 0 <= i < |s| ==> Lower(s)[i] == s[i];
  }

  /** Collapsing runs changes nothing in a string that has no run to collapse. */
  lemma {:induction false} DashedFixesWellFormed(s: string)
    requires SlugAlphabet(s) && NoDoubleDash(s)
    ensures Dashed(s) == s
    decreases |s|
  {
    if s != [] {
      assert SlugAlphabet(s[1..]) && NoDoubleDash(s[1..]);
      DashedFixesWellFormed(s[1..]);
      if !IsSlugChar(s[0]) && |s| > 1 {
        assert s[0] == '-';
        assert s[1] != '-';
      }
    }
  }

  /** A string is its own slug exactly when it already looks like a slug. */
  lemma {:induction false} SlugFixedPoints(s: string)
    ensures Slug(s) == s <==> IsSlug(s)
  {
    if IsSlug(s) {
      LowerKeepsSlugAlphabet(s);
      DashedFixesWellFormed(s);
    }
  }

  /** Slugging a slug returns it unchanged. */
  lemma SlugIdempotent(name: string)
    ensures Slug(Slug(name)) == Slug(name)
  {
    SlugFixedPoints(Slug(name));
  }
}
