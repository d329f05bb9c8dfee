/** The slug chain of backend/utils/helpers.js `generateSlug`, which the shop's
    pre-save hook repeats for its base slug:

      text.toLowerCase().replace(/[^a-z0-9\s-]/g, '').replace(/\s+/g, '-')
          .replace(/-+/g, '-').trim()
 */
module Slugs {
  import opened Text

  // ---------------------------------------------------------------- step 1: lower case

  /** `toLowerCase` of one character, as far as the next step can see it: ASCII
      capitals map to small letters, U+0130 (capital I with dot) to "i" plus a
      combining dot and U+212A (Kelvin sign) to "k"; every other character's
      lower-case form lies outside [a-z0-9-] and outside `\s` exactly when the
      character itself does, so it is kept as it is. */
  function LowerChar(c: char): string
  {
    if 'A' <= c <= 'Z' then [(c as int + 32) as char]
    else if c == '\U{0130}' then "i\U{0307}"
    else if c == '\U{212A}' then "k"
    else [c]
  }

  function Lower(s: string): string
  {
    if s == [] then [] else LowerChar(s[0]) + Lower(s[1..])
  }

  // ---------------------------------------------------------------- step 2: filter

  predicate IsSlugChar(c: char) {
    'a' <= c <= 'z' || '0' <= c <= '9' || c == '-'
  }

  /** `[a-z0-9\s-]`: the characters the filter keeps. */
  predicate Kept(c: char) {
    IsSlugChar(c) || IsSpace(c)
  }

  /** `.replace(/[^a-z0-9\s-]/g, '')` */
  function KeepSlugChars(s: string): (r: string)
    ensures forall i :: 0 <= i < |r| ==> Kept(r[i])
  {
    if s == [] then []
    else if Kept(s[0]) then [s[0]] + KeepSlugChars(s[1..])
    else KeepSlugChars(s[1..])
  }

  // ---------------------------------------------------------------- steps 3 and 4: runs

  predicate IsHyphen(c: char) {
    c == '-'
  }

  /** Drops the run of `p`-characters at the front of `s`. */
  function SkipRun(s: string, p: char -> bool): (r: string)
    ensures |r| <= |s| && r == s[|s| - |r|..]
    ensures r == [] || !p(r[0])
    ensures s != [] && p(s[0]) ==> |r| < |s|
  {
    if s != [] && p(s[0]) then SkipRun(s[1..], p) else s
  }

  /** `.replace(/P+/g, '-')`: every maximal run of `p`-characters becomes one hyphen. */
  function SquashRuns(s: string, p: char -> bool): string
    decreases |s|
  {
    if s == [] then []
    else if p(s[0]) then "-" + SquashRuns(SkipRun(s, p), p)
    else [s[0]] + SquashRuns(s[1..], p)
  }

  /** The whole chain. `.trim()` comes last, when no whitespace is left. */
  function GenerateSlug(text: string): string
  {
    Trim(SquashRuns(SquashRuns(KeepSlugChars(Lower(text)), IsSpace), IsHyphen))
  }

  /** What the shop schema accepts (`/^[a-z0-9-]+$/`, without the non-empty part)
      and, beyond it, no doubled hyphen. */
  predicate IsSlug(s: string) {
    && (forall i :: 0 <= i < |s| ==> IsSlugChar(s[i]))
    && (forall i :: 0 <= i < |s| - 1 ==> !(s[i] == '-' && s[i + 1] == '-'))
  }

  // ---------------------------------------------------------------- lemmas about runs

  /** The first character of a squashed string. */
  lemma SquashHead(s: string, p: char -> bool)
    ensures SquashRuns(s, p) == [] <==> s == []
    ensures s != [] && p(s[0]) ==> SquashRuns(s, p)[0] == '-'
    ensures s != [] && !p(s[0]) ==> SquashRuns(s, p)[0] == s[0]
  {
  }

  /** Squashing emits hyphens and characters of the input that are not in the run class. */
  lemma {:induction false} SquashChars(s: string, p: char -> bool, q: char -> bool)
    requires forall i :: 0 <= i < |s| ==> q(s[i])
    ensures forall i :: 0 <= i < |SquashRuns(s, p)| ==>
              SquashRuns(s, p)[i] == '-' || (q(SquashRuns(s, p)[i]) && !p(SquashRuns(s, p)[i]))
  {
    if s != [] {
      if p(s[0]) {
        var t := SkipRun(s, p);
        assert forall i :: 0 <= i < |t| ==> t[i] == s[|s| - |t| + i];
        SquashChars(t, p, q);
      } else {
        SquashChars(s[1..], p, q);
      }
    }
  }

  /** When `p` covers the hyphen, the result never holds two hyphens in a row. */
  lemma {:induction false} SquashNoDoubleHyphen(s: string, p: char -> bool)
    requires p('-')
    ensures forall i :: 0 <= i < |SquashRuns(s, p)| - 1 ==>
              !(SquashRuns(s, p)[i] == '-' && SquashRuns(s, p)[i + 1] == '-')
  {
    if s != [] {
      var r := SquashRuns(s, p);
      if p(s[0]) {
        var t := SkipRun(s, p);
        SquashNoDoubleHyphen(t, p);
        SquashHead(t, p);
        assert r == "-" + SquashRuns(t, p);
      } else {
        SquashNoDoubleHyphen(s[1..], p);
        assert r == [s[0]] + SquashRuns(s[1..], p);
        assert s[0] != '-';
      }
    }
  }

  /** A string whose `p`-characters are isolated hyphens is left unchanged. */
  lemma {:induction false} SquashIdentity(s: string, p: char -> bool)
    requires forall i :: 0 <= i < |s| && p(s[i]) ==> s[i] == '-' && (i + 1 < |s| ==> !p(s[i + 1]))
    ensures SquashRuns(s, p) == s
  {
    if s != [] {
      if p(s[0]) {
        assert SkipRun(s, p) == s[1..] by {
          if |s| > 1 {
            assert !p(s[1]);
            assert SkipRun(s[1..], p) == s[1..];
          }
        }
        SquashIdentity(s[1..], p);
        assert s == "-" + s[1..];
      } else {
        SquashIdentity(s[1..], p);
        assert s == [s[0]] + s[1..];
      }
    }
  }

  lemma {:induction false} LowerIdentity(s: string)
    requires forall i :: 0 <= i < |s| ==> IsSlugChar(s[i])
    ensures Lower(s) == s
  {
    if s != [] {
      LowerIdentity(s[1..]);
      assert s == [s[0]] + s[1..];
    }
  }

  lemma {:induction false} KeepIdentity(s: string)
    requires forall i :: 0 <= i < |s| ==> Kept(s[i])
    ensures KeepSlugChars(s) == s
  {
    if s != [] {
      KeepIdentity(s[1..]);
      assert s == [s[0]] + s[1..];
    }
  }

  // ---------------------------------------------------------------- properties of the chain

  /** Squashing the whitespace runs and then the hyphen runs of a filtered
      string yields a slug. */
  lemma SquashedKeptIsSlug(a: string)
    requires forall i :: 0 <= i < |a| ==> Kept(a[i])
    ensures IsSlug(SquashRuns(SquashRuns(a, IsSpace), IsHyphen))
  {
    var b := SquashRuns(a, IsSpace);
    var c := SquashRuns(b, IsHyphen);
    SquashChars(a, IsSpace, Kept);
    assert forall i :: 0 <= i < |b| ==> IsSlugChar(b[i]);
    SquashChars(b, IsHyphen, IsSlugChar);
    assert forall i :: 0 <= i < |c| ==> IsSlugChar(c[i]);
    SquashNoDoubleHyphen(b, IsHyphen);
  }

  /** A slug holds no whitespace, so trimming leaves it alone. */
  lemma TrimSlug(c: string)
    requires IsSlug(c)
    ensures Trim(c) == c
  {
    assert forall i :: 0 <= i < |c| ==> !IsSpace(c[i]) by {
      forall i | 0 <= i < |c| ensures !IsSpace(c[i]) {
        assert IsSlugChar(c[i]);
      }
    }
    TrimKeepsUnpadded(c);
  }

  /** Before the final trim the chain already yields a slug, so the trim changes nothing. */
  lemma SquashedIsSlug(text: string)
    ensures IsSlug(SquashRuns(SquashRuns(KeepSlugChars(Lower(text)), IsSpace), IsHyphen))
    ensures GenerateSlug(text) == SquashRuns(SquashRuns(KeepSlugChars(Lower(text)), IsSpace), IsHyphen)
  {
    var a := KeepSlugChars(Lower(text));
    SquashedKeptIsSlug(a);
    TrimSlug(SquashRuns(SquashRuns(a, IsSpace), IsHyphen));
  }

  /** `generateSlug` yields only [a-z0-9-] and never "--". */
  lemma GenerateSlugIsSlug(text: string)
    ensures IsSlug(GenerateSlug(text))
  {
    SquashedIsSlug(text);
  }

  /** Every slug is its own slug. */
  lemma SlugFixedPoint(s: string)
    requires IsSlug(s)
    ensures GenerateSlug(s) == s
  {
    LowerIdentity(s);
    KeepIdentity(s);
    SquashIdentity(s, IsSpace);
    SquashIdentity(s, IsHyphen);
    assert forall i :: 0 <= i < |s| ==> !IsSpace(s[i]);
    TrimKeepsUnpadded(s);
  }

  /** `generateSlug` is idempotent. */
  lemma GenerateSlugIdempotent(text: string)
    ensures GenerateSlug(GenerateSlug(text)) == GenerateSlug(text)
  {
    GenerateSlugIsSlug(text);
    SlugFixedPoint(GenerateSlug(text));
  }

  lemma LowerHead(s: string)
    requires s != [] && !('A' <= s[0] <= 'Z') && s[0] != '\U{0130}' && s[0] != '\U{212A}'
    ensures Lower(s) != [] && Lower(s)[0] == s[0]
  {
  }

  lemma KeepHead(s: string)
    requires s != [] && Kept(s[0])
    ensures KeepSlugChars(s) != [] && KeepSlugChars(s)[0] == s[0]
  {
  }

  /** `.trim()` removes whitespace only, and by then the whitespace has become
      hyphens: a name that starts with whitespace gives a slug starting with '-'. */
  lemma LeadingSpaceKeepsHyphen(text: string)
    requires text != [] && IsSpace(text[0])
    ensures GenerateSlug(text) != [] && GenerateSlug(text)[0] == '-'
  {
    var l := Lower(text);
    LowerHead(text);
    var a := KeepSlugChars(l);
    KeepHead(l);
    var b := SquashRuns(a, IsSpace);
    SquashHead(a, IsSpace);
    SquashHead(b, IsHyphen);
    SquashedIsSlug(text);
  }

  lemma {:induction false} LowerAppend(a: string, b: string)
    ensures Lower(a + b) == Lower(a) + Lower(b)
  {
    if a != [] {
      assert (a + b)[0] == a[0] && (a + b)[1..] == a[1..] + b;
      LowerAppend(a[1..], b);
    } else {
      assert a + b == b;
    }
  }

  lemma {:induction false} KeepAppend(a: string, b: string)
    ensures KeepSlugChars(a + b) == KeepSlugChars(a) + KeepSlugChars(b)
  {
    if a != [] {
      assert (a + b)[0] == a[0] && (a + b)[1..] == a[1..] + b;
      KeepAppend(a[1..], b);
    } else {
      assert a + b == b;
    }
  }

  /** A character outside [A-Za-z0-9], whitespace and '-' is deleted, not
      replaced: "Rahul's Kirana Store!!" gives the same slug as
      "Rahuls Kirana Store", that is "rahuls-kirana-store". */
  lemma DroppedCharVanishes(a: string, c: char, b: string)
    requires LowerChar(c) == [c] && !Kept(c)
    ensures GenerateSlug(a + [c] + b) == GenerateSlug(a + b)
  {
    var la, lb := Lower(a), Lower(b);
    assert Lower([c]) == [c] by {
      assert [c][1..] == [];
    }
    assert Lower(a + [c] + b) == la + [c] + lb by {
      LowerAppend(a + [c], b);
      LowerAppend(a, [c]);
    }
    assert Lower(a + b) == la + lb by {
      LowerAppend(a, b);
    }
    assert KeepSlugChars(la + [c] + lb) == KeepSlugChars(la + lb) by {
      KeepAppend(la + [c], lb);
      KeepAppend(la, [c]);
      KeepAppend(la, lb);
      assert KeepSlugChars([c]) == [] by {
        assert [c][1..] == [];
      }
      assert KeepSlugChars(la) + [] == KeepSlugChars(la);
    }
  }
}
