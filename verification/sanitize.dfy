/** The filename sanitiser of `utils.py`: delete the characters
    `< > : " / \ | ? *`, then strip leading and trailing whitespace. */
module Sanitize {
  import opened Seqs

  /** The regular-expression class `[<>:"/\\|?*]`. */
  predicate IsForbidden(c: char)
  {
    c == '<' || c == '>' || c == ':' || c == '"' || c == '/' ||
    c == '\\' || c == '|' || c == '?' || c == '*'
  }

  /** Python's `str.isspace`: the code points `str.strip()` removes by default. */
  predicate IsSpace(c: char)
  {
    var n := c as int;
    (0x09 <= n <= 0x0D) || (0x1C <= n <= 0x20) || n == 0x85 || n == 0xA0 ||
    n == 0x1680 || (0x2000 <= n <= 0x200A) || n == 0x2028 || n == 0x2029 ||
    n == 0x202F || n == 0x205F || n == 0x3000
  }

  ghost predicate NoForbidden(s: string)
  {
    forall i :: 0 <= i < |s| ==> !IsForbidden(s[i])
  }

  ghost predicate AllSpace(s: string)
  {
    forall i :: 0 <= i < |s| ==> IsSpace(s[i])
  }

  /** Neither the first nor the last character is whitespace. */
  ghost predicate Trimmed(s: string)
  {
    |s| > 0 ==> !IsSpace(s[0]) && !IsSpace(s[|s| - 1])
  }

  /** `re.sub(r'[<>:"/\\|?*]', '', s)`. */
  function RemoveForbidden(s: string): (r: string)
    ensures NoForbidden(r)
    ensures |r| <= |s|
  {
    if |s| == 0 then []
    else
      var rest := RemoveForbidden(s[1..]);
      if IsForbidden(s[0]) then rest else [s[0]] + rest
  }

  /** `r` is `s` with whitespace, and only whitespace, cut from its two ends. */
  ghost predicate IsTrimOf(r: string, s: string)
  {
    exists i, j :: 0 <= i <= j <= |s| && r == s[i..j] && AllSpace(s[..i]) && AllSpace(s[j..])
  }

  /** How many whitespace characters `str.lstrip()` removes: the longest all-space prefix. */
  function LeadingSpaces(s: string): (k: nat)
    ensures k <= |s| && AllSpace(s[..k])
    ensures k < |s| ==> !IsSpace(s[k])
  {
    if |s| > 0 && IsSpace(s[0]) then 1 + LeadingSpaces(s[1..]) else 0
  }

  /** How many whitespace characters `str.rstrip()` removes: the longest all-space suffix. */
  function TrailingSpaces(s: string): (k: nat)
    ensures k <= |s| && AllSpace(s[|s| - k..])
    ensures k < |s| ==> !IsSpace(s[|s| - k - 1])
  {
    if |s| > 0 && IsSpace(s[|s| - 1]) then 1 + TrailingSpaces(s[..|s| - 1]) else 0
  }

  /** `str.strip()`: the slice left after removing whitespace at both ends. */
  function Strip(s: string): (r: string)
    ensures Trimmed(r)
  {
    var t := s[LeadingSpaces(s)..];
    t[..|t| - TrailingSpaces(t)]
  }

  /** What `str.strip()` keeps is one slice, and only whitespace lies outside it. */
  lemma StripIsSlice(s: string)
    ensures IsTrimOf(Strip(s), s)
  {
    var i := LeadingSpaces(s);
    var t := s[i..];
    var j := i + |t| - TrailingSpaces(t);
    assert t[|t| - TrailingSpaces(t)..] == s[j..];
    assert Strip(s) == s[i..j];
  }

  /** `sanitize_filename`: forbidden characters are deleted, then the ends are trimmed. */
  function SanitizeFilename(s: string): (r: string)
    ensures NoForbidden(r)
    ensures Trimmed(r)
  {
    Strip(RemoveForbidden(s))
  }

  /** The result is the deletion step's output with only whitespace cut from its two ends. */
  lemma SanitizeTrimsDeletion(s: string)
    ensures IsTrimOf(SanitizeFilename(s), RemoveForbidden(s))
  {
    StripIsSlice(RemoveForbidden(s));
  }

  /** What the sanitiser keeps, it keeps in the original order. */
  lemma SanitizeIsSubsequence(s: string)
    ensures IsSubsequence(SanitizeFilename(s), s)
  {
    var t := RemoveForbidden(s);
    StripIsSubsequence(t);
    RemoveForbiddenIsSubsequence(s);
    SubsequenceTransitive(Strip(t), t, s);
  }

  lemma StripIsSubsequence(t: string)
    ensures IsSubsequence(Strip(t), t)
  {
    StripIsSlice(t);
    var r := Strip(t);
    var i, j :| 0 <= i <= j <= |t| && r == t[i..j] && AllSpace(t[..i]) && AllSpace(t[j..]);
    SliceIsSubsequence(t, i, j);
  }

  lemma {:induction false} RemoveForbiddenIsSubsequence(s: string)
    ensures IsSubsequence(RemoveForbidden(s), s)
    decreases |s|
  {
    if |s| > 0 {
      RemoveForbiddenIsSubsequence(s[1..]);
      var rest := RemoveForbidden(s[1..]);
      if !IsForbidden(s[0]) {
        assert ([s[0]] + rest)[1..] == rest;
      }
    }
  }

  /** Every occurrence of a character outside the forbidden set is kept, and no other. */
  lemma {:induction false} RemoveForbiddenCounts(s: string)
    ensures forall c :: multiset(RemoveForbidden(s))[c] == if IsForbidden(c) then 0 else multiset(s)[c]
    decreases |s|
  {
    if |s| > 0 {
      RemoveForbiddenCounts(s[1..]);
      assert s == [s[0]] + s[1..];
    }
  }

  /** Deleting forbidden characters distributes over concatenation. */
  lemma {:induction false} RemoveForbiddenConcat(a: string, b: string)
    ensures RemoveForbidden(a + b) == RemoveForbidden(a) + RemoveForbidden(b)
    decreases |a|
  {
    if |a| == 0 {
      assert a + b == b;
    } else {
      assert (a + b)[1..] == a[1..] + b;
      RemoveForbiddenConcat(a[1..], b);
    }
  }

  /** A string without forbidden characters passes the deletion step unchanged. */
  lemma {:induction false} RemoveForbiddenIdentity(s: string)
    requires NoForbidden(s)
    ensures RemoveForbidden(s) == s
    decreases |s|
  {
    if |s| > 0 {
      RemoveForbiddenIdentity(s[1..]);
      assert s == [s[0]] + s[1..];
    }
  }

  lemma StripIdentity(s: string)
    requires Trimmed(s)
    ensures Strip(s) == s
  {
  }

  /** The sanitiser leaves a string alone exactly when it is already clean. */
  lemma SanitizeFixedPoint(s: string)
    ensures SanitizeFilename(s) == s <==> NoForbidden(s) && Trimmed(s)
  {
    if NoForbidden(s) && Trimmed(s) {
      RemoveForbiddenIdentity(s);
      StripIdentity(s);
    }
  }

  /** Sanitising twice is sanitising once. */
  lemma SanitizeIdempotent(s: string)
    ensures SanitizeFilename(SanitizeFilename(s)) == SanitizeFilename(s)
  {
    SanitizeFixedPoint(SanitizeFilename(s));
  }

  /** Sanitising never makes a name longer. */
  lemma SanitizeShrinks(s: string)
    ensures |SanitizeFilename(s)| <= |s|
  {
    SanitizeIsSubsequence(s);
    SubsequenceLength(SanitizeFilename(s), s);
  }

  /** Trimming keeps every non-whitespace character. */
  lemma TrimKeepsNonSpace(r: string, t: string, k: nat)
    requires IsTrimOf(r, t) && k < |t| && !IsSpace(t[k])
    ensures t[k] in r
  {
    var i, j :| 0 <= i <= j <= |t| && r == t[i..j] && AllSpace(t[..i]) && AllSpace(t[j..]);
    assert i <= k < j;
    assert r[k - i] == t[k];
  }

  /** Characters outside the forbidden set survive unless they are outer whitespace. */
  lemma SanitizeKeepsInterior(s: string, c: char)
    requires c in s && !IsForbidden(c) && !IsSpace(c)
    ensures c in SanitizeFilename(s)
  {
    var t := RemoveForbidden(s);
    assert c in t by {
      assert c in multiset(s);
      RemoveForbiddenCounts(s);
      assert c in multiset(t);
    }
    var k :| 0 <= k < |t| && t[k] == c;
    SanitizeTrimsDeletion(s);
    TrimKeepsNonSpace(SanitizeFilename(s), t, k);
  }

  lemma SanitizeDeletesForbidden()
    ensures SanitizeFilename("a/b:c*d") == "abcd"
  {
    DeletesSlashColonStar();
    var r := "abcd";
    assert r[0] == 'a' && r[3] == 'd';
    StripIdentity(r);
  }

  lemma DeletesSlashColonStar()
    ensures RemoveForbidden("a/b:c*d") == "abcd"
  {
    assert RemoveForbidden("*d") == "d";
    assert RemoveForbidden(":c*d") == "cd";
    assert RemoveForbidden("/b:c*d") == "bcd";
  }

  lemma {:induction false} LeadingSpacesOfPadded(a: string, x: string)
    requires AllSpace(a)
    ensures LeadingSpaces(a + x) == |a| + LeadingSpaces(x)
    decreases |a|
  {
    if |a| > 0 {
      assert (a + x)[1..] == a[1..] + x;
      LeadingSpacesOfPadded(a[1..], x);
    } else {
      assert a + x == x;
    }
  }

  lemma {:induction false} TrailingSpacesOfPadded(x: string, b: string)
    requires AllSpace(b)
    ensures TrailingSpaces(x + b) == |b| + TrailingSpaces(x)
    decreases |b|
  {
    if |b| > 0 {
      assert (x + b)[..|x + b| - 1] == x + b[..|b| - 1];
      TrailingSpacesOfPadded(x, b[..|b| - 1]);
    } else {
      assert x + b == x;
    }
  }

  /** Stripping removes exactly the whitespace padding around a trimmed word. */
  lemma StripPadded(a: string, w: string, b: string)
    requires AllSpace(a) && AllSpace(b) && Trimmed(w)
    ensures Strip(a + w + b) == w
  {
    var s := a + w + b;
    if |w| == 0 {
      assert AllSpace(s) by {
        assert s == a + b;
      }
      LeadingSpacesOfPadded(s, []);
      assert s + [] == s;
      assert s[LeadingSpaces(s)..] == [];
    } else {
      LeadingSpacesOfPadded(a, w + b);
      assert LeadingSpaces(w + b) == 0 by {
        assert (w + b)[0] == w[0];
      }
      assert s == a + (w + b);
      var t := s[LeadingSpaces(s)..];
      assert t == w + b;
      TrailingSpacesOfPadded(w, b);
      assert TrailingSpaces(w) == 0;
      assert t[..|t| - TrailingSpaces(t)] == w;
    }
  }

  /** A clean name padded with whitespace sanitises to the name itself. */
  lemma SanitizePadded(a: string, w: string, b: string)
    requires AllSpace(a) && AllSpace(b) && NoForbidden(w) && Trimmed(w)
    ensures SanitizeFilename(a + w + b) == w
  {
    assert NoForbidden(a + w + b);
    RemoveForbiddenIdentity(a + w + b);
    StripPadded(a, w, b);
  }

  lemma SanitizeTrimsOuterSpace()
    ensures SanitizeFilename("  name  ") == "name"
  {
    assert "  name  " == "  " + "name" + "  ";
    SanitizePadded("  ", "name", "  ");
  }

  /** Deletion happens before trimming, so spaces freed by a deletion are trimmed too. */
  lemma SanitizeDeletesThenTrims()
    ensures SanitizeFilename(" <a b?> ") == "a b"
  {
    DeletesAngleAndQuestion();
    OnePaddedSpelled();
    StripPadded(" ", "a b", " ");
  }

  lemma OnePaddedSpelled()
    ensures " a b " == " " + "a b" + " "
    ensures AllSpace(" ") && Trimmed("a b")
  {
    assert " "[0] == ' ';
    assert "a b"[0] == 'a' && "a b"[2] == 'b';
  }

  lemma DeletesAngleAndQuestion()
    ensures RemoveForbidden(" <a b?> ") == " a b "
  {
    assert RemoveForbidden("?> ") == " ";
    assert RemoveForbidden(" b?> ") == " b ";
    assert RemoveForbidden("<a b?> ") == "a b ";
  }
}
