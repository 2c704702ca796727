/**
 * String helpers the checker relies on, restricted to what the widget uses:
 * ASCII case mapping (`toUpperCase`/`toLowerCase`), the drug-name
 * canonicaliser inlined in `getInteraction`, `String.prototype.includes`
 * and `String.prototype.trim`.
 */
module Text {

  predicate IsAsciiUpper(c: char) { 'A' <= c <= 'Z' }

  predicate IsAsciiLower(c: char) { 'a' <= c <= 'z' }

  /** `toUpperCase` on one character; only ASCII letters change. */
  function UpperChar(c: char): (d: char)
    ensures !IsAsciiLower(d)
    ensures d == c || (IsAsciiLower(c) && IsAsciiUpper(d))
    ensures IsAsciiLower(c) ==> d as int - 'A' as int == c as int - 'a' as int
    ensures LowerChar(d) == LowerChar(c)
  {
    if IsAsciiLower(c) then (c as int - 32) as char else c
  }

  /** `toLowerCase` on one character; only ASCII letters change. */
  function LowerChar(c: char): (d: char)
    ensures !IsAsciiUpper(d)
    ensures d == c || (IsAsciiUpper(c) && IsAsciiLower(d))
    ensures IsAsciiUpper(c) ==> d as int - 'a' as int == c as int - 'A' as int
  {
    if IsAsciiUpper(c) then (c as int + 32) as char else c
  }

  /** `toLowerCase` on a whole string. */
  function Lower(s: string): (r: string)
    ensures |r| == |s|
    ensures forall i :: 0 <= i < |s| ==> r[i] == LowerChar(s[i])
  {
    seq(|s|, i requires 0 <= i < |s| => LowerChar(s[i]))
  }

  /** Two strings are equal up to ASCII letter case. */
  predicate SameIgnoringCase(a: string, b: string)
  {
    Lower(a) == Lower(b)
  }

  /** The table's key convention: a leading capital, the rest lower case. */
  predicate IsCanonical(s: string)
  {
    && (|s| > 0 ==> !IsAsciiLower(s[0]))
    && forall i :: 1 <= i < |s| ==> !IsAsciiUpper(s[i])
  }

  /**
   * `s.charAt(0).toUpperCase() + s.slice(1).toLowerCase()`: the result is in
   * canonical form and spells the same name as `s` up to letter case.
   */
  function Canonical(s: string): (r: string)
    ensures |r| == |s|
    ensures IsCanonical(r)
    ensures SameIgnoringCase(r, s)
  {
    if s == [] then [] else [UpperChar(s[0])] + Lower(s[1..])
  }

  /** Lower-casing twice is lower-casing once. */
  lemma LowerIdempotent(s: string)
    ensures Lower(Lower(s)) == Lower(s)
  {
  }

  /** A canonical string is determined by its spelling up to case. */
  lemma {:induction false} CanonicalUnique(x: string, y: string)
    requires IsCanonical(x) && IsCanonical(y)
    requires SameIgnoringCase(x, y)
    ensures x == y
  {
    assert |x| == |Lower(x)| == |Lower(y)| == |y|;
    forall i | 0 <= i < |x|
      ensures x[i] == y[i]
    {
      assert LowerChar(x[i]) == Lower(x)[i] == Lower(y)[i] == LowerChar(y[i]);
    }
  }

  /** The canonicaliser leaves a canonical name alone. */
  lemma CanonicalFixesCanonical(s: string)
    requires IsCanonical(s)
    ensures Canonical(s) == s
  {
    CanonicalUnique(Canonical(s), s);
  }

  /** Canonicalising twice equals canonicalising once. */
  lemma CanonicalIdempotent(s: string)
    ensures Canonical(Canonical(s)) == Canonical(s)
  {
    CanonicalFixesCanonical(Canonical(s));
  }

  /** Two inputs canonicalise to the same key exactly when they differ only in letter case. */
  lemma CanonicalCaseInsensitive(a: string, b: string)
    ensures Canonical(a) == Canonical(b) <==> SameIgnoringCase(a, b)
  {
    if SameIgnoringCase(a, b) {
      CanonicalUnique(Canonical(a), Canonical(b));
    }
  }

  /** A character that is not an ASCII letter passes through the canonicaliser unchanged at the end. */
  lemma CanonicalAppendNonLetter(s: string, c: char)
    requires !IsAsciiLower(c) && !IsAsciiUpper(c)
    ensures Canonical(s + [c]) == Canonical(s) + [c]
  {
    if s != [] {
      assert (s + [c])[1..] == s[1..] + [c];
      assert Lower(s[1..] + [c]) == Lower(s[1..]) + [c];
    }
  }

  /** A key that is not in canonical form is never produced by the canonicaliser. */
  lemma NonCanonicalNeverProduced(key: string, s: string)
    requires !IsCanonical(key)
    ensures Canonical(s) != key
  {
  }

  /** `String.prototype.includes`: `needle` occurs somewhere in `hay`. */
  predicate Contains(hay: string, needle: string)
    decreases |hay|
  {
    needle <= hay || (hay != [] && Contains(hay[1..], needle))
  }

  /** `needle` is the window of `hay` that starts at position `i`. */
  predicate OccursAt(hay: string, needle: string, i: int)
  {
    0 <= i <= |hay| - |needle| && hay[i..i + |needle|] == needle
  }

  /** `includes` holds exactly when some window of `hay` equals `needle`. */
  lemma {:induction false} ContainsAt(hay: string, needle: string)
    ensures Contains(hay, needle) <==> exists i :: OccursAt(hay, needle, i)
    decreases |hay|
  {
    if needle <= hay {
      assert OccursAt(hay, needle, 0);
    }
    if hay != [] {
      ContainsAt(hay[1..], needle);
      if Contains(hay[1..], needle) {
        var i :| OccursAt(hay[1..], needle, i);
        assert hay[i + 1..i + 1 + |needle|] == hay[1..][i..i + |needle|];
        assert OccursAt(hay, needle, i + 1);
      }
      if exists i :: OccursAt(hay, needle, i) {
        var i :| OccursAt(hay, needle, i);
        if i > 0 {
          assert hay[1..][i - 1..i - 1 + |needle|] == hay[i..i + |needle|];
          assert OccursAt(hay[1..], needle, i - 1);
        } else {
          assert needle <= hay;
        }
      }
    }
  }

  /**
   * The characters `String.prototype.trim` removes: the ECMAScript
   * WhiteSpace (tab, vertical tab, form feed, space, no-break space, byte
   * order mark and the Unicode space separators) and LineTerminator sets.
   */
  predicate IsJsWhitespace(c: char)
  {
    || c == '\t' || c == '\U{B}' || c == '\U{C}' || c == ' ' || c == '\U{A0}' || c == '\U{FEFF}'
    || c == '\U{1680}' || ('\U{2000}' <= c <= '\U{200A}') || c == '\U{202F}' || c == '\U{205F}'
    || c == '\U{3000}'
    || c == '\n' || c == '\r' || c == '\U{2028}' || c == '\U{2029}'
  }

  /** Every character of `t` is whitespace. */
  predicate AllWhitespace(t: string)
  {
    forall k :: 0 <= k < |t| ==> IsJsWhitespace(t[k])
  }

  /**
   * `r` is `s` with an all-whitespace prefix of length `i` and an
   * all-whitespace suffix removed.
   */
  predicate TrimmedAt(s: string, r: string, i: int)
  {
    && OccursAt(s, r, i)
    && AllWhitespace(s[..i])
    && AllWhitespace(s[i + |r|..])
  }

  /** Drops leading whitespace: the result is the suffix after the longest all-whitespace prefix. */
  function TrimStart(s: string): (r: string)
    ensures |r| <= |s| && r == s[|s| - |r|..]
    ensures forall k :: 0 <= k < |s| - |r| ==> IsJsWhitespace(s[k])
    ensures r != [] ==> !IsJsWhitespace(r[0])
  {
    if s != [] && IsJsWhitespace(s[0]) then TrimStart(s[1..]) else s
  }

  /** Drops trailing whitespace: the result is the prefix before the longest all-whitespace suffix. */
  function TrimEnd(s: string): (r: string)
    ensures |r| <= |s| && r == s[..|r|]
    ensures forall k :: |r| <= k < |s| ==> IsJsWhitespace(s[k])
    ensures r != [] ==> !IsJsWhitespace(r[|r| - 1])
  {
    if s != [] && IsJsWhitespace(s[|s| - 1]) then TrimEnd(s[..|s| - 1]) else s
  }

  /** `String.prototype.trim`. */
  function Trim(s: string): (r: string)
    ensures |r| <= |s|
    ensures r != [] ==> !IsJsWhitespace(r[0]) && !IsJsWhitespace(r[|r| - 1])
    ensures exists i :: TrimmedAt(s, r, i)
  {
    var t := TrimStart(s);
    var r := TrimEnd(t);
    assert TrimmedAt(s, r, |s| - |t|);
    r
  }

  /** A string that neither starts nor ends with whitespace is left unchanged. */
  lemma TrimKeepsInner(s: string)
    requires s != [] && !IsJsWhitespace(s[0]) && !IsJsWhitespace(s[|s| - 1])
    ensures Trim(s) == s
  {
  }

  /** A leading whitespace character makes no difference to the trimmed result. */
  lemma TrimSkipsLeadingWhitespace(c: char, s: string)
    requires IsJsWhitespace(c)
    ensures Trim([c] + s) == Trim(s)
  {
    assert ([c] + s)[1..] == s;
  }

  /** A trailing whitespace character makes no difference to the trimmed result. */
  lemma TrimSkipsTrailingWhitespace(s: string, c: char)
    requires IsJsWhitespace(c)
    ensures Trim(s + [c]) == Trim(s)
  {
    var t := TrimStart(s + [c]);
    if TrimStart(s) == [] {
      assert AllWhitespace(s + [c]) by {
        assert forall k :: 0 <= k < |s| ==> (s + [c])[k] == s[k];
      }
      TrimAllWhitespace(s + [c]);
      TrimAllWhitespace(s);
    } else {
      assert t == TrimStart(s) + [c] by {
        TrimStartAppend(s, c);
      }
      assert (TrimStart(s) + [c])[..|TrimStart(s)|] == TrimStart(s);
    }
  }

  /** Appending a character to a string that is not all whitespace appends it after `TrimStart`. */
  lemma {:induction false} TrimStartAppend(s: string, c: char)
    requires TrimStart(s) != []
    ensures TrimStart(s + [c]) == TrimStart(s) + [c]
  {
    assert s != [];
    assert (s + [c])[0] == s[0];
    if IsJsWhitespace(s[0]) {
      assert (s + [c])[1..] == s[1..] + [c];
      TrimStartAppend(s[1..], c);
    }
  }

  /** A string made only of whitespace trims to the empty string. */
  lemma {:induction false} TrimAllWhitespace(s: string)
    requires AllWhitespace(s)
    ensures Trim(s) == []
  {
  }

  /** Trimming is idempotent. */
  lemma TrimIdempotent(s: string)
    ensures Trim(Trim(s)) == Trim(s)
  {
    var r := Trim(s);
    if r != [] {
      TrimKeepsInner(r);
    }
  }
}
