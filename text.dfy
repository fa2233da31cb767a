/**
 * Python's `str.strip()` with no arguments, as applied to the comment text
 * before the empty-comment guard and before the reply generator sees it.
 */
module Text {
  import opened Seqs

  /** The characters for which Python's `str.isspace()` holds. */
  predicate IsSpace(c: char) {
    || ('\t' <= c <= '\r')                // tab, line feed, vertical tab, form feed, carriage return
    || ('\U{001C}' <= c <= ' ')            // the four information separators and the space
    || c == '\U{0085}' || c == '\U{00A0}' || c == '\U{1680}'
    || ('\U{2000}' <= c <= '\U{200A}')
    || c == '\U{2028}' || c == '\U{2029}' || c == '\U{202F}' || c == '\U{205F}' || c == '\U{3000}'
  }

  /** Every character of `s` is whitespace. */
  predicate AllSpace(s: string) {
    s == [] || (IsSpace(s[0]) && AllSpace(s[1..]))
  }

  lemma {:induction false} AllSpaceConcat(a: string, b: string)
    ensures AllSpace(a + b) <==> AllSpace(a) && AllSpace(b)
    decreases |a|
  {
    if a != [] {
      ConsOfAppend(a, b);
      AllSpaceConcat(a[1..], b);
    } else {
      assert a + b == b;
    }
  }

  /** `s` without its leading whitespace. */
  function TrimStart(s: string): string
    decreases |s|
  {
    if s != [] && IsSpace(s[0]) then TrimStart(s[1..]) else s
  }

  /** `s` without its trailing whitespace. */
  function TrimEnd(s: string): string
    decreases |s|
  {
    if s != [] && IsSpace(s[|s| - 1]) then TrimEnd(s[..|s| - 1]) else s
  }

  /** Python's `s.strip()`: `s` with the whitespace at both ends removed. */
  function Strip(s: string): string {
    TrimEnd(TrimStart(s))
  }

  /** `TrimStart` drops a whitespace prefix and stops at the first other character. */
  lemma {:induction false} TrimStartSpec(s: string)
    ensures |TrimStart(s)| <= |s|
    ensures TrimStart(s) == s[|s| - |TrimStart(s)|..]
    ensures AllSpace(s[..|s| - |TrimStart(s)|])
    ensures TrimStart(s) != [] ==> !IsSpace(TrimStart(s)[0])
    decreases |s|
  {
    if s != [] && IsSpace(s[0]) {
      var t := s[1..];
      TrimStartSpec(t);
      var r := TrimStart(t);
      assert TrimStart(s) == r;
      var n := |s| - |r|;
      assert r == s[n..] by {
        assert t[|t| - |r|..] == s[n..];
      }
      assert AllSpace(s[..n]) by {
        assert s[..n][0] == s[0];
        assert s[..n][1..] == t[..|t| - |r|];
      }
    } else {
      assert s[..0] == [];
    }
  }

  /** `TrimEnd` drops a whitespace suffix and stops at the last other character. */
  lemma {:induction false} TrimEndSpec(s: string)
    ensures |TrimEnd(s)| <= |s|
    ensures TrimEnd(s) == s[..|TrimEnd(s)|]
    ensures AllSpace(s[|TrimEnd(s)|..])
    ensures TrimEnd(s) != [] ==> !IsSpace(TrimEnd(s)[|TrimEnd(s)| - 1])
    decreases |s|
  {
    if s != [] && IsSpace(s[|s| - 1]) {
      var t := s[..|s| - 1];
      var c := s[|s| - 1];
      TrimEndSpec(t);
      var r := TrimEnd(t);
      assert TrimEnd(s) == r;
      assert r == s[..|r|] by {
        assert t[..|r|] == s[..|r|];
      }
      assert AllSpace(s[|r|..]) by {
        assert s[|r|..] == t[|r|..] + [c];
        assert AllSpace([c]) by { assert [c][1..] == []; }
        AllSpaceConcat(t[|r|..], [c]);
      }
    } else {
      assert s[|s|..] == [];
    }
  }

  /** A stripped message is empty exactly when the message is whitespace only. */
  lemma StripEmpty(s: string)
    ensures Strip(s) == [] <==> AllSpace(s)
  {
    var t := TrimStart(s);
    TrimStartSpec(s);
    var lead := s[..|s| - |t|];
    assert s == lead + t;
    AllSpaceConcat(lead, t);
    TrimEndEmpty(t);
  }

  /** For a string with no leading whitespace, `TrimEnd` gives `[]` exactly when it is whitespace only. */
  lemma TrimEndEmpty(t: string)
    requires t != [] ==> !IsSpace(t[0])
    ensures TrimEnd(t) == [] <==> AllSpace(t)
  {
    var r := TrimEnd(t);
    TrimEndSpec(t);
    if r == [] {
      assert t[|r|..] == t;
    } else {
      assert r[0] == t[0];
    }
  }

  /** A non-empty stripped message starts and ends with a character that is not whitespace. */
  lemma StripEnds(s: string)
    ensures Strip(s) != [] ==> !IsSpace(Strip(s)[0]) && !IsSpace(Strip(s)[|Strip(s)| - 1])
  {
    var t := TrimStart(s);
    var r := TrimEnd(t);
    TrimStartSpec(s);
    TrimEndSpec(t);
    if r != [] {
      assert r[0] == t[0];
    }
  }

  /** Where `Strip`'s result starts in `s`: after the leading whitespace. */
  function StripOffset(s: string): nat {
    TrimStartSpec(s);
    |s| - |TrimStart(s)|
  }

  /** `Strip`'s result is the slice of `s` that starts at `StripOffset(s)`. */
  lemma {:induction false} StripIsSlice(s: string)
    ensures StripOffset(s) + |Strip(s)| <= |s|
    ensures Strip(s) == s[StripOffset(s)..StripOffset(s) + |Strip(s)|]
  {
    var t := TrimStart(s);
    var r := TrimEnd(t);
    TrimStartSpec(s);
    TrimEndSpec(t);
    var i := |s| - |t|;
    assert t == s[i..];
    assert s[i..i + |r|] == t[..|r|];
  }

  /** `Strip` removes whitespace and nothing else: what lies before and after its result in `s` is whitespace. */
  lemma {:induction false} StripRemovesOnlySpace(s: string)
    ensures StripOffset(s) + |Strip(s)| <= |s|
    ensures AllSpace(s[..StripOffset(s)])
    ensures AllSpace(s[StripOffset(s) + |Strip(s)|..])
  {
    var t := TrimStart(s);
    var r := TrimEnd(t);
    TrimStartSpec(s);
    TrimEndSpec(t);
    var i := |s| - |t|;
    assert s[i + |r|..] == t[|r|..];
  }

  /** A string with no whitespace at either end is left unchanged by `Strip`. */
  lemma {:induction false} StripKeepsTrimmed(s: string)
    requires s == [] || (!IsSpace(s[0]) && !IsSpace(s[|s| - 1]))
    ensures Strip(s) == s
  {
    assert TrimStart(s) == s;
    assert TrimEnd(s) == s;
  }

  /** Stripping twice is stripping once. */
  lemma StripIdempotent(s: string)
    ensures Strip(Strip(s)) == Strip(s)
  {
    StripEnds(s);
    StripKeepsTrimmed(Strip(s));
  }
}
