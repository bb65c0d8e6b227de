/**
 * The string operations the pages use: `String.prototype.trim`,
 * `split(/\s+/)`, `includes`, `toLowerCase` and the string-to-number
 * conversion of `Number(...)`.
 */
module JsStrings {
  import opened JsRuntime

  /**
   * The WhiteSpace and LineTerminator code points of ECMA-262 (sections
   * 12.2 and 12.3). `trim` strips exactly these, and the regular-expression
   * class `\s` matches exactly these.
   */
  predicate IsWhiteSpace(c: char)
  {
    c == '\t' || c == '\n' || c == '\U{000B}' || c == '\U{000C}' || c == '\r' ||
    c == ' ' || c == '\U{00A0}' || c == '\U{1680}' || ('\U{2000}' <= c <= '\U{200A}') ||
    c == '\U{2028}' || c == '\U{2029}' || c == '\U{202F}' || c == '\U{205F}' ||
    c == '\U{3000}' || c == '\U{FEFF}'
  }

  predicate AllWhiteSpace(s: string)
  {
    forall i :: 0 <= i < |s| ==> IsWhiteSpace(s[i])
  }

  predicate NoWhiteSpace(s: string)
  {
    forall i :: 0 <= i < |s| ==> !IsWhiteSpace(s[i])
  }

  lemma WhiteSpaceConcat(a: string, b: string)
    ensures AllWhiteSpace(a + b) <==> AllWhiteSpace(a) && AllWhiteSpace(b)
  {
    if AllWhiteSpace(a + b) {
      forall i | 0 <= i < |a| ensures IsWhiteSpace(a[i]) {
        assert a[i] == (a + b)[i];
      }
      forall i | 0 <= i < |b| ensures IsWhiteSpace(b[i]) {
        assert b[i] == (a + b)[|a| + i];
      }
    }
    if AllWhiteSpace(a) && AllWhiteSpace(b) {
      forall i | 0 <= i < |a + b| ensures IsWhiteSpace((a + b)[i]) {
        if i < |a| {
          assert (a + b)[i] == a[i];
        } else {
          assert (a + b)[i] == b[i - |a|];
        }
      }
    }
  }

  /** `s.trimStart()`: drops the longest all-white-space prefix. */
  function TrimStart(s: string): (r: string)
    ensures |r| <= |s|
  {
    if s != [] && IsWhiteSpace(s[0]) then TrimStart(s[1..]) else s
  }

  /** `s.trimEnd()`: drops the longest all-white-space suffix. */
  function TrimEnd(s: string): (r: string)
    ensures |r| <= |s|
  {
    if s != [] && IsWhiteSpace(s[|s| - 1]) then TrimEnd(s[..|s| - 1]) else s
  }

  /**
   * `trimStart` keeps a suffix of `s`, drops only white space, and what it
   * keeps does not start with white space.
   */
  lemma {:induction false} TrimStartSuffix(s: string)
    ensures |TrimStart(s)| <= |s| && TrimStart(s) == s[|s| - |TrimStart(s)|..]
    ensures AllWhiteSpace(s[..|s| - |TrimStart(s)|])
    ensures TrimStart(s) == [] || !IsWhiteSpace(TrimStart(s)[0])
  {
    if s != [] && IsWhiteSpace(s[0]) {
      var t := s[1..];
      TrimStartSuffix(t);
      var r := TrimStart(t);
      var k := |s| - |r|;
      assert t[|t| - |r|..] == s[k..];
      forall j | 0 <= j < k ensures IsWhiteSpace(s[..k][j]) {
        if j > 0 {
          assert s[..k][j] == t[..|t| - |r|][j - 1];
        }
      }
    }
  }

  /**
   * `trimEnd` keeps a prefix of `s`, drops only white space, and what it
   * keeps does not end with white space.
   */
  lemma {:induction false} TrimEndPrefix(s: string)
    ensures |TrimEnd(s)| <= |s| && TrimEnd(s) == s[..|TrimEnd(s)|]
    ensures AllWhiteSpace(s[|TrimEnd(s)|..])
    ensures TrimEnd(s) == [] || !IsWhiteSpace(TrimEnd(s)[|TrimEnd(s)| - 1])
  {
    if s != [] && IsWhiteSpace(s[|s| - 1]) {
      var t := s[..|s| - 1];
      TrimEndPrefix(t);
      var r := TrimEnd(t);
      assert t[..|r|] == s[..|r|];
      forall j | 0 <= j < |s| - |r| ensures IsWhiteSpace(s[|r|..][j]) {
        if j < |t| - |r| {
          assert s[|r|..][j] == t[|r|..][j];
        }
      }
    }
  }

  /** `s.trim()`: white space dropped at both ends. */
  function Trim(s: string): string
  {
    TrimEnd(TrimStart(s))
  }

  /**
   * `trim` keeps a contiguous slice of `s` with only white space on either
   * side of it. The slice is empty exactly when `s` is all white space, and
   * otherwise it starts and ends with a character that is not white space.
   */
  lemma TrimSpec(s: string)
    ensures var i := |s| - |TrimStart(s)|;
      i + |Trim(s)| <= |s| && s[i..i + |Trim(s)|] == Trim(s) && AllWhiteSpace(s[..i]) && AllWhiteSpace(s[i + |Trim(s)|..])
    ensures Trim(s) == [] <==> AllWhiteSpace(s)
    ensures Trim(s) != [] ==> !IsWhiteSpace(Trim(s)[0]) && !IsWhiteSpace(Trim(s)[|Trim(s)| - 1])
  {
    TrimSlice(s);
    TrimEmpty(s);
    TrimEnds(s);
  }

  lemma TrimSlice(s: string)
    ensures var r, i := TrimEnd(TrimStart(s)), |s| - |TrimStart(s)|;
      i + |r| <= |s| && s[i..i + |r|] == r && AllWhiteSpace(s[..i]) && AllWhiteSpace(s[i + |r|..])
  {
    var t := TrimStart(s);
    var r := TrimEnd(t);
    var i := |s| - |t|;
    TrimStartSuffix(s);
    TrimEndPrefix(t);
    SliceOfSuffix(s, i, |r|);
  }

  lemma SliceOfSuffix<T>(s: seq<T>, i: nat, n: nat)
    requires i + n <= |s|
    ensures s[i..][..n] == s[i..i + n] && s[i..][n..] == s[i + n..]
  {
  }

  lemma TrimEmpty(s: string)
    ensures Trim(s) == [] <==> AllWhiteSpace(s)
  {
    var t := TrimStart(s);
    var i := |s| - |t|;
    if AllWhiteSpace(s) {
      TrimStartOfWhiteSpace(s);
    }
    if TrimEnd(t) == [] {
      TrimStartSuffix(s);
      TrimEndPrefix(t);
      assert t[0..] == t;
      assert s == s[..i] + t;
      WhiteSpaceConcat(s[..i], t);
    }
  }

  lemma {:induction false} TrimStartOfWhiteSpace(s: string)
    requires AllWhiteSpace(s)
    ensures TrimStart(s) == []
  {
    if s != [] {
      TrimStartOfWhiteSpace(s[1..]);
    }
  }

  lemma TrimEnds(s: string)
    ensures var r := TrimEnd(TrimStart(s)); r != [] ==> !IsWhiteSpace(r[0]) && !IsWhiteSpace(r[|r| - 1])
  {
    var t := TrimStart(s);
    var r := TrimEnd(t);
    TrimStartSuffix(s);
    TrimEndPrefix(t);
    assert r != [] ==> r[0] == t[0];
  }

  /** `s` is the white space that trimming drops in front, the trimmed text, and the white space it drops behind. */
  lemma TrimParts(s: string)
    ensures var i := |s| - |TrimStart(s)|;
      s == s[..i] + Trim(s) + s[i + |Trim(s)|..] && AllWhiteSpace(s[..i]) && AllWhiteSpace(s[i + |Trim(s)|..])
  {
    var i := |s| - |TrimStart(s)|;
    TrimSlice(s);
    SplitThree(s, i, i + |Trim(s)|);
  }

  lemma SplitThree<T>(s: seq<T>, i: nat, j: nat)
    requires i <= j <= |s|
    ensures s == s[..i] + s[i..j] + s[j..]
  {
  }

  /**
   * `s.split(/\s+/)`: the pieces of `s` between maximal runs of white space.
   * The empty string splits into one empty piece, and white space at either
   * end yields an empty piece there.
   */
  function SplitOnWhiteSpace(s: string): (r: seq<string>)
    ensures |r| >= 1
    decreases |s|
  {
    if s == [] then [[]]
    else if IsWhiteSpace(s[0]) then
      var rest := TrimStart(s);
      assert |rest| < |s| by {
        TrimStartSuffix(s);
        assert rest != s;
      }
      [[]] + SplitOnWhiteSpace(rest)
    else
      var rest := SplitOnWhiteSpace(s[1..]);
      [[s[0]] + rest[0]] + rest[1..]
  }

  /** The maximal runs of white space in `s`, in order. */
  function WhiteSpaceRuns(s: string): seq<string>
    decreases |s|
  {
    if s == [] then []
    else if IsWhiteSpace(s[0]) then
      var rest := TrimStart(s);
      assert |rest| < |s| by {
        TrimStartSuffix(s);
        assert rest != s;
      }
      [s[..|s| - |rest|]] + WhiteSpaceRuns(rest)
    else WhiteSpaceRuns(s[1..])
  }

  /** pieces[0] + gaps[0] + pieces[1] + ... + gaps[k-1] + pieces[k]. */
  function Interleave(pieces: seq<string>, gaps: seq<string>): string
    requires |pieces| == |gaps| + 1
  {
    if |gaps| == 0 then pieces[0] else pieces[0] + gaps[0] + Interleave(pieces[1..], gaps[1..])
  }

  /**
   * `split` cuts exactly at the maximal white-space runs: there is one more
   * piece than there are runs, every run is non-empty white space, and the
   * pieces interleaved with the runs give back `s`.
   */
  lemma SplitRoundTrip(s: string)
    ensures |SplitOnWhiteSpace(s)| == |WhiteSpaceRuns(s)| + 1
    ensures forall k :: 0 <= k < |WhiteSpaceRuns(s)| ==> WhiteSpaceRuns(s)[k] != [] && AllWhiteSpace(WhiteSpaceRuns(s)[k])
    ensures Interleave(SplitOnWhiteSpace(s), WhiteSpaceRuns(s)) == s
  {
    RunsAreWhiteSpace(s);
    SplitInterleavesBack(s);
  }

  lemma {:induction false} SplitCountsRuns(s: string)
    ensures |SplitOnWhiteSpace(s)| == |WhiteSpaceRuns(s)| + 1
    decreases |s|
  {
    if s == [] {
    } else if IsWhiteSpace(s[0]) {
      TrimStartSuffix(s);
      SplitCountsRuns(TrimStart(s));
    } else {
      SplitCountsRuns(s[1..]);
    }
  }

  lemma {:induction false} RunsAreWhiteSpace(s: string)
    ensures forall k :: 0 <= k < |WhiteSpaceRuns(s)| ==> WhiteSpaceRuns(s)[k] != [] && AllWhiteSpace(WhiteSpaceRuns(s)[k])
    decreases |s|
  {
    if s == [] {
    } else if IsWhiteSpace(s[0]) {
      var rest := TrimStart(s);
      TrimStartSuffix(s);
      assert rest != s;
      RunsAreWhiteSpace(rest);
      var gaps := WhiteSpaceRuns(s);
      forall k | 0 < k < |gaps| ensures gaps[k] == WhiteSpaceRuns(rest)[k - 1] {
      }
    } else {
      RunsAreWhiteSpace(s[1..]);
    }
  }

  lemma {:induction false} SplitInterleavesBack(s: string)
    ensures |SplitOnWhiteSpace(s)| == |WhiteSpaceRuns(s)| + 1
    ensures Interleave(SplitOnWhiteSpace(s), WhiteSpaceRuns(s)) == s
    decreases |s|
  {
    SplitCountsRuns(s);
    if s == [] {
    } else if IsWhiteSpace(s[0]) {
      var rest := TrimStart(s);
      TrimStartSuffix(s);
      assert rest != s;
      SplitInterleavesBack(rest);
      var pieces, gaps := SplitOnWhiteSpace(s), WhiteSpaceRuns(s);
      assert pieces[1..] == SplitOnWhiteSpace(rest) && gaps[1..] == WhiteSpaceRuns(rest);
      assert s == [] + s[..|s| - |rest|] + rest;
    } else {
      SplitInterleavesBack(s[1..]);
      InterleavePrepend(s[0], SplitOnWhiteSpace(s[1..]), WhiteSpaceRuns(s[1..]));
      assert s == [s[0]] + s[1..];
    }
  }

  lemma InterleavePrepend(c: char, pieces: seq<string>, gaps: seq<string>)
    requires |pieces| == |gaps| + 1
    ensures Interleave([[c] + pieces[0]] + pieces[1..], gaps) == [c] + Interleave(pieces, gaps)
  {
    var q := [[c] + pieces[0]] + pieces[1..];
    assert q[1..] == pieces[1..];
  }

  /** The characters of `s` that are not white space, in order. */
  function RemoveWhiteSpace(s: string): string
  {
    if s == [] then [] else (if IsWhiteSpace(s[0]) then [] else [s[0]]) + RemoveWhiteSpace(s[1..])
  }

  function Concat(parts: seq<string>): string
  {
    if parts == [] then [] else parts[0] + Concat(parts[1..])
  }

  lemma {:induction false} RemoveWhiteSpaceOfWhiteSpace(s: string)
    requires AllWhiteSpace(s)
    ensures RemoveWhiteSpace(s) == []
  {
    if s != [] {
      RemoveWhiteSpaceOfWhiteSpace(s[1..]);
    }
  }

  lemma {:induction false} RemoveWhiteSpaceAppend(s: string, t: string)
    ensures RemoveWhiteSpace(s + t) == RemoveWhiteSpace(s) + RemoveWhiteSpace(t)
  {
    if s != [] {
      assert (s + t)[0] == s[0];
      assert (s + t)[1..] == s[1..] + t;
      RemoveWhiteSpaceAppend(s[1..], t);
    } else {
      assert s + t == t;
    }
  }

  /**
   * Splitting loses only white space: the pieces, joined back together, are
   * the characters of `s` that are not white space, and no piece contains
   * white space.
   */
  lemma SplitKeepsContent(s: string)
    ensures Concat(SplitOnWhiteSpace(s)) == RemoveWhiteSpace(s)
    ensures forall k :: 0 <= k < |SplitOnWhiteSpace(s)| ==> NoWhiteSpace(SplitOnWhiteSpace(s)[k])
  {
    SplitJoinsToContent(s);
    SplitPiecesHaveNoWhiteSpace(s);
  }

  lemma {:induction false} SplitJoinsToContent(s: string)
    ensures Concat(SplitOnWhiteSpace(s)) == RemoveWhiteSpace(s)
    decreases |s|
  {
    var r := SplitOnWhiteSpace(s);
    if s == [] {
    } else if IsWhiteSpace(s[0]) {
      var rest := TrimStart(s);
      TrimStartSuffix(s);
      assert |rest| < |s| by { assert rest != s; }
      SplitJoinsToContent(rest);
      var p := s[..|s| - |rest|];
      assert s == p + rest;
      RemoveWhiteSpaceAppend(p, rest);
      RemoveWhiteSpaceOfWhiteSpace(p);
      assert r[1..] == SplitOnWhiteSpace(rest);
    } else {
      var rest := SplitOnWhiteSpace(s[1..]);
      SplitJoinsToContent(s[1..]);
      assert r[1..] == rest[1..];
      assert Concat(rest) == rest[0] + Concat(rest[1..]);
    }
  }

  lemma {:induction false} SplitPiecesHaveNoWhiteSpace(s: string)
    ensures forall k :: 0 <= k < |SplitOnWhiteSpace(s)| ==> NoWhiteSpace(SplitOnWhiteSpace(s)[k])
    decreases |s|
  {
    var r := SplitOnWhiteSpace(s);
    if s == [] {
    } else if IsWhiteSpace(s[0]) {
      var rest := TrimStart(s);
      assert |rest| < |s| by {
        TrimStartSuffix(s);
        assert rest != s;
      }
      SplitPiecesHaveNoWhiteSpace(rest);
      forall k | 0 < k < |r| ensures NoWhiteSpace(r[k]) {
        assert r[k] == SplitOnWhiteSpace(rest)[k - 1];
      }
    } else {
      var rest := SplitOnWhiteSpace(s[1..]);
      SplitPiecesHaveNoWhiteSpace(s[1..]);
      forall k | 0 <= k < |r| ensures NoWhiteSpace(r[k]) {
        if k == 0 {
          assert NoWhiteSpace(rest[0]);
        } else {
          assert r[k] == rest[k];
        }
      }
    }
  }

  /**
   * A trimmed, non-empty text splits into non-empty pieces only: every piece
   * is a token.
   */
  lemma SplitTrimmedHasNoEmptyPiece(s: string)
    requires s != [] && !IsWhiteSpace(s[0]) && !IsWhiteSpace(s[|s| - 1])
    ensures forall k :: 0 <= k < |SplitOnWhiteSpace(s)| ==> SplitOnWhiteSpace(s)[k] != []
  {
    SplitLaterPiecesNonEmpty(s);
    assert SplitOnWhiteSpace(s)[0] == [s[0]] + SplitOnWhiteSpace(s[1..])[0];
  }

  /** Without trailing white space, every piece after the first is non-empty. */
  lemma {:induction false} SplitLaterPiecesNonEmpty(s: string)
    requires s == [] || !IsWhiteSpace(s[|s| - 1])
    ensures forall k :: 1 <= k < |SplitOnWhiteSpace(s)| ==> SplitOnWhiteSpace(s)[k] != []
    decreases |s|
  {
    if s != [] {
      var r := SplitOnWhiteSpace(s);
      if IsWhiteSpace(s[0]) {
        var u := TrimStart(s);
        TrimStartSuffix(s);
        assert u != [] && u[|u| - 1] == s[|s| - 1];
        SplitLaterPiecesNonEmpty(u);
        var rest := SplitOnWhiteSpace(u);
        assert rest[0] == [u[0]] + SplitOnWhiteSpace(u[1..])[0];
        forall k | 1 <= k < |r| ensures r[k] != [] {
          assert r[k] == rest[k - 1];
        }
      } else {
        var t := s[1..];
        assert t == [] || t[|t| - 1] == s[|s| - 1];
        SplitLaterPiecesNonEmpty(t);
        var rest := SplitOnWhiteSpace(t);
        forall k | 1 <= k < |r| ensures r[k] != [] {
          assert r[k] == rest[k];
        }
      }
    }
  }

  /** Text made only of white space (the empty text included) trims to "" and splits into one empty piece. */
  lemma WhiteSpaceTextIsOnePiece(s: string)
    requires AllWhiteSpace(s)
    ensures SplitOnWhiteSpace(Trim(s)) == [[]]
  {
    TrimEmpty(s);
  }

  /**
   * `ToNumber` applied to a String (ECMA-262 section 7.1.4.1.1): text that is
   * empty or all white space converts to 0; otherwise the trimmed text is
   * read as a numeric literal by `literal`, which stands for the grammar
   * StrNumericLiteral and yields NaN for anything it does not accept.
   */
  function StringToNumber(s: string, literal: string -> Number): (n: Number)
    ensures AllWhiteSpace(s) ==> n == Finite(0.0)
    ensures !AllWhiteSpace(s) ==> n == literal(Trim(s))
  {
    var t := Trim(s);
    TrimEmpty(s);
    if t == [] then Finite(0.0) else literal(t)
  }

  /** `s.includes(t)`: `t` occurs in `s` as a contiguous piece. */
  predicate Includes(s: string, t: string)
  {
    exists i :: 0 <= i <= |s| && OccursAt(s, t, i)
  }

  predicate OccursAt(s: string, t: string, i: nat)
  {
    i + |t| <= |s| && s[i..i + |t|] == t
  }

  lemma IncludesEmpty(s: string)
    ensures Includes(s, [])
  {
    assert OccursAt(s, [], 0);
  }

  /** `s.toLowerCase()`, with the per-character case mapping left as `lower`. */
  function LowerCase(s: string, lower: char -> char): (r: string)
    ensures |r| == |s|
    ensures forall i :: 0 <= i < |s| ==> r[i] == lower(s[i])
  {
    seq(|s|, i requires 0 <= i < |s| => lower(s[i]))
  }

  /**
   * Padding with white space on either side does not change what `trim`
   * returns.
   */
  lemma {:induction false} TrimIgnoresPadding(p: string, s: string, q: string)
    requires AllWhiteSpace(p) && AllWhiteSpace(q)
    ensures Trim(p + s + q) == Trim(s)
  {
    TrimStartDropsWhiteSpace(p, s + q);
    assert p + s + q == p + (s + q);
    if AllWhiteSpace(s) {
      WhiteSpaceConcat(s, q);
      TrimStartOfWhiteSpace(s + q);
      TrimStartOfWhiteSpace(s);
    } else {
      TrimStartAppend(s, q);
      TrimEndDropsWhiteSpace(TrimStart(s), q);
    }
  }

  lemma {:induction false} TrimStartDropsWhiteSpace(p: string, s: string)
    requires AllWhiteSpace(p)
    ensures TrimStart(p + s) == TrimStart(s)
  {
    if p != [] {
      assert (p + s)[0] == p[0];
      assert (p + s)[1..] == p[1..] + s;
      TrimStartDropsWhiteSpace(p[1..], s);
    } else {
      assert p + s == s;
    }
  }

  lemma {:induction false} TrimStartAppend(s: string, q: string)
    requires !AllWhiteSpace(s)
    ensures TrimStart(s + q) == TrimStart(s) + q
  {
    assert (s + q)[0] == s[0];
    if IsWhiteSpace(s[0]) {
      assert (s + q)[1..] == s[1..] + q;
      TrimStartAppend(s[1..], q);
    }
  }

  lemma {:induction false} TrimEndDropsWhiteSpace(s: string, q: string)
    requires AllWhiteSpace(q)
    ensures TrimEnd(s + q) == TrimEnd(s)
  {
    if q != [] {
      var q' := q[..|q| - 1];
      assert (s + q)[|s + q| - 1] == q[|q| - 1];
      assert (s + q)[..|s + q| - 1] == s + q';
      TrimEndDropsWhiteSpace(s, q');
    } else {
      assert s + q == s;
    }
  }
}
