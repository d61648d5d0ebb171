/** The Python string operations the Landsat handlers rely on: `str.split`
    with an explicit separator, `sep.join`, `str.replace` and the POSIX
    `os.path.join` of two components. */
module PyStr {

  /** `pat` occurs in `s` starting at index `i`. */
  predicate OccursAt(s: string, pat: string, i: int) {
    0 <= i && i + |pat| <= |s| && s[i..i + |pat|] == pat
  }

  ghost predicate Occurs(s: string, pat: string) {
    exists i :: OccursAt(s, pat, i)
  }

  /** `pat` occurs in `s` at index `lo` or later. */
  ghost predicate OccursFrom(s: string, pat: string, lo: int) {
    exists i :: lo <= i && OccursAt(s, pat, i)
  }

  /** The number of occurrences of the character `c` in `s`. */
  function Count(s: string, c: char): nat {
    if s == "" then 0 else (if s[0] == c then 1 else 0) + Count(s[1..], c)
  }

  /** `s.split(sep)`: the pieces between the occurrences of `sep` found by a
      left-to-right scan. Python refuses an empty separator. */
  function Split(s: string, sep: string): (r: seq<string>)
    requires sep != ""
    ensures |r| >= 1
    decreases |s|
  {
    if |s| < |sep| then [s]
    else if s[..|sep|] == sep then [""] + Split(s[|sep|..], sep)
    else
      var t := Split(s[1..], sep);
      [[s[0]] + t[0]] + t[1..]
  }

  /** `sep.join(pieces)`. */
  function Join(pieces: seq<string>, sep: string): string
    decreases |pieces|
  {
    if pieces == [] then ""
    else if |pieces| == 1 then pieces[0]
    else pieces[0] + sep + Join(pieces[1..], sep)
  }

  /** `s.replace(pat, rep)`: every occurrence of `pat` found by a
      left-to-right, non-overlapping scan is replaced by `rep`; an empty
      `pat` inserts `rep` before every character and at the end. */
  function Replace(s: string, pat: string, rep: string): (r: string)
    // each occurrence replaced changes the length by |rep| - |pat|
    ensures pat != "" && |rep| <= |pat| ==> |r| <= |s|
    ensures pat != "" && |rep| >= |pat| ==> |r| >= |s|
    decreases |s|
  {
    if pat == "" then
      (if s == "" then rep else rep + [s[0]] + Replace(s[1..], pat, rep))
    else if |s| < |pat| then s
    else if s[..|pat|] == pat then rep + Replace(s[|pat|..], pat, rep)
    else [s[0]] + Replace(s[1..], pat, rep)
  }

  /** `posixpath.join(a, b)`: an absolute `b` replaces `a`; otherwise `b` is
      appended after a single '/'. */
  function PathJoin(a: string, b: string): (r: string)
    ensures |b| <= |r| && r[|r| - |b|..] == b
    ensures (b != "" && b[0] == '/') || (|a| <= |r| && r[..|a|] == a)
  {
    if b != "" && b[0] == '/' then b
    else if a == "" || a[|a| - 1] == '/' then a + b
    else a + "/" + b
  }

  // ---------------------------------------------------------------------
  // Properties of Split and Join

  lemma AppendAssoc<T>(a: seq<T>, b: seq<T>, c: seq<T>)
    ensures (a + b) + c == a + (b + c)
  {
  }

  lemma JoinCons(pieces: seq<string>, sep: string)
    requires |pieces| >= 2
    ensures Join(pieces, sep) == pieces[0] + sep + Join(pieces[1..], sep)
  {
  }

  lemma JoinConsHead(c: char, p: string, rest: seq<string>, sep: string)
    ensures Join([[c] + p] + rest, sep) == [c] + Join([p] + rest, sep)
  {
    if rest != [] {
      assert ([[c] + p] + rest)[1..] == rest;
      assert ([p] + rest)[1..] == rest;
    }
  }

  /** Splitting and joining with the same separator gives back the string. */
  lemma {:induction false} SplitJoin(s: string, sep: string)
    requires sep != ""
    ensures Join(Split(s, sep), sep) == s
    decreases |s|
  {
    if |s| < |sep| {
    } else if s[..|sep|] == sep {
      SplitJoin(s[|sep|..], sep);
      JoinAfterSep(sep, s[|sep|..]);
      assert s == sep + s[|sep|..];
    } else {
      SplitJoin(s[1..], sep);
      JoinAfterChar(s, sep);
    }
  }

  lemma JoinAfterSep(sep: string, rest: string)
    requires sep != ""
    requires Join(Split(rest, sep), sep) == rest
    ensures Join(Split(sep + rest, sep), sep) == sep + rest
  {
    var s := sep + rest;
    assert s[..|sep|] == sep && s[|sep|..] == rest;
    var t := Split(rest, sep);
    assert Split(s, sep) == [""] + t;
    JoinEmptyHead(t, sep);
  }

  lemma JoinEmptyHead(t: seq<string>, sep: string)
    requires t != []
    ensures Join([""] + t, sep) == sep + Join(t, sep)
  {
    var u := [""] + t;
    assert u[1..] == t;
    assert u[0] + sep == sep;
  }

  lemma JoinAfterChar(s: string, sep: string)
    requires sep != "" && |s| >= |sep| && s[..|sep|] != sep
    requires Join(Split(s[1..], sep), sep) == s[1..]
    ensures Join(Split(s, sep), sep) == s
  {
    var t := Split(s[1..], sep);
    assert Split(s, sep) == [[s[0]] + t[0]] + t[1..];
    JoinConsHead(s[0], t[0], t[1..], sep);
    HeadTail(t);
    assert Join([t[0]] + t[1..], sep) == s[1..];
    HeadTail(s);
  }

  lemma HeadTail<T>(s: seq<T>)
    requires s != []
    ensures [s[0]] + s[1..] == s
  {
  }

  /** The first piece is the part of `s` before the first occurrence. */
  lemma {:induction false} SplitHeadIsPrefix(s: string, sep: string)
    requires sep != ""
    ensures |Split(s, sep)[0]| <= |s| && Split(s, sep)[0] == s[..|Split(s, sep)[0]|]
    decreases |s|
  {
    if |s| < |sep| {
    } else if s[..|sep|] == sep {
    } else {
      SplitHeadIsPrefix(s[1..], sep);
    }
  }

  /** No piece of a split contains the separator. */
  lemma {:induction false} SplitPiecesFree(s: string, sep: string, k: nat)
    requires sep != ""
    requires k < |Split(s, sep)|
    ensures !Occurs(Split(s, sep)[k], sep)
    decreases |s|
  {
    var r := Split(s, sep);
    if |s| < |sep| {
    } else if s[..|sep|] == sep {
      var t := Split(s[|sep|..], sep);
      if k == 0 {
      } else {
        assert r[k] == t[k - 1];
        SplitPiecesFree(s[|sep|..], sep, k - 1);
      }
    } else {
      var t := Split(s[1..], sep);
      if k == 0 {
        var p := [s[0]] + t[0];
        SplitPiecesFree(s[1..], sep, 0);
        SplitHeadIsPrefix(s, sep);
        forall i ensures !OccursAt(p, sep, i) {
          if i == 0 {
            if |sep| <= |p| {
              assert p == s[..|p|];
              assert p[..|sep|] == s[..|sep|];
            }
          } else if 0 < i && i + |sep| <= |p| {
            assert p[i..i + |sep|] == t[0][i - 1..i - 1 + |sep|];
            assert !OccursAt(t[0], sep, i - 1);
          }
        }
      } else {
        assert r[k] == t[k];
        SplitPiecesFree(s[1..], sep, k);
      }
    }
  }

  /** A one-character separator splits `s` into one more piece than it has
      occurrences of that character. */
  lemma {:induction false} SplitCount(s: string, c: char)
    ensures |Split(s, [c])| == Count(s, c) + 1
    decreases |s|
  {
    if s != "" {
      SplitCount(s[1..], c);
      assert s[..1] == [s[0]];
    }
  }

  /** A leading piece free of the separator is split off whole. */
  lemma {:induction false} SplitAfterPiece(a: string, c: char, x: string)
    requires c !in a
    ensures Split(a + [c] + x, [c]) == [a] + Split(x, [c])
    decreases |a|
  {
    var s := a + [c] + x;
    if a == "" {
      assert s[..1] == [c];
      assert s[1..] == x;
    } else {
      assert s[..1] == [a[0]];
      assert s[1..] == a[1..] + [c] + x;
      SplitAfterPiece(a[1..], c, x);
      assert [a[0]] + a[1..] == a;
    }
  }

  /** A piece followed only by the end of the string or by the separator is
      the first piece. */
  lemma {:induction false} SplitLastOrNext(v: string, c: char, rest: string)
    requires c !in v
    requires rest == "" || rest[0] == c
    ensures Split(v + rest, [c])[0] == v
  {
    if rest == "" {
      SplitNoSep(v, c);
      assert v + rest == v;
    } else {
      SplitAfterPiece(v, c, rest[1..]);
      assert v + rest == v + [c] + rest[1..];
    }
  }

  lemma {:induction false} SplitNoSep(v: string, c: char)
    requires c !in v
    ensures Split(v, [c]) == [v]
    decreases |v|
  {
    if v != "" {
      assert v[..1] == [v[0]];
      SplitNoSep(v[1..], c);
      assert [v[0]] + v[1..] == v;
    }
  }

  lemma NoOccurrenceOfChar(v: string, c: char)
    requires !Occurs(v, [c])
    ensures c !in v
  {
    forall i | 0 <= i < |v| ensures v[i] != c {
      assert v[i..i + 1] == [v[i]];
      assert OccursAt(v, [v[i]], i);
    }
  }

  // ---------------------------------------------------------------------
  // Properties of Replace

  /** `s.replace(pat, rep)` is `rep.join(s.split(pat))`. */
  lemma {:induction false} ReplaceIsJoinOfSplit(s: string, pat: string, rep: string)
    requires pat != ""
    ensures Replace(s, pat, rep) == Join(Split(s, pat), rep)
    decreases |s|
  {
    if |s| < |pat| {
    } else if s[..|pat|] == pat {
      var t := Split(s[|pat|..], pat);
      ReplaceIsJoinOfSplit(s[|pat|..], pat, rep);
      assert ([""] + t)[1..] == t;
    } else {
      var t := Split(s[1..], pat);
      ReplaceIsJoinOfSplit(s[1..], pat, rep);
      JoinConsHead(s[0], t[0], t[1..], rep);
      assert [t[0]] + t[1..] == t;
    }
  }

  /** Replacing something that does not occur changes nothing. */
  lemma {:induction false} ReplaceAbsent(s: string, pat: string, rep: string)
    requires pat != "" && !Occurs(s, pat)
    ensures Replace(s, pat, rep) == s
    decreases |s|
  {
    if |s| < |pat| {
    } else if s[..|pat|] == pat {
      assert OccursAt(s, pat, 0);
    } else {
      forall i | OccursAt(s[1..], pat, i) ensures false {
        assert s[1..][i..i + |pat|] == s[i + 1..i + 1 + |pat|];
        assert OccursAt(s, pat, i + 1);
      }
      ReplaceAbsent(s[1..], pat, rep);
      assert [s[0]] + s[1..] == s;
    }
  }

  /** Removing a leading `pat` that does not recur leaves the remainder. */
  lemma ReplaceLeading(pat: string, r: string)
    requires pat != "" && !Occurs(r, pat)
    ensures Replace(pat + r, pat, "") == r
  {
    var s := pat + r;
    assert s[..|pat|] == pat;
    assert s[|pat|..] == r;
    ReplaceAbsent(r, pat, "");
  }

  /** Replacing the empty string by the empty string changes nothing. */
  lemma {:induction false} ReplaceEmptyByEmpty(s: string)
    ensures Replace(s, "", "") == s
    decreases |s|
  {
    if s != "" {
      ReplaceEmptyByEmpty(s[1..]);
      assert [s[0]] + s[1..] == s;
    }
  }
}
