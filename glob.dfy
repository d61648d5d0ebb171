/** File-name pattern matching as `glob` applies it to the entries of one
    directory, and the name pattern the correction stage looks for. */
module Glob {
  import opened PyStr

  /** `name` matches `pat`, where '*' stands for any run of characters, '?'
      for any one character and every other character for itself. */
  predicate Match(pat: string, name: string)
    decreases |pat| + |name|
  {
    if pat == "" then name == ""
    else if pat[0] == '*' then Match(pat[1..], name) || (name != "" && Match(pat, name[1..]))
    else name != "" && (pat[0] == '?' || pat[0] == name[0]) && Match(pat[1..], name[1..])
  }

  /** A pattern fragment without glob characters and without the path
      separator, which glob treats as a directory boundary. */
  predicate Literal(s: string) {
    forall i :: 0 <= i < |s| ==> s[i] != '*' && s[i] != '?' && s[i] != '[' && s[i] != '/'
  }

  /** A literal prefix of the pattern matches exactly itself. */
  lemma {:induction false} LiteralPrefix(lit: string, rest: string, name: string)
    requires Literal(lit)
    ensures Match(lit + rest, name) <==>
              (|lit| <= |name| && name[..|lit|] == lit && Match(rest, name[|lit|..]))
    decreases |lit|
  {
    if lit == "" {
      assert lit + rest == rest;
      assert name[..0] == lit && name[0..] == name;
    } else {
      var p := lit + rest;
      assert p[0] == lit[0] && p[1..] == lit[1..] + rest;
      if name != "" {
        LiteralPrefix(lit[1..], rest, name[1..]);
        if |lit| <= |name| {
          assert name[1..][..|lit| - 1] == name[1..|lit|];
          assert name[..|lit|] == [name[0]] + name[1..|lit|];
          assert name[1..][|lit| - 1..] == name[|lit|..];
          assert lit == [lit[0]] + lit[1..];
        }
      }
    }
  }

  /** A pattern without glob characters matches exactly itself. */
  lemma LiteralMatch(pat: string, name: string)
    requires Literal(pat)
    ensures Match(pat, name) <==> name == pat
  {
    LiteralPrefix(pat, "", name);
    assert pat + "" == pat;
    if |pat| <= |name| && name[|pat|..] == "" {
      assert name == name[..|pat|];
    }
    if name == pat {
      assert name[..|pat|] == pat && name[|pat|..] == "";
    }
  }

  /** A leading '*' that matches consumes some prefix of the name. */
  lemma {:induction false} StarWitness(rest: string, name: string) returns (k: nat)
    requires Match("*" + rest, name)
    ensures k <= |name| && Match(rest, name[k..])
    decreases |name|
  {
    var p := "*" + rest;
    assert p[0] == '*' && p[1..] == rest;
    if Match(rest, name) {
      k := 0;
    } else {
      var k' := StarWitness(rest, name[1..]);
      k := k' + 1;
      assert name[1..][k'..] == name[k..];
    }
  }

  /** A leading '*' may consume any prefix of the name. */
  lemma {:induction false} StarFrom(rest: string, name: string, k: nat)
    requires k <= |name| && Match(rest, name[k..])
    ensures Match("*" + rest, name)
    decreases k
  {
    var p := "*" + rest;
    assert p[0] == '*' && p[1..] == rest;
    if k > 0 {
      assert name[1..][k - 1..] == name[k..];
      StarFrom(rest, name[1..], k - 1);
    }
  }

  /** The middle of the ESPA output name: `_<pathrow>_<date>_`. */
  function Core(pathrow: string, date: string): string {
    "_" + pathrow + "_" + date + "_"
  }

  /** The file-name pattern `LC08_*_<pathrow>_<date>_*.tif`. */
  function EspaPattern(pathrow: string, date: string): (r: string)
    ensures |r| >= 13 && r[..6] == "LC08_*" && r[|r| - 5..] == "*.tif"
  {
    "LC08_*" + Core(pathrow, date) + "*.tif"
  }

  /** What the pattern promises, spelt out: the name begins with `LC08_`,
      ends with `.tif`, and `_<pathrow>_<date>_` stands between the two. */
  ghost predicate IsEspaOutput(name: string, pathrow: string, date: string) {
    && |name| >= 9
    && name[..5] == "LC08_"
    && name[|name| - 4..] == ".tif"
    && OccursFrom(name[..|name| - 4], Core(pathrow, date), 5)
  }

  lemma CoreLiteral(pathrow: string, date: string)
    requires Literal(pathrow) && Literal(date)
    ensures Literal(Core(pathrow, date))
  {
    var core := Core(pathrow, date);
    forall i | 0 <= i < |core| ensures core[i] != '*' && core[i] != '?' {
      if 1 <= i < 1 + |pathrow| {
        assert core[i] == pathrow[i - 1];
      } else if 2 + |pathrow| <= i < 2 + |pathrow| + |date| {
        assert core[i] == date[i - 2 - |pathrow|];
      }
    }
  }

  lemma EspaPatternSplit(pathrow: string, date: string)
    ensures EspaPattern(pathrow, date) == "LC08_" + ("*" + (Core(pathrow, date) + ("*" + ".tif")))
  {
  }

  /** A name that matches `*<lit><tail>` for a literal `lit` is
      `<x><lit><c>` with `c` matching `tail`. */
  lemma StarLiteralParts(a: string, lit: string, tail: string) returns (x: string, c: string)
    requires Literal(lit) && Match("*" + (lit + tail), a)
    ensures a == x + lit + c && Match(tail, c)
  {
    var k := StarWitness(lit + tail, a);
    var b := a[k..];
    LiteralPrefix(lit, tail, b);
    x, c := a[..k], b[|lit|..];
    assert b == lit + c;
    assert a == x + b;
    AppendAssoc(x, lit, c);
  }

  /** A name that matches `*.tif` is `<y>.tif`. */
  lemma TifParts(c: string) returns (y: string)
    requires Match("*" + ".tif", c)
    ensures c == y + ".tif"
  {
    var k := StarWitness(".tif", c);
    assert Literal(".tif");
    LiteralMatch(".tif", c[k..]);
    y := c[..k];
    assert c[k..] == ".tif";
    assert c == c[..k] + c[k..];
  }

  /** A name that matches the ESPA pattern is `LC08_<x>_<pathrow>_<date>_<y>.tif`. */
  lemma MatchParts(name: string, pathrow: string, date: string) returns (x: string, y: string)
    requires Literal(pathrow) && Literal(date)
    requires Match(EspaPattern(pathrow, date), name)
    ensures name == "LC08_" + x + Core(pathrow, date) + y + ".tif"
  {
    var core := Core(pathrow, date);
    CoreLiteral(pathrow, date);
    EspaPatternSplit(pathrow, date);
    StarAfterPrefix(name, core + ("*" + ".tif"));
    var a := name[5..];
    var c;
    x, c := StarLiteralParts(a, core, "*" + ".tif");
    y := TifParts(c);
    assert name == "LC08_" + a;
    var p := "LC08_" + x;
    AppendAssoc("LC08_", x + core, c);
    AppendAssoc(p, core, c);
    AppendAssoc(p + core, y, ".tif");
  }

  /** `LC08_<x>_<pathrow>_<date>_<y>.tif` has the shape the pattern describes. */
  lemma OutputOfParts(x: string, pathrow: string, date: string, y: string)
    ensures IsEspaOutput("LC08_" + x + Core(pathrow, date) + y + ".tif", pathrow, date)
  {
    var core := Core(pathrow, date);
    var name := "LC08_" + x + core + y + ".tif";
    var stem := name[..|name| - 4];
    assert stem == "LC08_" + x + core + y;
    assert stem[5 + |x|..5 + |x| + |core|] == core;
    assert OccursAt(stem, core, 5 + |x|);
    assert name[..5] == "LC08_" && name[|name| - 4..] == ".tif";
  }

  /** A name that matches the ESPA pattern has the shape it describes. */
  lemma MatchIsEspaOutput(name: string, pathrow: string, date: string)
    requires Literal(pathrow) && Literal(date)
    requires Match(EspaPattern(pathrow, date), name)
    ensures IsEspaOutput(name, pathrow, date)
  {
    var x, y := MatchParts(name, pathrow, date);
    OutputOfParts(x, pathrow, date, y);
  }

  /** A name that ends with `.tif` matches `*.tif`. */
  lemma TifSuffixMatches(c: string)
    requires |c| >= 4 && c[|c| - 4..] == ".tif"
    ensures Match("*" + ".tif", c)
  {
    var k := |c| - 4;
    assert Literal(".tif");
    LiteralMatch(".tif", c[k..]);
    StarFrom(".tif", c, k);
  }

  /** A name that matches `LC08_*<mid>` starts with `LC08_` and its
      remainder matches `*<mid>`. */
  lemma StarAfterPrefix(name: string, mid: string)
    requires Match("LC08_" + ("*" + mid), name)
    ensures |name| >= 5 && name[..5] == "LC08_" && Match("*" + mid, name[5..])
  {
    assert Literal("LC08_");
    LiteralPrefix("LC08_", "*" + mid, name);
  }

  /** A name of the described shape matches the ESPA pattern. */
  lemma EspaOutputMatches(name: string, pathrow: string, date: string)
    requires Literal(pathrow) && Literal(date)
    requires IsEspaOutput(name, pathrow, date)
    ensures Match(EspaPattern(pathrow, date), name)
  {
    var core := Core(pathrow, date);
    CoreLiteral(pathrow, date);
    var tail := "*" + ".tif";
    var mid := core + tail;
    EspaPatternSplit(pathrow, date);
    var i :| 5 <= i && OccursAt(name[..|name| - 4], core, i);
    var a := name[5..];
    var b := a[i - 5..];
    var c := b[|core|..];
    assert c[|c| - 4..] == name[|name| - 4..];
    TifSuffixMatches(c);
    assert b[..|core|] == name[..|name| - 4][i..i + |core|];
    LiteralPrefix(core, tail, b);
    StarFrom(mid, a, i - 5);
    PrefixThenStar(name, mid);
  }

  /** A name starting with `LC08_` whose remainder matches `*<mid>`
      matches `LC08_*<mid>`. */
  lemma PrefixThenStar(name: string, mid: string)
    requires |name| >= 5 && name[..5] == "LC08_" && Match("*" + mid, name[5..])
    ensures Match("LC08_" + ("*" + mid), name)
  {
    assert Literal("LC08_");
    LiteralPrefix("LC08_", "*" + mid, name);
  }

  /** For a pathrow without wildcards, a name matches the ESPA pattern
      exactly when it has the shape the pattern describes. */
  lemma EspaPatternMeaning(name: string, pathrow: string, date: string)
    requires Literal(pathrow) && Literal(date)
    ensures Match(EspaPattern(pathrow, date), name) <==> IsEspaOutput(name, pathrow, date)
  {
    if Match(EspaPattern(pathrow, date), name) {
      MatchIsEspaOutput(name, pathrow, date);
    }
    if IsEspaOutput(name, pathrow, date) {
      EspaOutputMatches(name, pathrow, date);
    }
  }
}
