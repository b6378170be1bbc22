/** Text as the catalog compares it, once as JavaScript does and once as the database does. Letters outside
    ASCII keep their case. */
module CatalogText {
  import opened Sequences
  import opened WhiteSpace

  /** What `btrim` strips. */
  predicate IsBlank(c: char) { c == ' ' }

  predicate IsWord(c: char) { 'a' <= c <= 'z' || '0' <= c <= '9' }

  function LowerChar(c: char): char { if 'A' <= c <= 'Z' then (c as int + 32) as char else c }

  function Lower(s: string): (r: string)
    ensures |r| == |s| && forall i | 0 <= i < |s| :: r[i] == LowerChar(s[i])
  {
    if s == [] then [] else [LowerChar(s[0])] + Lower(s[1..])
  }

  function UpperChar(c: char): char { if 'a' <= c <= 'z' then (c as int - 32) as char else c }

  function Upper(s: string): (r: string)
    ensures |r| == |s| && forall i | 0 <= i < |s| :: r[i] == UpperChar(s[i])
  {
    if s == [] then [] else [UpperChar(s[0])] + Upper(s[1..])
  }

  function DropFront(s: string, strip: char -> bool): (r: string)
    ensures |r| <= |s|
  {
    if s == [] || !strip(s[0]) then s else DropFront(s[1..], strip)
  }

  function DropBack(s: string, strip: char -> bool): string
  {
    if s == [] || !strip(s[|s| - 1]) then s else DropBack(s[..|s| - 1], strip)
  }

  function Strip(s: string, strip: char -> bool): string { DropBack(DropFront(s, strip), strip) }

  function Trim(s: string): string { Strip(s, IsSpace) }

  function BTrim(s: string): string { Strip(s, IsBlank) }

  ghost predicate All(s: string, p: char -> bool) { forall c | c in s :: p(c) }

  predicate Bare(s: string, strip: char -> bool) { s == [] || (!strip(s[0]) && !strip(s[|s| - 1])) }

  // ---- Stripping --------------------------------------------------------------------

  lemma {:induction false} SplitFirst(s: string)
    requires s != []
    ensures s == [s[0]] + s[1..]
  {
  }

  lemma {:induction false} SplitLast(s: string)
    requires s != []
    ensures s == s[..|s| - 1] + [s[|s| - 1]]
  {
  }

  lemma {:induction false} DropFrontParts(s: string, strip: char -> bool) returns (front: string)
    ensures s == front + DropFront(s, strip) && All(front, strip)
    ensures DropFront(s, strip) == [] || !strip(DropFront(s, strip)[0])
  {
    if s == [] || !strip(s[0]) {
      front := [];
    } else {
      var rest := DropFrontParts(s[1..], strip);
      front := [s[0]] + rest;
      SplitFirst(s);
      Associative([s[0]], rest, DropFront(s, strip));
    }
  }

  lemma {:induction false} DropBackParts(s: string, strip: char -> bool) returns (back: string)
    ensures s == DropBack(s, strip) + back && All(back, strip)
    ensures var r := DropBack(s, strip); r == [] || (!strip(r[|r| - 1]) && r[0] == s[0])
  {
    if s == [] || !strip(s[|s| - 1]) {
      back := [];
    } else {
      var init := s[..|s| - 1];
      var rest := DropBackParts(init, strip);
      back := rest + [s[|s| - 1]];
      SplitLast(s);
      Associative(DropBack(s, strip), rest, [s[|s| - 1]]);
    }
  }

  /** Stripping takes strippable characters off both ends, and no more can be taken. */
  lemma {:induction false} StripParts(s: string, strip: char -> bool) returns (front: string, back: string)
    ensures s == front + Strip(s, strip) + back && All(front, strip) && All(back, strip) && Bare(Strip(s, strip), strip)
  {
    front := DropFrontParts(s, strip);
    back := DropBackParts(DropFront(s, strip), strip);
    Associative(front, Strip(s, strip), back);
  }

  lemma {:induction false} DropFrontSkips(a: string, t: string, strip: char -> bool)
    requires All(a, strip) && (t == [] || !strip(t[0]))
    ensures DropFront(a + t, strip) == t
  {
    if a == [] {
      assert a + t == t;
    } else {
      assert (a + t)[1..] == a[1..] + t;
      DropFrontSkips(a[1..], t, strip);
    }
  }

  lemma {:induction false} DropBackSkips(t: string, b: string, strip: char -> bool)
    requires All(b, strip) && (t == [] || !strip(t[|t| - 1]))
    ensures DropBack(t + b, strip) == t
  {
    if b == [] {
      assert t + b == t;
    } else {
      assert (t + b)[..|t + b| - 1] == t + b[..|b| - 1];
      DropBackSkips(t, b[..|b| - 1], strip);
    }
  }

  /** The stripped text is the only one that ends in nothing strippable. */
  lemma {:induction false} StripIs(a: string, t: string, b: string, strip: char -> bool)
    requires All(a, strip) && All(b, strip) && Bare(t, strip)
    ensures Strip(a + t + b, strip) == t
  {
    if t == [] {
      assert a + t + b == a + b + [];
      DropFrontSkips(a + b, [], strip);
    } else {
      Associative(a, t, b);
      DropFrontSkips(a, t + b, strip);
      DropBackSkips(t, b, strip);
    }
  }

  lemma {:induction false} StripBare(t: string, strip: char -> bool)
    requires Bare(t, strip)
    ensures Strip(t, strip) == t
  {
    StripIs([], t, [], strip);
    assert [] + t + [] == t;
  }

  lemma {:induction false} TrimIdempotent(s: string)
    ensures Trim(Trim(s)) == Trim(s) && Bare(Trim(s), IsSpace)
  {
    var _, _ := StripParts(s, IsSpace);
    StripBare(Trim(s), IsSpace);
  }

  /** Blanks are white space: `btrim` never takes more than `trim`. */
  lemma {:induction false} TrimBTrim(s: string)
    ensures Trim(BTrim(s)) == Trim(s)
    ensures Bare(BTrim(s), IsSpace) <==> BTrim(s) == Trim(s)
  {
    var a, b := StripParts(s, IsBlank);
    var c, d := StripParts(BTrim(s), IsSpace);
    var t := Trim(BTrim(s));
    Regroup(a, c, t, d, b);
    StripIs(a + c, t, d + b, IsSpace);
    if Bare(BTrim(s), IsSpace) {
      StripBare(BTrim(s), IsSpace);
    }
  }

  lemma {:induction false} Regroup(a: string, c: string, t: string, d: string, b: string)
    ensures a + (c + t + d) + b == (a + c) + t + (d + b)
  {
  }

  lemma {:induction false} LowerAppend(a: string, b: string)
    ensures Lower(a + b) == Lower(a) + Lower(b)
  {
  }

  lemma {:induction false} LowerTwice(s: string)
    ensures Lower(Lower(s)) == Lower(s)
  {
  }

  lemma {:induction false} LowerSpaces(s: string)
    requires All(s, IsSpace)
    ensures Lower(s) == s && forall c | c in s :: !IsWord(c)
  {
    forall i | 0 <= i < |s| ensures Lower(s)[i] == s[i] {
      assert s[i] in s;
    }
  }

  /** Case does not matter to what is stripped. */
  lemma {:induction false} LowerStrip(s: string, strip: char -> bool)
    requires strip == IsSpace || strip == IsBlank
    ensures Strip(Lower(s), strip) == Lower(Strip(s, strip))
  {
    var a, b := StripParts(s, strip);
    LowerAppend(a + Strip(s, strip), b);
    LowerAppend(a, Strip(s, strip));
    assert All(a, IsSpace) && All(b, IsSpace);
    LowerSpaces(a);
    LowerSpaces(b);
    StripIs(Lower(a), Lower(Strip(s, strip)), Lower(b), strip);
  }

  // ---- Tokens -----------------------------------------------------------------------

  function WordLength(s: string): (n: nat)
    ensures n <= |s| && (forall i | 0 <= i < n :: IsWord(s[i])) && (n < |s| ==> !IsWord(s[n]))
  {
    if s == [] || !IsWord(s[0]) then 0 else 1 + WordLength(s[1..])
  }

  /** The runs of letters and digits of a text in lower case. */
  function Words(s: string): seq<string>
  {
    if s == [] then []
    else if !IsWord(s[0]) then Words(s[1..])
    else [s[..WordLength(s)]] + Words(s[WordLength(s)..])
  }

  function Tokens(s: string): seq<string> { Words(Lower(s)) }

  lemma {:induction false} WordLengthIs(s: string, n: nat)
    requires n <= |s| && (forall i | 0 <= i < n :: IsWord(s[i])) && (n < |s| ==> !IsWord(s[n]))
    ensures WordLength(s) == n
  {
    if 0 < n {
      WordLengthIs(s[1..], n - 1);
    }
  }

  lemma {:induction false} WordsSkipFront(a: string, t: string)
    requires forall c | c in a :: !IsWord(c)
    ensures Words(a + t) == Words(t)
  {
    if a == [] {
      assert a + t == t;
    } else {
      assert (a + t)[1..] == a[1..] + t;
      WordsSkipFront(a[1..], t);
    }
  }

  lemma {:induction false} WordsSkipBack(t: string, b: string)
    requires forall c | c in b :: !IsWord(c)
    ensures Words(t + b) == Words(t)
  {
    if t == [] {
      WordsSkipFront(b, []);
      assert t + b == b + [];
    } else if !IsWord(t[0]) {
      assert (t + b)[1..] == t[1..] + b;
      WordsSkipBack(t[1..], b);
    } else {
      var n := WordLength(t);
      WordLengthIs(t + b, n);
      assert (t + b)[..n] == t[..n] && (t + b)[n..] == t[n..] + b;
      WordsSkipBack(t[n..], b);
    }
  }

  /** Words hold nothing but letters and digits. */
  lemma {:induction false} WordsAreWords(s: string, word: string)
    requires word in Words(s)
    ensures All(word, IsWord)
  {
    if !IsWord(s[0]) {
      WordsAreWords(s[1..], word);
    } else if word != s[..WordLength(s)] {
      WordsAreWords(s[WordLength(s)..], word);
    }
  }

  lemma {:induction false} NoToken(text: string, token: string)
    requires exists i :: 0 <= i < |token| && !IsWord(token[i])
    ensures token !in Tokens(text)
  {
    if token in Tokens(text) {
      WordsAreWords(Lower(text), token);
    }
  }

  lemma {:induction false} TrimKeepsTokens(s: string)
    ensures Tokens(Trim(s)) == Tokens(s)
  {
    var a, b := StripParts(s, IsSpace);
    LowerAppend(a + Trim(s), b);
    LowerAppend(a, Trim(s));
    LowerSpaces(a);
    LowerSpaces(b);
    WordsSkipBack(Lower(a) + Lower(Trim(s)), Lower(b));
    WordsSkipFront(Lower(a), Lower(Trim(s)));
  }

  // ---- Runs of white space ----------------------------------------------------------

  /** Every run of characters that `run` accepts becomes one `with`. */
  function Runs(s: string, run: char -> bool, with: char): string
    decreases |s|
  {
    if s == [] then []
    else if run(s[0]) then [with] + Runs(DropFront(s[1..], run), run, with)
    else [s[0]] + Runs(s[1..], run, with)
  }

  function Collapse(s: string): string { Runs(s, IsSpace, ' ') }

  function NormalizeBrand(s: string): string { Lower(Collapse(Trim(s))) }

  /** The brand column: runs of white space first, then `btrim`. */
  function SqlBrand(s: string): string { Lower(BTrim(Collapse(s))) }

  lemma {:induction false} CollapseSpaces(a: string)
    requires All(a, IsSpace)
    ensures Collapse(a) == if a == [] then [] else " "
  {
    if a != [] {
      DropFrontSkips(a[1..], [], IsSpace);
      assert a[1..] + [] == a[1..];
      assert Collapse(a) == " " + Collapse([]) == " ";
    }
  }

  lemma {:induction false} CollapseFront(a: string, t: string)
    requires All(a, IsSpace) && (t == [] || !IsSpace(t[0]))
    ensures Collapse(a + t) == (if a == [] then [] else " ") + Collapse(t)
  {
    if a == [] {
      assert a + t == t;
    } else {
      assert (a + t)[1..] == a[1..] + t;
      DropFrontSkips(a[1..], t, IsSpace);
    }
  }

  lemma {:induction false} DropFrontAll(a: string, b: string, strip: char -> bool)
    ensures DropFront(a + b, strip)
            == if DropFront(a, strip) == [] then DropFront(b, strip) else DropFront(a, strip) + b
  {
    if a == [] {
      assert a + b == b;
    } else if strip(a[0]) {
      assert (a + b)[1..] == a[1..] + b;
      DropFrontAll(a[1..], b, strip);
    }
  }

  lemma {:induction false} DropFrontLast(t: string, strip: char -> bool)
    requires t != [] && !strip(t[|t| - 1])
    ensures var r := DropFront(t, strip); r != [] && r[|r| - 1] == t[|t| - 1]
  {
    if strip(t[0]) {
      DropFrontLast(t[1..], strip);
    }
  }

  /** What follows a character that is no white space collapses on its own. */
  lemma {:induction false} CollapseBack(t: string, b: string)
    requires t != [] && !IsSpace(t[|t| - 1])
    ensures Collapse(t + b) == Collapse(t) + Collapse(b)
    decreases |t|
  {
    assert (t + b)[1..] == t[1..] + b;
    if t[1..] == [] {
      assert [t[0]] + Collapse([]) == [t[0]];
      assert t[1..] + b == b;
    } else if IsSpace(t[0]) {
      var rest := DropFront(t[1..], IsSpace);
      DropFrontLast(t[1..], IsSpace);
      DropFrontAll(t[1..], b, IsSpace);
      CollapseBack(rest, b);
      Associative(" ", Collapse(rest), Collapse(b));
    } else {
      CollapseBack(t[1..], b);
      Associative([t[0]], Collapse(t[1..]), Collapse(b));
    }
  }

  lemma {:induction false} CollapseBare(t: string)
    requires t != [] && Bare(t, IsSpace)
    ensures Collapse(t) != [] && Bare(Collapse(t), IsSpace)
  {
    CollapseLast(t);
  }

  lemma {:induction false} CollapseLast(t: string)
    requires t != [] && !IsSpace(t[|t| - 1])
    ensures Collapse(t) != [] && Collapse(t)[|Collapse(t)| - 1] == t[|t| - 1]
    decreases |t|
  {
    if t[1..] == [] {
      assert Collapse(t) == [t[0]] + Collapse([]);
    } else if IsSpace(t[0]) {
      DropFrontLast(t[1..], IsSpace);
      CollapseLast(DropFront(t[1..], IsSpace));
    } else {
      CollapseLast(t[1..]);
    }
  }

  /** The brand column of the database and the normalization in the program agree on every text. */
  lemma {:induction false} BrandsAgree(s: string)
    ensures SqlBrand(s) == NormalizeBrand(s)
  {
    var a, b := StripParts(s, IsSpace);
    var t := Trim(s);
    if t == [] {
      assert s == a + b;
      CollapseSpaces(s);
      var blanks: string := if s == [] then [] else " ";
      assert blanks + [] + [] == blanks;
      StripIs(blanks, [], [], IsBlank);
    } else {
      Associative(a, t, b);
      CollapseFront(a, t + b);
      CollapseBack(t, b);
      CollapseSpaces(b);
      CollapseBare(t);
      var left: string := if a == [] then [] else " ";
      Associative(left, Collapse(t), Collapse(b));
      StripIs(left, Collapse(t), Collapse(b), IsBlank);
    }
  }

  // ---- A brand is normalized once -----------------------------------------------------

  /** Every white space is a single blank. */
  ghost predicate Single(s: string)
  {
    forall i | 0 <= i < |s| && IsSpace(s[i]) :: s[i] == ' ' && (i + 1 < |s| ==> !IsSpace(s[i + 1]))
  }

  lemma {:induction false} CollapseSingle(s: string)
    ensures Single(Collapse(s)) && (Collapse(s) != [] && s != [] && !IsSpace(s[0]) ==> Collapse(s)[0] == s[0])
    decreases |s|
  {
    if s != [] {
      if IsSpace(s[0]) {
        var _ := DropFrontParts(s[1..], IsSpace);
        CollapseSingle(DropFront(s[1..], IsSpace));
      } else {
        CollapseSingle(s[1..]);
      }
    }
  }

  lemma {:induction false} SingleCollapsed(s: string)
    requires Single(s)
    ensures Collapse(s) == s
  {
    if s != [] {
      SplitFirst(s);
      assert Single(s[1..]);
      SingleCollapsed(s[1..]);
      assert IsSpace(s[0]) ==> DropFront(s[1..], IsSpace) == s[1..];
    }
  }

  lemma {:induction false} BrandForm(text: string)
    requires text != [] && Bare(text, IsSpace)
    ensures var b := NormalizeBrand(text); b != [] && Trim(b) == b && NormalizeBrand(b) == b
  {
    StripBare(text, IsSpace);
    CollapseBare(text);
    CollapseSingle(text);
    var c := Collapse(text);
    StripBare(Lower(c), IsSpace);
    SingleCollapsed(Lower(c));
    LowerTwice(c);
  }
}
