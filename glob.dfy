/**
 * Shell-style wildcard matching as done by Python's `fnmatch.fnmatch` on a
 * POSIX system, where no case folding takes place.  A pattern is first read
 * into tokens (`*`, `?`, a bracket expression or an ordinary character), the
 * same way `fnmatch` translates it into a regular expression, and the tokens
 * are then matched against the WHOLE name.  Nothing treats `/` specially: `*`
 * and `?` match it like any other character.
 */
module Glob {

  /** One member of a bracket expression: a single character or an inclusive range. */
  datatype ClassItem = Single(c: char) | Span(lo: char, hi: char)

  datatype Token =
    | Literal(c: char)                               // an ordinary character
    | AnyOne                                         // `?`
    | AnyRun                                         // `*`
    | Bracket(negated: bool, items: seq<ClassItem>)  // `[...]`, or `[!...]` when negated

  predicate InItem(item: ClassItem, c: char) {
    match item
    case Single(x) => c == x
    case Span(lo, hi) => lo <= c <= hi
  }

  predicate InItems(items: seq<ClassItem>, c: char) {
    exists i :: 0 <= i < |items| && InItem(items[i], c)
  }

  /** Whether a token other than `*` accepts the character `c`. */
  predicate Accepts(t: Token, c: char)
    requires !t.AnyRun?
  {
    match t
    case Literal(x) => c == x
    case AnyOne => true
    case Bracket(negated, items) => InItems(items, c) != negated
  }

  /** The characters that are not matched literally outside a bracket expression. */
  predicate Special(c: char) {
    c == '*' || c == '?' || c == '['
  }

  predicate Plain(p: string) {
    forall i :: 0 <= i < |p| ==> !Special(p[i])
  }

  /** The index of the first `]` at or after `j`, or `|pat|` when there is none. */
  function CloseIndex(pat: string, j: nat): (k: nat)
    requires j <= |pat|
    ensures j <= k <= |pat|
    ensures k < |pat| ==> pat[k] == ']'
    ensures forall m :: j <= m < k ==> pat[m] != ']'
    decreases |pat| - j
  {
    if j == |pat| || pat[j] == ']' then j else CloseIndex(pat, j + 1)
  }

  /**
   * The members of a bracket expression's body, read from left to right: a
   * character followed by `-` and one more character is a range, anything
   * else stands for itself (so a `-` first or last is literal).  A range whose
   * bounds are reversed matches nothing, which is what `fnmatch` obtains by
   * dropping such a range.
   */
  function ClassItems(body: string): (items: seq<ClassItem>)
    decreases |body|
  {
    if |body| == 0 then []
    else if |body| >= 3 && body[1] == '-' then [Span(body[0], body[2])] + ClassItems(body[3..])
    else [Single(body[0])] + ClassItems(body[1..])
  }

  /**
   * The tokens of a pattern.  After `[` an optional `!` negates the class and a
   * `]` right after that is a member, not the end; a `[` that is never closed
   * is an ordinary character.
   */
  function Translate(pat: string): (toks: seq<Token>)
    ensures |toks| <= |pat|
    decreases |pat|
  {
    if pat == [] then []
    else if pat[0] == '*' then [AnyRun] + Translate(pat[1..])
    else if pat[0] == '?' then [AnyOne] + Translate(pat[1..])
    else if pat[0] == '[' then
      var j0 := if 1 < |pat| && pat[1] == '!' then 2 else 1;
      var j1 := if j0 < |pat| && pat[j0] == ']' then j0 + 1 else j0;
      var k := CloseIndex(pat, j1);
      if k == |pat| then [Literal('[')] + Translate(pat[1..])
      else [Bracket(j0 == 2, ClassItems(pat[j0..k]))] + Translate(pat[k + 1..])
    else [Literal(pat[0])] + Translate(pat[1..])
  }

  /** Whether the whole of `s` is matched by the tokens. */
  function Matches(toks: seq<Token>, s: string): bool
    decreases |toks|, |s|
  {
    if toks == [] then s == []
    else if toks[0].AnyRun? then Matches(toks[1..], s) || (s != [] && Matches(toks, s[1..]))
    else s != [] && Accepts(toks[0], s[0]) && Matches(toks[1..], s[1..])
  }

  /**
   * `fnmatch.fnmatch(name, pat)`.  A pattern without wildcards matches the
   * name that equals it, and only that name: there is no case folding.
   */
  function FnMatch(name: string, pat: string): (r: bool)
    ensures Plain(pat) ==> (r <==> name == pat)
  {
    if Plain(pat) then
      PlainTranslate(pat);
      LiteralsMatch(pat, [], name);
      assert Literals(pat) + [] == Literals(pat);
      Matches(Translate(pat), name)
    else
      Matches(Translate(pat), name)
  }

  function Literals(p: string): (toks: seq<Token>)
    ensures |toks| == |p|
    ensures forall i :: 0 <= i < |p| ==> toks[i] == Literal(p[i])
  {
    if p == [] then [] else [Literal(p[0])] + Literals(p[1..])
  }

  /** A pattern without `*`, `?` or `[` is read as its own characters. */
  lemma {:induction false} PlainTranslate(p: string)
    requires Plain(p)
    ensures Translate(p) == Literals(p)
  {
    if p != [] {
      PlainTranslate(p[1..]);
    }
  }

  /** Literal tokens consume exactly their own characters from the front of the name. */
  lemma {:induction false} LiteralsMatch(p: string, rest: seq<Token>, s: string)
    ensures Matches(Literals(p) + rest, s)
        <==> |p| <= |s| && s[..|p|] == p && Matches(rest, s[|p|..])
  {
    if p != [] {
      assert (Literals(p) + rest)[1..] == Literals(p[1..]) + rest;
      if s != [] {
        LiteralsMatch(p[1..], rest, s[1..]);
        if |p| <= |s| && s[..|p|] == p {
          assert s[1..][..|p| - 1] == p[1..];
        }
        if |p| - 1 <= |s| - 1 && s[1..][..|p| - 1] == p[1..] && s[0] == p[0] {
          assert s[..|p|] == [s[0]] + s[1..][..|p| - 1];
        }
      }
    } else {
      assert Literals(p) + rest == rest;
    }
  }

  /** `*` followed by `rest` matches exactly when `rest` matches some suffix of the name. */
  lemma {:induction false} AnyRunMatches(rest: seq<Token>, s: string)
    ensures Matches([AnyRun] + rest, s) <==> exists k :: 0 <= k <= |s| && Matches(rest, s[k..])
    decreases |s|
  {
    var toks := [AnyRun] + rest;
    assert toks[1..] == rest;
    if s == [] {
      assert s[0..] == s;
    } else {
      AnyRunMatches(rest, s[1..]);
      if Matches(toks, s) {
        if Matches(rest, s) {
          assert s[0..] == s;
        } else {
          var k :| 0 <= k <= |s| - 1 && Matches(rest, s[1..][k..]);
          assert s[1..][k..] == s[k + 1..];
        }
      }
      if exists k :: 0 <= k <= |s| && Matches(rest, s[k..]) {
        var k :| 0 <= k <= |s| && Matches(rest, s[k..]);
        if k == 0 {
          assert s[0..] == s;
        } else {
          assert s[1..][k - 1..] == s[k..];
        }
      }
    }
  }

  /** `*` alone matches every name, whatever characters (`/` included) it holds. */
  lemma {:induction false} StarMatchesAll(name: string)
    ensures FnMatch(name, "*")
  {
    assert Translate("*") == [AnyRun] + [];
    AnyRunMatches([], name);
    assert name[|name|..] == [];
  }

  /** `*` followed by plain text matches exactly the names that end with that text. */
  lemma StarSuffix(name: string, suffix: string)
    requires Plain(suffix)
    ensures FnMatch(name, "*" + suffix)
        <==> |suffix| <= |name| && name[|name| - |suffix|..] == suffix
  {
    var pat := "*" + suffix;
    assert pat[1..] == suffix;
    PlainTranslate(suffix);
    assert Translate(pat) == [AnyRun] + Literals(suffix);
    AnyRunMatches(Literals(suffix), name);
    assert Literals(suffix) + [] == Literals(suffix);
    if FnMatch(name, pat) {
      var k :| 0 <= k <= |name| && Matches(Literals(suffix), name[k..]);
      LiteralsMatch(suffix, [], name[k..]);
      assert name[k..][|suffix|..] == [];
      assert name[|name| - |suffix|..] == name[k..];
    }
    if |suffix| <= |name| && name[|name| - |suffix|..] == suffix {
      var k := |name| - |suffix|;
      LiteralsMatch(suffix, [], name[k..]);
      assert name[k..][..|suffix|] == suffix;
      assert name[k..][|suffix|..] == [];
    }
  }

  /** `?` matches exactly the names of one character. */
  lemma QuestionMatchesOneChar(name: string)
    ensures FnMatch(name, "?") <==> |name| == 1
  {
    assert Translate("?") == [AnyOne] + [];
    assert [AnyOne][1..] == [];
    if name != [] {
      assert Matches([AnyOne], name) == Matches([], name[1..]);
    }
  }

  /** A body without `-` lists its members one by one. */
  lemma {:induction false} ClassItemsWithoutRanges(body: string, c: char)
    requires forall i :: 0 <= i < |body| ==> body[i] != '-'
    ensures InItems(ClassItems(body), c) <==> c in body
  {
    if body != [] {
      ClassItemsWithoutRanges(body[1..], c);
      var items := ClassItems(body);
      assert items == [Single(body[0])] + ClassItems(body[1..]);
      if InItems(items, c) {
        var i :| 0 <= i < |items| && InItem(items[i], c);
        if i > 0 {
          assert InItem(ClassItems(body[1..])[i - 1], c);
        }
      }
      if c in body[1..] {
        var i :| 0 <= i < |ClassItems(body[1..])| && InItem(ClassItems(body[1..])[i], c);
        assert items[i + 1] == ClassItems(body[1..])[i];
      }
      assert c in body <==> c == body[0] || c in body[1..];
      if c == body[0] {
        assert InItem(items[0], c);
      }
    }
  }

  /** The first `]` at or after `j` closes a body without `]` that starts at `j`. */
  lemma CloseAfterBody(pat: string, j: nat, body: string)
    requires j + |body| < |pat| && pat[j..j + |body|] == body && pat[j + |body|] == ']'
    requires forall i :: 0 <= i < |body| ==> body[i] != ']'
    ensures CloseIndex(pat, j) == j + |body|
  {
    forall m | j <= m < j + |body| ensures pat[m] != ']' {
      assert pat[m] == body[m - j];
    }
  }

  /**
   * A closed bracket expression is one token: `[body]` accepts the characters
   * its members name, `[!body]` the others, and reading resumes after the `]`.
   */
  lemma BracketTranslate(negated: bool, body: string, rest: string)
    requires body != [] && body[0] != '!'
    requires forall i :: 0 <= i < |body| ==> body[i] != ']'
    ensures Translate((if negated then "[!" else "[") + body + "]" + rest)
         == [Bracket(negated, ClassItems(body))] + Translate(rest)
  {
    var open := if negated then "[!" else "[";
    var pat := open + body + "]" + rest;
    var j0 := |open|;
    assert pat[0] == '[';
    assert pat[1] == if negated then '!' else body[0];
    assert pat[j0..j0 + |body|] == body;
    assert pat[j0] == body[0];
    assert pat[j0 + |body|] == ']';
    var k := CloseIndex(pat, j0);
    CloseAfterBody(pat, j0, body);
    assert pat[k + 1..] == rest;
  }
}
