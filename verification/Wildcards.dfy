/** The wildcard test of role permissions, for patterns whose only special character is the star. */
module Wildcards {

  /** A star stands for any run of characters. */
  predicate Glob(pattern: string, text: string)
    decreases |pattern| + |text|
  {
    if pattern == "" then text == ""
    else if pattern[0] == '*' then Glob(pattern[1..], text) || (text != "" && Glob(pattern, text[1..]))
    else text != "" && text[0] == pattern[0] && Glob(pattern[1..], text[1..])
  }

  /** `str.replace(token, "*")`: occurrences from the left, not overlapping. */
  function Starred(s: string, token: string): string
    requires token != ""
  {
    if s == "" then ""
    else if token <= s then "*" + Starred(s[|token|..], token)
    else [s[0]] + Starred(s[1..], token)
  }

  /** `_wildcard_covers` */
  predicate EntraCovers(pattern: string, target: string, lower: string -> string) {
    Glob(Starred(Starred(Starred(lower(pattern), "alltasks"), "allproperties"), "allentities"), lower(target))
  }

  /** `_azure_wildcard_covers` */
  predicate AzureCovers(pattern: string, target: string, lower: string -> string) {
    Glob(lower(pattern), lower(target))
  }

  /** Some suffix of the text matches. */
  predicate SomeSuffix(pattern: string, text: string) {
    exists k | 0 <= k <= |text| :: Glob(pattern, text[k..])
  }

  lemma {:induction false} StarMeaning(pattern: string, text: string)
    ensures Glob("*" + pattern, text) <==> SomeSuffix(pattern, text)
    decreases |text|
  {
    var star := "*" + pattern;
    assert star[1..] == pattern && text[0..] == text;
    if text != "" {
      StarMeaning(pattern, text[1..]);
      if SomeSuffix(pattern, text[1..]) {
        var k :| 0 <= k <= |text[1..]| && Glob(pattern, text[1..][k..]);
        assert text[k + 1..] == text[1..][k..];
      }
      if SomeSuffix(pattern, text) && !Glob(pattern, text) {
        var k :| 0 <= k <= |text| && Glob(pattern, text[k..]);
        assert text[1..][k - 1..] == text[k..];
        assert SomeSuffix(pattern, text[1..]);
      }
    }
  }

  /** The text splits into a part for each pattern. */
  predicate Splits(p: string, q: string, text: string) {
    exists k | 0 <= k <= |text| :: Glob(p, text[..k]) && Glob(q, text[k..])
  }

  lemma SplitAt(p: string, q: string, text: string, k: nat)
    requires k <= |text| && Glob(p, text[..k]) && Glob(q, text[k..])
    ensures Splits(p, q, text)
  {
  }

  /** Matching is compositional: a pattern made of two matches the texts made of two. */
  lemma {:induction false} GlobConcat(p: string, q: string, text: string)
    ensures Glob(p + q, text) <==> Splits(p, q, text)
    decreases |p| + |text|
  {
    if p == "" {
      assert p + q == q && text[..0] == "" && text[0..] == text;
      if Glob(q, text) {
        SplitAt(p, q, text, 0);
      }
    } else {
      assert (p + q)[0] == p[0] && (p + q)[1..] == p[1..] + q;
      GlobConcat(p[1..], q, text);
      if text != "" {
        GlobConcat(p, q, text[1..]);
        GlobConcat(p[1..], q, text[1..]);
      }
      if Glob(p + q, text) {
        SplitForward(p, q, text);
      }
      if Splits(p, q, text) {
        var k :| 0 <= k <= |text| && Glob(p, text[..k]) && Glob(q, text[k..]);
        if p[0] == '*' && Glob(p[1..], text[..k]) {
          SplitAt(p[1..], q, text, k);
          SkipStar(p, q, text);
        } else {
          ConsumeOne(p, q, text, k);
          ReadOne(p, q, text);
        }
      }
    }
  }

  lemma SplitForward(p: string, q: string, text: string)
    requires p != "" && Glob(p + q, text)
    requires Glob(p[1..] + q, text) ==> Splits(p[1..], q, text)
    requires text != "" && Glob(p + q, text[1..]) ==> Splits(p, q, text[1..])
    requires text != "" && Glob(p[1..] + q, text[1..]) ==> Splits(p[1..], q, text[1..])
    ensures Splits(p, q, text)
  {
    assert (p + q)[0] == p[0] && (p + q)[1..] == p[1..] + q;
    if p[0] == '*' && Glob(p[1..] + q, text) {
      var k :| 0 <= k <= |text| && Glob(p[1..], text[..k]) && Glob(q, text[k..]);
      SplitAt(p, q, text, k);
    } else {
      var rest := if p[0] == '*' then p else p[1..];
      var k :| 0 <= k <= |text[1..]| && Glob(rest, text[1..][..k]) && Glob(q, text[1..][k..]);
      assert text[..k + 1][1..] == text[1..][..k] && text[k + 1..] == text[1..][k..];
      SplitAt(p, q, text, k + 1);
    }
  }

  lemma SkipStar(p: string, q: string, text: string)
    requires p != "" && p[0] == '*' && Glob(p[1..] + q, text)
    ensures Glob(p + q, text)
  {
    assert (p + q)[0] == p[0] && (p + q)[1..] == p[1..] + q;
  }

  lemma ReadOne(p: string, q: string, text: string)
    requires p != "" && text != "" && (p[0] == '*' || p[0] == text[0])
    requires Glob((if p[0] == '*' then p else p[1..]) + q, text[1..])
    ensures Glob(p + q, text)
  {
    assert (p + q)[0] == p[0] && (p + q)[1..] == p[1..] + q;
  }

  /** When the first part consumes a character, so does the whole. */
  lemma ConsumeOne(p: string, q: string, text: string, k: nat)
    requires p != "" && k <= |text| && Glob(p, text[..k]) && Glob(q, text[k..])
    requires !(p[0] == '*' && Glob(p[1..], text[..k]))
    ensures k > 0 && (p[0] == '*' || p[0] == text[0])
    ensures Splits(if p[0] == '*' then p else p[1..], q, text[1..])
  {
    var head, rest := text[..k], if p[0] == '*' then p else p[1..];
    assert head != "" && Glob(rest, head[1..]);
    assert head[1..] == text[1..][..k - 1] && text[k..] == text[1..][k - 1..];
    SplitAt(rest, q, text[1..], k - 1);
  }

  /** A pattern without a star covers exactly itself. */
  lemma {:induction false} LiteralPattern(pattern: string, text: string)
    requires '*' !in pattern
    ensures Glob(pattern, text) <==> pattern == text
    decreases |pattern|
  {
    if pattern != "" {
      assert pattern[0] in pattern && '*' !in pattern[1..];
      if text != "" {
        LiteralPattern(pattern[1..], text[1..]);
        assert pattern == [pattern[0]] + pattern[1..] && text == [text[0]] + text[1..];
      }
    }
  }

  lemma {:induction false} GlobSelf(s: string)
    ensures Glob(s, s)
    decreases |s|
  {
    if s != "" {
      GlobSelf(s[1..]);
      if s[0] == '*' {
        StarMeaning(s[1..], s);
        assert s == "*" + s[1..];
        assert SomeSuffix(s[1..], s);
      }
    }
  }

  /** Starring a token only widens a pattern. */
  lemma {:induction false} StarringWidens(pattern: string, token: string, text: string)
    requires token != "" && Glob(pattern, text)
    ensures Glob(Starred(pattern, token), text)
    decreases |pattern| + |text|
  {
    if pattern == "" {
    } else if token <= pattern {
      var rest := pattern[|token|..];
      assert pattern == token + rest;
      GlobConcat(token, rest, text);
      var k :| 0 <= k <= |text| && Glob(token, text[..k]) && Glob(rest, text[k..]);
      StarringWidens(rest, token, text[k..]);
      StarMeaning(Starred(rest, token), text);
      assert SomeSuffix(Starred(rest, token), text);
    } else {
      var wide := Starred(pattern, token);
      assert wide[0] == pattern[0] && wide[1..] == Starred(pattern[1..], token);
      if pattern[0] == '*' && Glob(pattern[1..], text) {
        StarringWidens(pattern[1..], token, text);
      } else if pattern[0] == '*' {
        StarringWidens(pattern, token, text[1..]);
      } else {
        StarringWidens(pattern[1..], token, text[1..]);
      }
    }
  }

  /** The Entra test covers whatever the plain test covers, so every permission covers itself in both. */
  lemma EntraIsWider(pattern: string, target: string, lower: string -> string)
    ensures AzureCovers(pattern, target, lower) ==> EntraCovers(pattern, target, lower)
    ensures AzureCovers(pattern, pattern, lower) && EntraCovers(pattern, pattern, lower)
  {
    GlobSelf(lower(pattern));
    forall t | Glob(lower(pattern), t)
      ensures Glob(Starred(Starred(Starred(lower(pattern), "alltasks"), "allproperties"), "allentities"), t)
    {
      StarringWidens(lower(pattern), "alltasks", t);
      StarringWidens(Starred(lower(pattern), "alltasks"), "allproperties", t);
      StarringWidens(Starred(Starred(lower(pattern), "alltasks"), "allproperties"), "allentities", t);
    }
  }

  // ---- The Entra words that stand for anything ----

  /** What the three words have in common: none begins again within itself or another, nor ends where another goes
      on. */
  predicate Word(t: string) {
    && |t| > 2 && t[0] == 'a' && t[1] == 'l' && t[|t| - 1] == 's' && t[|t| - 2] != 'a'
    && (forall k | 0 < k < |t| - 1 :: t[k] == 'a' ==> t[k + 1] != 'l')
    && (forall k | 0 <= k < |t| - 1 :: t[k] == 's' ==> k > 0 && t[k - 1] == 'a')
  }

  predicate EndsWith(s: string, end: string) {
    |end| <= |s| && s[|s| - |end|..] == end
  }

  /** No occurrence of the token straddles the seam of `x` and `y`. */
  predicate Clean(x: string, y: string, token: string) {
    forall k | 0 < k < |token| :: !(EndsWith(x, token[..k]) && token[k..] <= y)
  }

  /** The token from `k` on begins `s[i..]`: character by character. */
  lemma BeginsAt(token: string, k: nat, s: string, i: nat)
    requires k <= |token| && i <= |s|
    ensures token[k..] <= s[i..] ==> |token| - k <= |s| - i && forall j | k <= j < |token| :: token[j] == s[i + j - k]
  {
    if token[k..] <= s[i..] {
      forall j | k <= j < |token| ensures token[j] == s[i + j - k] {
        assert token[k..][j - k] == s[i..][j - k];
      }
    }
  }

  lemma EndsAt(s: string, token: string, k: nat)
    requires k <= |token|
    ensures EndsWith(s, token[..k]) ==> k <= |s| && forall j | 0 <= j < k :: token[j] == s[|s| - k + j]
  {
    if EndsWith(s, token[..k]) {
      forall j | 0 <= j < k ensures token[j] == s[|s| - k + j] {
        assert s[|s| - k..][j] == token[..k][j];
      }
    }
  }

  /** An occurrence at the front of two joined texts lies within the first or straddles the seam. */
  lemma FrontOccurrence(x: string, y: string, token: string)
    requires token <= x + y && |x| < |token|
    ensures EndsWith(x, token[..|x|]) && token[|x|..] <= y
  {
    var k := |x|;
    assert forall i | 0 <= i < |token| :: token[i] == (x + y)[i];
    assert x == token[..k] && x[|x| - k..] == x;
    assert token[k..] == y[..|token| - k];
  }

  lemma {:induction false} StarredConcat(x: string, y: string, token: string)
    requires token != "" && Clean(x, y, token)
    ensures Starred(x + y, token) == Starred(x, token) + Starred(y, token)
    decreases |x|
  {
    if x == "" {
      assert x + y == y;
    } else {
      if token <= x + y && |x| < |token| {
        FrontOccurrence(x, y, token);
      }
      assert token <= x + y <==> token <= x;
      var n := if token <= x then |token| else 1;
      assert (x + y)[n..] == x[n..] + y;
      CleanSuffix(x, y, token, n);
      StarredConcat(x[n..], y, token);
    }
  }

  lemma CleanSuffix(x: string, y: string, token: string, n: nat)
    requires n <= |x| && Clean(x, y, token)
    ensures Clean(x[n..], y, token)
  {
    forall k | 0 < k < |token| ensures !(EndsWith(x[n..], token[..k]) && token[k..] <= y) {
      if EndsWith(x[n..], token[..k]) {
        assert x[|x| - k..] == x[n..][|x[n..]| - k..];
        assert EndsWith(x, token[..k]);
      }
    }
  }

  /** No word straddles the beginning of another. */
  lemma CleanBefore(a: string, u: string, b: string, t: string)
    requires Word(u) && Word(t)
    ensures Clean(a, u + b, t)
  {
    forall k | 0 < k < |t| ensures !(t[k..] <= u + b) {
      BeginsAt(t, k, u + b, 0);
      assert (u + b)[0..] == u + b && (u + b)[0] == u[0] && (u + b)[1] == u[1];
    }
  }

  /** Nor its end. */
  lemma CleanBehind(u: string, b: string, t: string)
    requires Word(u) && Word(t)
    ensures Clean(u, b, t)
  {
    forall k | 0 < k < |t| ensures !EndsWith(u, t[..k]) {
      EndsAt(u, t, k);
    }
  }

  /** A word stays itself unless it is the one replaced. */
  lemma WordStarred(u: string, t: string)
    requires Word(u) && Word(t) && (u == t || !(t <= u))
    ensures Starred(u, t) == if u == t then "*" else u
  {
    if u == t {
      assert u[|t|..] == "";
      assert Starred("", t) == "";
    } else {
      Unstarred(u, t, 0);
    }
  }

  lemma {:induction false} Unstarred(u: string, t: string, i: nat)
    requires Word(u) && Word(t) && !(t <= u) && i <= |u|
    ensures Starred(u[i..], t) == u[i..]
    decreases |u| - i
  {
    if i < |u| {
      BeginsAt(t, 0, u, i);
      assert t[0..] == t && u[0..] == u;
      assert u[i..][1..] == u[i + 1..];
      Unstarred(u, t, i + 1);
    }
  }

  lemma StarredAround(a: string, u: string, b: string, t: string)
    requires Word(u) && Word(t) && (u == t || !(t <= u))
    ensures Starred(a + u + b, t) == Starred(a, t) + (if u == t then "*" else u) + Starred(b, t)
  {
    CleanBefore(a, u, b, t);
    CleanBehind(u, b, t);
    assert a + u + b == a + (u + b);
    StarredConcat(a, u + b, t);
    StarredConcat(u, b, t);
    WordStarred(u, t);
  }

  lemma TheWords()
    ensures Word("alltasks") && Word("allproperties") && Word("allentities")
    ensures !("alltasks" <= "allproperties") && !("alltasks" <= "allentities") && !("allproperties" <= "allentities")
  {
    assert "alltasks"[3] != "allproperties"[3] && "alltasks"[3] != "allentities"[3];
  }

  lemma StarBetween(p: string, q: string, a: string, x: string, b: string)
    requires Glob(p, a) && Glob(q, b)
    ensures Glob(p + "*" + q, a + x + b)
  {
    var text := a + x + b;
    assert text == a + (x + b) && (x + b)[|x|..] == b;
    assert SomeSuffix(q, x + b);
    StarMeaning(q, x + b);
    assert text[..|a|] == a && text[|a|..] == x + b;
    SplitAt(p, "*" + q, text, |a|);
    GlobConcat(p, "*" + q, text);
    assert p + "*" + q == p + ("*" + q);
  }

  /** The words of the Entra permissions stand for anything: a pattern with one of them covers every permission that has
      any text in its place. */
  lemma WordsCoverAnything(pattern: string, target: string, lower: string -> string, a: string, u: string, b: string,
                           x: string)
    requires lower(pattern) == a + u + b && lower(target) == a + x + b
    requires u == "alltasks" || u == "allproperties" || u == "allentities"
    ensures EntraCovers(pattern, target, lower)
  {
    var text := a + x + b;
    TheWords();
    GlobSelf(a);
    GlobSelf(b);
    var a1, b1 := Starred(a, "alltasks"), Starred(b, "alltasks");
    StarredAround(a, u, b, "alltasks");
    StarringWidens(a, "alltasks", a);
    StarringWidens(b, "alltasks", b);
    if u == "alltasks" {
      StarBetween(a1, b1, a, x, b);
      StarringWidens(a1 + "*" + b1, "allproperties", text);
      StarringWidens(Starred(a1 + "*" + b1, "allproperties"), "allentities", text);
    } else {
      var a2, b2 := Starred(a1, "allproperties"), Starred(b1, "allproperties");
      StarredAround(a1, u, b1, "allproperties");
      StarringWidens(a1, "allproperties", a);
      StarringWidens(b1, "allproperties", b);
      if u == "allproperties" {
        StarBetween(a2, b2, a, x, b);
        StarringWidens(a2 + "*" + b2, "allentities", text);
      } else {
        StarredAround(a2, u, b2, "allentities");
        StarringWidens(a2, "allentities", a);
        StarringWidens(b2, "allentities", b);
        StarBetween(Starred(a2, "allentities"), Starred(b2, "allentities"), a, x, b);
      }
    }
  }

  // ---- And nothing else ----

  /** The token occurs nowhere in the text. */
  predicate Free(s: string, token: string) {
    forall i | 0 <= i <= |s| :: !(token <= s[i..])
  }

  /** Neither a star nor a word that stands for one. */
  predicate Literal(s: string) {
    '*' !in s && Free(s, "alltasks") && Free(s, "allproperties") && Free(s, "allentities")
  }

  lemma {:induction false} StarredFree(s: string, token: string)
    requires token != "" && Free(s, token)
    ensures Starred(s, token) == s
    decreases |s|
  {
    if s != "" {
      assert s[0..] == s;
      forall i | 0 <= i <= |s[1..]| ensures !(token <= s[1..][i..]) {
        assert s[1..][i..] == s[i + 1..];
      }
      StarredFree(s[1..], token);
    }
  }

  lemma StarredLiteral(s: string)
    requires Literal(s)
    ensures Starred(s, "alltasks") == s && Starred(s, "allproperties") == s && Starred(s, "allentities") == s
  {
    StarredFree(s, "alltasks");
    StarredFree(s, "allproperties");
    StarredFree(s, "allentities");
  }

  /** No token without a star reaches across one. */
  lemma StarSeam(a: string, b: string, token: string)
    requires token != "" && '*' !in token
    ensures Starred(a + "*" + b, token) == Starred(a, token) + "*" + Starred(b, token)
  {
    forall k | 0 < k < |token| ensures !(token[k..] <= "*" + b) {
      BeginsAt(token, k, "*" + b, 0);
      assert ("*" + b)[0..] == "*" + b && ("*" + b)[0] == '*' && token[k] in token;
    }
    forall k | 0 < k < |token| ensures !EndsWith("*", token[..k]) {
      EndsAt("*", token, k);
      assert token[0] in token;
    }
    assert a + "*" + b == a + ("*" + b);
    StarredConcat(a, "*" + b, token);
    StarredConcat("*", b, token);
    LoneStar(token);
  }

  lemma LoneStar(token: string)
    requires token != "" && '*' !in token
    ensures Starred("*", token) == "*"
  {
    BeginsAt(token, 0, "*", 0);
    assert token[0..] == token && "*"[0..] == "*" && token[0] in token;
    assert "*"[1..] == "" && Starred("", token) == "";
  }

  lemma StarSplits(a: string, b: string, text: string) returns (x: string)
    requires '*' !in a && '*' !in b && Splits(a, "*" + b, text)
    ensures text == a + x + b
  {
    var k :| 0 <= k <= |text| && Glob(a, text[..k]) && Glob("*" + b, text[k..]);
    LiteralPattern(a, text[..k]);
    x := StarEnds(b, text[k..]);
    assert text == text[..k] + text[k..];
  }

  lemma StarEnds(b: string, text: string) returns (x: string)
    requires '*' !in b && Glob("*" + b, text)
    ensures text == x + b
  {
    StarMeaning(b, text);
    var j :| 0 <= j <= |text| && Glob(b, text[j..]);
    LiteralPattern(b, text[j..]);
    x := text[..j];
  }

  /** Between two literal parts a star stands for any text, and the parts for themselves. */
  lemma StarExactly(a: string, b: string, text: string)
    requires '*' !in a && '*' !in b
    ensures Glob(a + "*" + b, text) <==> exists x :: text == a + x + b
  {
    assert a + "*" + b == a + ("*" + b);
    GlobConcat(a, "*" + b, text);
    if Splits(a, "*" + b, text) {
      var x := StarSplits(a, b, text);
    }
    if x :| text == a + x + b {
      GlobSelf(a);
      GlobSelf(b);
      StarBetween(a, b, a, x, b);
    }
  }

  lemma WordsHaveNoStar()
    ensures '*' !in "alltasks" && '*' !in "allproperties" && '*' !in "allentities"
  {
  }

  /** What the replacements make of a pattern with one word between literal parts. */
  lemma OneWordStarred(a: string, u: string, b: string)
    requires Literal(a) && Literal(b)
    requires u == "alltasks" || u == "allproperties" || u == "allentities"
    ensures Starred(Starred(Starred(a + u + b, "alltasks"), "allproperties"), "allentities") == a + "*" + b
  {
    TheWords();
    WordsHaveNoStar();
    StarredLiteral(a);
    StarredLiteral(b);
    StarredAround(a, u, b, "alltasks");
    if u == "alltasks" {
      StarSeam(a, b, "allproperties");
      StarSeam(a, b, "allentities");
    } else {
      StarredAround(a, u, b, "allproperties");
      if u == "allproperties" {
        StarSeam(a, b, "allentities");
      } else {
        StarredAround(a, u, b, "allentities");
      }
    }
  }

  /** Under the Entra test a pattern without stars and words covers exactly itself, and one with a single word between
      such parts exactly the permissions that begin with the one part and end with the other. */
  lemma EntraExactly(pattern: string, target: string, lower: string -> string, a: string, u: string, b: string)
    requires Literal(a) && Literal(b)
    requires u == "alltasks" || u == "allproperties" || u == "allentities"
    ensures lower(pattern) == a ==> (EntraCovers(pattern, target, lower) <==> lower(target) == a)
    ensures lower(pattern) == a + u + b ==>
              (EntraCovers(pattern, target, lower) <==> exists x :: lower(target) == a + x + b)
  {
    StarredLiteral(a);
    LiteralPattern(a, lower(target));
    OneWordStarred(a, u, b);
    StarExactly(a, b, lower(target));
  }
}
