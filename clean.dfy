/**
 * `SearchQuery.clean`, identical in the Whoosh and the Solr backend: the
 * fragment is split into words; a word that is one of the reserved words is
 * lower-cased; then every reserved character pattern, in the order listed,
 * is replaced by itself behind a backslash; the words are joined with single
 * spaces.
 *
 * The eighteen successive `replace` passes are proved equal to a single
 * left-to-right scan, `Escape`, which puts one backslash in front of every
 * reserved token (`&&` and `||` count as one token each). That scan is then
 * shown to lose nothing: `Unescape` undoes it.
 */
module Clean {
  import opened Text

  /** RESERVED_WORDS, matched as whole words. */
  const ReservedWords: seq<string> := ["AND", "NOT", "OR", "TO"]

  /** RESERVED_CHARACTERS, in the order the passes run; the backslash comes first. */
  const ReservedCharacters: seq<string> :=
    ["\\", "+", "-", "&&", "||", "!", "(", ")", "{", "}", "[", "]", "^", "\"", "~", "*", "?", ":"]

  /** Position of a one-character pattern in ReservedCharacters; 18 for any other character. */
  function CharRank(c: char): nat {
    if c == '\\' then 0 else if c == '+' then 1 else if c == '-' then 2
    else if c == '!' then 5 else if c == '(' then 6 else if c == ')' then 7
    else if c == '{' then 8 else if c == '}' then 9 else if c == '[' then 10
    else if c == ']' then 11 else if c == '^' then 12 else if c == '"' then 13
    else if c == '~' then 14 else if c == '*' then 15 else if c == '?' then 16
    else if c == ':' then 17 else 18
  }

  /** The pattern list read through `CharRank`: entries 3 and 4 are the pairs, the rest single characters. */
  lemma PatternShape(k: nat)
    requires k < |ReservedCharacters|
    ensures k == 3 ==> ReservedCharacters[k] == "&&"
    ensures k == 4 ==> ReservedCharacters[k] == "||"
    ensures k != 3 && k != 4 ==> |ReservedCharacters[k]| == 1 && CharRank(ReservedCharacters[k][0]) == k
  {
  }

  /** A ranked character is the single-character pattern at its rank. */
  lemma RankedPattern(c: char)
    requires CharRank(c) < |ReservedCharacters|
    ensures ReservedCharacters[CharRank(c)] == [c]
  {
  }

  /**
   * Length of the reserved token at the front of `s` once the first `k`
   * patterns are escaped: 2 for an escaped pair, 1 for an escaped character,
   * 0 when `s` does not start with one.
   */
  function TokenLen(s: string, k: nat): (n: nat)
    ensures n <= |s|
  {
    if |s| >= 2 && s[0] == '&' && s[1] == '&' && 3 < k then 2
    else if |s| >= 2 && s[0] == '|' && s[1] == '|' && 4 < k then 2
    else if |s| >= 1 && CharRank(s[0]) < k then 1
    else 0
  }

  /** One left-to-right scan that escapes the tokens of the first `k` patterns. */
  function EscapeUpTo(s: string, k: nat): (r: string)
    ensures |r| >= |s|
    ensures s != [] ==> r != [] && (r[0] == s[0] || r[0] == '\\')
    decreases |s|
  {
    if s == [] then []
    else if TokenLen(s, k) == 0 then [s[0]] + EscapeUpTo(s[1..], k)
    else "\\" + s[..TokenLen(s, k)] + EscapeUpTo(s[TokenLen(s, k)..], k)
  }

  /** Every reserved token behind a backslash: what the replace passes of `clean` compute. */
  function Escape(s: string): string {
    EscapeUpTo(s, |ReservedCharacters|)
  }

  /** Drops the backslash in front of each escaped character. */
  function Unescape(t: string): string
    decreases |t|
  {
    if t == [] then []
    else if t[0] == '\\' && |t| >= 2 then [t[1]] + Unescape(t[2..])
    else [t[0]] + Unescape(t[1..])
  }

  /** What `clean` does to one word. */
  function CleanWord(w: string): string {
    Escape(if w in ReservedWords then Lower(w) else w)
  }

  /** What `clean` returns for a fragment. */
  function CleanFragment(fragment: string): string {
    var ws := Split(fragment);
    Join(seq(|ws|, i requires 0 <= i < |ws| => CleanWord(ws[i])), " ")
  }

  /* ---------------- the replace passes are one scan ---------------- */

  /** Before any pass nothing is escaped. */
  lemma {:induction false} EscapeUpToZero(s: string)
    ensures EscapeUpTo(s, 0) == s
    decreases |s|
  {
    if s != [] {
      assert TokenLen(s, 0) == 0;
      EscapeUpToZero(s[1..]);
      assert [s[0]] + s[1..] == s;
    }
  }

  /** `Replace` moves past a first character that cannot begin a match. */
  lemma ReplaceCons(x: char, rest: string, pat: string, rep: string)
    requires pat != []
    requires x != pat[0] || (|pat| == 2 && (rest == [] || rest[0] != pat[1]))
    ensures Replace([x] + rest, pat, rep) == [x] + Replace(rest, pat, rep)
  {
    var s := [x] + rest;
    assert s[1..] == rest;
    if x != pat[0] {
      ReplaceSkips([x], rest, pat, rep);
    } else if rest == [] {
      assert |s| < |pat|;
    } else {
      assert s[..|pat|][1] == rest[0];
    }
  }

  /** The tokens already escaped contain no first character of the next pattern. */
  lemma TokenAvoidsNext(s: string, k: nat)
    requires k < |ReservedCharacters| && TokenLen(s, k) > 0
    ensures forall i :: 0 <= i < |"\\" + s[..TokenLen(s, k)]| ==> ("\\" + s[..TokenLen(s, k)])[i] != ReservedCharacters[k][0]
  {
    PatternShape(k);
  }

  /** The pass for pattern `k` over one position of the scan. */
  ghost predicate StepHolds(s: string, k: nat)
    requires k < |ReservedCharacters|
  {
    Replace(EscapeUpTo(s, k), ReservedCharacters[k], "\\" + ReservedCharacters[k]) == EscapeUpTo(s, k + 1)
  }

  /** At a token the first `k` patterns already escape, the pass skips the token. */
  lemma StepAtToken(s: string, k: nat)
    requires k < |ReservedCharacters| && s != [] && TokenLen(s, k) > 0
    requires StepHolds(s[TokenLen(s, k)..], k)
    ensures StepHolds(s, k)
  {
    var pat := ReservedCharacters[k];
    PatternShape(k);
    var n := TokenLen(s, k);
    assert TokenLen(s, k + 1) == n;
    TokenAvoidsNext(s, k);
    ReplaceSkips("\\" + s[..n], EscapeUpTo(s[n..], k), pat, "\\" + pat);
  }

  /** At a pair that pattern `k` is, the pass escapes the pair. */
  lemma StepAtPair(s: string, k: nat)
    requires k < |ReservedCharacters| && s != [] && TokenLen(s, k) == 0 && TokenLen(s, k + 1) == 2
    requires StepHolds(s[2..], k)
    ensures StepHolds(s, k)
  {
    var pat := ReservedCharacters[k];
    PatternShape(k);
    assert pat == s[..2];
    assert TokenLen(s[1..], k) == 0;
    assert s[1..][1..] == s[2..];
    assert EscapeUpTo(s, k) == pat + EscapeUpTo(s[2..], k);
    ReplaceAtMatch(EscapeUpTo(s[2..], k), pat, "\\" + pat);
  }

  /** At the character that pattern `k` is, the pass escapes the character. */
  lemma StepAtChar(s: string, k: nat)
    requires k < |ReservedCharacters| && s != [] && TokenLen(s, k) == 0 && TokenLen(s, k + 1) == 1
    requires StepHolds(s[1..], k)
    ensures StepHolds(s, k)
  {
    var pat := ReservedCharacters[k];
    PatternShape(k);
    RankedPattern(s[0]);
    assert pat == [s[0]];
    ReplaceAtMatch(EscapeUpTo(s[1..], k), pat, "\\" + pat);
  }

  /** Elsewhere the pass moves past the character. */
  lemma StepAtPlain(s: string, k: nat)
    requires k < |ReservedCharacters| && s != [] && TokenLen(s, k) == 0 && TokenLen(s, k + 1) == 0
    requires StepHolds(s[1..], k)
    ensures StepHolds(s, k)
  {
    var pat := ReservedCharacters[k];
    PatternShape(k);
    assert s[0] != pat[0] || (|pat| == 2 && (s[1..] == [] || s[1..][0] != pat[1]));
    ReplaceCons(s[0], EscapeUpTo(s[1..], k), pat, "\\" + pat);
  }

  /**
   * The pass for pattern `k`, applied to the scan that escapes the first `k`
   * patterns, gives the scan that escapes the first `k + 1`.
   */
  lemma {:induction false} EscapeStep(s: string, k: nat)
    requires k < |ReservedCharacters|
    ensures Replace(EscapeUpTo(s, k), ReservedCharacters[k], "\\" + ReservedCharacters[k]) == EscapeUpTo(s, k + 1)
    decreases |s|
  {
    if s != [] {
      var n := TokenLen(s, k);
      var n' := TokenLen(s, k + 1);
      if n > 0 {
        EscapeStep(s[n..], k);
        StepAtToken(s, k);
      } else if n' == 2 {
        EscapeStep(s[2..], k);
        StepAtPair(s, k);
      } else if n' == 1 {
        EscapeStep(s[1..], k);
        StepAtChar(s, k);
      } else {
        EscapeStep(s[1..], k);
        StepAtPlain(s, k);
      }
    }
  }

  /* ---------------- the imperative clean ---------------- */

  /** The replace passes over one word, in the order of ReservedCharacters. */
  method EscapeWord(w: string) returns (r: string)
    ensures r == Escape(w)
  {
    r := w;
    EscapeUpToZero(w);
    var k := 0;
    while k < |ReservedCharacters|
      invariant 0 <= k <= |ReservedCharacters|
      invariant r == EscapeUpTo(w, k)
    {
      EscapeStep(w, k);
      r := Replace(r, ReservedCharacters[k], "\\" + ReservedCharacters[k]);
      k := k + 1;
    }
  }

  /** `clean`: lower-case reserved words, escape reserved characters, rejoin with single spaces. */
  method CleanQuery(fragment: string) returns (r: string)
    ensures r == CleanFragment(fragment)
  {
    var words := Split(fragment);
    var cleaned: seq<string> := [];
    var i := 0;
    while i < |words|
      invariant 0 <= i <= |words|
      invariant cleaned == seq(i, j requires 0 <= j < i => CleanWord(words[j]))
    {
      var word := words[i];
      if word in ReservedWords {
        ReplaceWhole(word, Lower(word));
        word := Replace(word, word, Lower(word));
      }
      word := EscapeWord(word);
      cleaned := cleaned + [word];
      i := i + 1;
    }
    r := Join(cleaned, " ");
  }

  /* ---------------- properties of clean ---------------- */

  /** Escaping loses nothing: removing the inserted backslashes gives the word back. */
  lemma {:induction false} UnescapeEscape(s: string)
    ensures Unescape(Escape(s)) == s
    decreases |s|
  {
    if s != [] {
      var k := |ReservedCharacters|;
      var n := TokenLen(s, k);
      var t := Escape(s);
      if n == 0 {
        assert s[0] != '\\';
        assert t == [s[0]] + Escape(s[1..]);
        assert t[1..] == Escape(s[1..]);
        UnescapeEscape(s[1..]);
        assert [s[0]] + s[1..] == s;
      } else if n == 1 {
        assert t == "\\" + [s[0]] + Escape(s[1..]);
        assert t[2..] == Escape(s[1..]);
        UnescapeEscape(s[1..]);
        assert [s[0]] + s[1..] == s;
      } else {
        var rest := Escape(s[2..]);
        assert t == "\\" + [s[0], s[1]] + rest;
        assert t[2..] == [s[1]] + rest;
        assert s[1] != '\\';
        assert ([s[1]] + rest)[1..] == rest;
        UnescapeEscape(s[2..]);
        assert [s[0]] + ([s[1]] + s[2..]) == s;
      }
    }
  }

  /** A word that is not reserved and holds no reserved character is left as it is. */
  lemma {:induction false} EscapePlain(s: string, k: nat)
    requires k <= |ReservedCharacters|
    requires forall i :: 0 <= i < |s| ==> CharRank(s[i]) == 18 && s[i] != '&' && s[i] != '|'
    ensures EscapeUpTo(s, k) == s
    decreases |s|
  {
    if s != [] {
      assert TokenLen(s, k) == 0;
      EscapePlain(s[1..], k);
      assert [s[0]] + s[1..] == s;
    }
  }

  /** Escaping inserts only backslashes, so a word stays a word. */
  lemma {:induction false} EscapeNoSpace(s: string, k: nat)
    requires NoSpace(s)
    ensures NoSpace(EscapeUpTo(s, k))
    decreases |s|
  {
    if s != [] {
      var n := TokenLen(s, k);
      if n == 0 {
        EscapeNoSpace(s[1..], k);
      } else {
        EscapeNoSpace(s[n..], k);
        assert NoSpace("\\" + s[..n]);
      }
    }
  }

  lemma LowerNoSpace(s: string)
    requires NoSpace(s)
    ensures NoSpace(Lower(s))
  {
    assert forall i :: 0 <= i < |s| ==> Lower(s)[i] == s[i] || 'a' <= Lower(s)[i] <= 'z';
  }

  /** A cleaned word is a non-empty word. */
  lemma CleanWordIsWord(w: string)
    requires w != [] && NoSpace(w)
    ensures CleanWord(w) != [] && NoSpace(CleanWord(w))
  {
    LowerNoSpace(w);
    EscapeNoSpace(if w in ReservedWords then Lower(w) else w, |ReservedCharacters|);
  }

  /** `clean` keeps the words: splitting its result gives the cleaned words, one per input word. */
  lemma CleanKeepsWords(fragment: string)
    ensures var ws := Split(fragment);
      Split(CleanFragment(fragment)) == seq(|ws|, i requires 0 <= i < |ws| => CleanWord(ws[i]))
    ensures |Split(CleanFragment(fragment))| == |Split(fragment)|
  {
    var ws := Split(fragment);
    var cs := seq(|ws|, i requires 0 <= i < |ws| => CleanWord(ws[i]));
    forall i | 0 <= i < |cs|
      ensures cs[i] != [] && NoSpace(cs[i])
    {
      CleanWordIsWord(ws[i]);
    }
    SplitJoin(cs);
  }

  /** Runs of whitespace do not matter: `clean` of the space-normalised fragment is the same. */
  lemma CleanNormalisesSpace(fragment: string)
    ensures CleanFragment(Join(Split(fragment), " ")) == CleanFragment(fragment)
  {
    SplitJoin(Split(fragment));
  }

  /** Each cleaned word is its (possibly lower-cased) input word with backslashes inserted. */
  lemma CleanWordRoundTrip(w: string)
    ensures Unescape(CleanWord(w)) == (if w in ReservedWords then Lower(w) else w)
  {
    UnescapeEscape(if w in ReservedWords then Lower(w) else w);
  }

  /** A plain word that is not reserved comes out unchanged. */
  lemma CleanPlainWord(w: string)
    requires w !in ReservedWords
    requires forall i :: 0 <= i < |w| ==> CharRank(w[i]) == 18 && w[i] != '&' && w[i] != '|'
    ensures CleanWord(w) == w
  {
    EscapePlain(w, |ReservedCharacters|);
  }

  /** Lower-case letters are never escaped. */
  lemma EscapeLetters(l: string)
    requires forall i :: 0 <= i < |l| ==> 'a' <= l[i] <= 'z'
    ensures Escape(l) == l
  {
    forall i | 0 <= i < |l|
      ensures CharRank(l[i]) == 18 && l[i] != '&' && l[i] != '|'
    {
    }
    EscapePlain(l, |ReservedCharacters|);
  }

  /** A reserved word comes out lower-cased, and nothing else happens to it. */
  lemma CleanReservedWord(w: string)
    requires w in ReservedWords
    ensures CleanWord(w) == Lower(w)
  {
    var l := Lower(w);
    assert |w| <= 3 && forall i :: 0 <= i < |w| ==> 'A' <= w[i] <= 'Z';
    assert forall i :: 0 <= i < |l| ==> 'a' <= l[i] <= 'z';
    EscapeLetters(l);
  }

  /** The escapes of single characters and of the pairs. */
  lemma EscapeExamples()
    ensures Escape("a:b") == "a\\:b"
    ensures Escape("&&") == "\\&&"
    ensures Escape("a&b") == "a&b"
    ensures Escape("\\") == "\\\\"
  {
    var k := |ReservedCharacters|;
    EscapePlain("b", k);
    EscapePlain("a", k);
    assert "a" + "b" == "a\\:b"[..1] + "b";
    assert "a:b"[1..] == ":b" && ":b"[1..] == "b";
    assert TokenLen(":b", k) == 1;
    assert EscapeUpTo(":b", k) == "\\:" + "b";
    assert "a&b"[1..] == "&b" && "&b"[1..] == "b";
    assert TokenLen("&b", k) == 0;
    assert TokenLen("&&", k) == 2;
    assert "&&"[2..] == [];
    assert "\\"[1..] == [];
  }
}
