/**
 * What Routing.Pattern means: the dot-separated words of a route are matched against a
 * binding in which `*` stands for one word and `#` for any number of words
 * (topic exchange rule of section 3.1.3.3 of AMQP 0-9-1).
 */
module Routes {
  import opened Text

  type Word = string

  // ---------------------------------------------------------------- splitting

  predicate DotFree(words: seq<Word>) {
    forall i | 0 <= i < |words| :: '.' !in words[i]
  }

  /** The words with a dot between neighbours. */
  function Join(words: seq<Word>): string
    requires words != []
  {
    if |words| == 1 then words[0] else words[0] + "." + Join(words[1..])
  }

  /** The dot-separated words of a text; never empty. */
  function Split(text: string): (words: seq<Word>)
    ensures words != []
    decreases |text|
  {
    var dot := Find(text, '.', 0);
    if dot.None? then [text] else [text[..dot.value]] + Split(text[dot.value + 1..])
  }

  /** The splitting loop of routeMatches. */
  method SplitWords(text: string) returns (parts: seq<Word>)
    ensures parts == Split(text)
  {
    hide Split, Find;
    parts := [];
    var start := 0;
    while true
      invariant 0 <= start <= |text|
      invariant parts + Split(text[start..]) == Split(text)
      decreases |text| - start
    {
      var dot := Find(text, '.', start);
      SplitFromHere(text, start);
      if dot.None? {
        return parts + [text[start..]];
      }
      parts := parts + [text[start..dot.value]];
      start := dot.value + 1;
    }
  }

  /** What is left to split begins with the word up to the next dot. */
  lemma SplitFromHere(text: string, start: nat)
    requires start <= |text|
    ensures var dot := Find(text, '.', start);
            Split(text[start..]) ==
            if dot.None? then [text[start..]] else [text[start..dot.value]] + Split(text[dot.value + 1..])
  {
    hide Find;
    var dot := Find(text, '.', start);
    FindFromHere(text, '.', start);
    if dot.Some? {
      assert text[start..][..dot.value - start] == text[start..dot.value];
      assert text[start..][dot.value - start + 1..] == text[dot.value + 1..];
    }
  }

  lemma FindFromHere(text: string, c: char, start: nat)
    requires start <= |text|
    ensures var here, there := Find(text[start..], c, 0), Find(text, c, start);
            here.None? == there.None? && (there.Some? ==> there.value == start + here.value)
  {
    var here, there := Find(text[start..], c, 0), Find(text, c, start);
    forall i | 0 <= i < |text| - start ensures text[start..][i] == text[start + i] {}
    assert here.Some? ==> text[start + here.value] == c;
    assert there.Some? ==> text[start..][there.value - start] == c;
  }

  /** Splitting and joining undo each other: Split(text) is the one way to cut a text into dot-free words. */
  lemma {:induction false} SplitThenJoin(text: string)
    ensures Join(Split(text)) == text && DotFree(Split(text))
    decreases |text|
  {
    var dot := Find(text, '.', 0);
    if dot.Some? {
      SplitThenJoin(text[dot.value + 1..]);
      assert text == text[..dot.value] + "." + text[dot.value + 1..];
    }
  }

  lemma {:induction false} JoinThenSplit(words: seq<Word>)
    requires words != [] && DotFree(words)
    ensures Split(Join(words)) == words
    decreases |words|
  {
    var text := Join(words);
    var dot := Find(text, '.', 0);
    if |words| > 1 {
      assert text[|words[0]|] == '.';
      assert text == words[0] + ("." + Join(words[1..]));
      assert forall i | 0 <= i < |words[0]| :: text[i] == words[0][i];
      assert dot.value == |words[0]|;
      assert text[..dot.value] == words[0];
      assert text[dot.value + 1..] == Join(words[1..]);
      JoinThenSplit(words[1..]);
    }
  }

  // ---------------------------------------------------------------- matching

  /** Pattern words `p` match route words `k`; the recursion of Matcher::at on what remains of both. */
  predicate Matches(p: seq<Word>, k: seq<Word>)
    decreases |p|
  {
    if p == [] then k == []
    else if p[0] == "#" then exists n | 0 <= n <= |k| :: Matches(p[1..], k[n..])
    else k != [] && (p[0] == "*" || p[0] == k[0]) && Matches(p[1..], k[1..])
  }

  predicate RouteMatches(binding: string, route: string) {
    Matches(Split(binding), Split(route))
  }

  /** Matcher::at: the pattern from word `i` against the route from word `j`. */
  predicate MatchesFrom(p: seq<Word>, k: seq<Word>, i: nat, j: nat)
    requires i <= |p| && j <= |k|
    decreases |p| - i
  {
    if i == |p| then j == |k|
    else if p[i] == "#" then var next := i + 1; exists n | j <= n <= |k| :: MatchesFrom(p, k, next, n)
    else j < |k| && (p[i] == "*" || p[i] == k[j]) && MatchesFrom(p, k, i + 1, j + 1)
  }

  /** Matcher::at as the source runs it, with its loop for `#`. */
  method At(p: seq<Word>, k: seq<Word>, i: nat, j: nat) returns (matched: bool)
    requires i <= |p| && j <= |k|
    ensures matched <==> MatchesFrom(p, k, i, j)
    decreases |p| - i
  {
    if i == |p| {
      return j == |k|;
    }
    if p[i] == "#" {
      var next, n := i + 1, j;
      while n <= |k|
        invariant j <= n <= |k| + 1
        invariant forall m | j <= m < n :: !MatchesFrom(p, k, next, m)
      {
        var rest := At(p, k, next, n);
        if rest {
          return true;
        }
        n := n + 1;
      }
      return false;
    }
    if j == |k| {
      return false;
    }
    if p[i] != "*" && p[i] != k[j] {
      return false;
    }
    matched := At(p, k, i + 1, j + 1);
  }

  lemma {:induction false} MatchesFromIsMatches(p: seq<Word>, k: seq<Word>, i: nat, j: nat)
    requires i <= |p| && j <= |k|
    ensures MatchesFrom(p, k, i, j) <==> Matches(p[i..], k[j..])
    decreases |p| - i
  {
    if i < |p| {
      var q, next := p[i..], i + 1;
      assert q[0] == p[i] && q[1..] == p[next..];
      if p[i] == "#" {
        forall n | j <= n <= |k|
          ensures MatchesFrom(p, k, next, n) <==> Matches(q[1..], k[j..][n - j..])
        {
          MatchesFromIsMatches(p, k, next, n);
          assert k[j..][n - j..] == k[n..];
        }
        forall m | 0 <= m <= |k[j..]| && Matches(q[1..], k[j..][m..]) ensures MatchesFrom(p, k, i, j) {
          assert MatchesFrom(p, k, next, j + m);
        }
      } else if j < |k| {
        MatchesFromIsMatches(p, k, next, j + 1);
        assert k[j..][1..] == k[j + 1..];
      }
    }
  }

  method RouteMatchesLoop(binding: string, route: string) returns (matched: bool)
    ensures matched <==> Cuttable(Split(binding), Split(route))
  {
    var pattern := SplitWords(binding);
    var words := SplitWords(route);
    matched := At(pattern, words, 0, 0);
    assert pattern[0..] == pattern && words[0..] == words;
    MatchesFromIsMatches(pattern, words, 0, 0);
    MatchesIffCuttable(pattern, words);
  }

  // ---------------------------------------------------------------- meaning

  /** Which runs of route words one pattern word stands for. */
  predicate Fits(word: Word, segment: seq<Word>) {
    if word == "#" then true else if word == "*" then |segment| == 1 else segment == [word]
  }

  function Concat(segments: seq<seq<Word>>): seq<Word> {
    if segments == [] then [] else segments[0] + Concat(segments[1..])
  }

  ghost predicate IsCut(p: seq<Word>, k: seq<Word>, segments: seq<seq<Word>>) {
    && |segments| == |p|
    && Concat(segments) == k
    && forall i | 0 <= i < |p| :: Fits(p[i], segments[i])
  }

  /** The route's words can be cut into consecutive segments, one per pattern word. */
  ghost predicate Cuttable(p: seq<Word>, k: seq<Word>) {
    exists segments :: IsCut(p, k, segments)
  }

  lemma {:induction false} MatchesIffCuttable(p: seq<Word>, k: seq<Word>)
    ensures Matches(p, k) <==> Cuttable(p, k)
    decreases |p|
  {
    if p == [] {
      if k == [] {
        assert IsCut(p, k, []);
      }
      forall segments | IsCut(p, k, segments) ensures k == [] {
        assert segments == [];
      }
    } else {
      forall n | 0 <= n <= |k| ensures Matches(p[1..], k[n..]) <==> Cuttable(p[1..], k[n..]) {
        MatchesIffCuttable(p[1..], k[n..]);
      }
      if Matches(p, k) {
        var n: nat :| n <= |k| && Fits(p[0], k[..n]) && Matches(p[1..], k[n..]) by {
          assert p[0] != "#" ==> k[..1] == [k[0]];
        }
        var rest :| IsCut(p[1..], k[n..], rest);
        assert ([k[..n]] + rest)[1..] == rest;
        assert IsCut(p, k, [k[..n]] + rest);
      }
      forall segments | IsCut(p, k, segments) ensures Matches(p, k) {
        var n := |segments[0]|;
        assert k[..n] == segments[0] && k[n..] == Concat(segments[1..]);
        assert IsCut(p[1..], k[n..], segments[1..]);
        assert p[0] != "#" ==> segments[0] == [k[0]];
      }
    }
  }

  // ---------------------------------------------------------------- algebra of patterns

  lemma SlicesOfSlices(k: seq<Word>, m: nat)
    requires m <= |k|
    ensures forall n | m <= n <= |k| :: k[m..][..n - m] == k[m..n] && k[m..][n - m..] == k[n..] && k[..n][m..] == k[m..n]
  {
  }

  /** The inductive step seen from position `m` of the route. */
  lemma {:induction false} MatchesConcatFrom(p: seq<Word>, q: seq<Word>, k: seq<Word>, m: nat)
    requires p != [] && m <= |k|
    ensures Matches(p[1..] + q, k[m..]) <==> exists n | m <= n <= |k| :: Matches(p[1..], k[m..n]) && Matches(q, k[n..])
    decreases |p|, 0
  {
    hide Matches;
    MatchesConcat(p[1..], q, k[m..]);
    SlicesOfSlices(k, m);
    if Matches(p[1..] + q, k[m..]) {
      var n :| 0 <= n <= |k[m..]| && Matches(p[1..], k[m..][..n]) && Matches(q, k[m..][n..]);
      assert k[m..][..n] == k[m..m + n] && k[m..][n..] == k[m + n..];
    }
    forall n | m <= n <= |k| && Matches(p[1..], k[m..n]) && Matches(q, k[n..]) ensures Matches(p[1..] + q, k[m..]) {
      assert Matches(p[1..], k[m..][..n - m]) && Matches(q, k[m..][n - m..]);
    }
  }

  /** A pattern made of two parts matches by cutting the route once between them. */
  lemma {:induction false} MatchesConcat(p: seq<Word>, q: seq<Word>, k: seq<Word>)
    ensures Matches(p + q, k) <==> exists n | 0 <= n <= |k| :: Matches(p, k[..n]) && Matches(q, k[n..])
    decreases |p|, 1
  {
    if p == [] {
      assert p + q == q;
      assert k[..0] == [] && k[0..] == k;
    } else {
      assert (p + q)[1..] == p[1..] + q;
      forall n, m | 0 <= m <= n <= |k| ensures k[..n][m..] == k[m..n] {}
      if Matches(p + q, k) {
        var m :| 0 <= m <= |k| && (p[0] == "#" || m == 1) && Matches(p[1..] + q, k[m..]);
        MatchesConcatFrom(p, q, k, m);
        var n :| m <= n <= |k| && Matches(p[1..], k[m..n]) && Matches(q, k[n..]);
        assert Matches(p[1..], k[..n][m..]);
        assert Matches(p, k[..n]);
      }
      forall n | 0 <= n <= |k| && Matches(p, k[..n]) && Matches(q, k[n..]) ensures Matches(p + q, k) {
        var m :| 0 <= m <= n && (p[0] == "#" || m == 1) && Matches(p[1..], k[..n][m..]);
        assert k[..n][m..] == k[m..n];
        MatchesConcatFrom(p, q, k, m);
        assert Matches(p[1..] + q, k[m..]);
      }
    }
  }

  /** Two patterns that match the same routes may replace each other inside any larger pattern. */
  lemma EquivalentInContext(before: seq<Word>, p: seq<Word>, q: seq<Word>, after: seq<Word>, k: seq<Word>)
    requires forall words :: Matches(p, words) <==> Matches(q, words)
    ensures Matches(before + p + after, k) <==> Matches(before + q + after, k)
  {
    MatchesConcat(before + p, after, k);
    MatchesConcat(before + q, after, k);
    forall n | 0 <= n <= |k| ensures Matches(before + p, k[..n]) <==> Matches(before + q, k[..n]) {
      MatchesConcat(before, p, k[..n]);
      MatchesConcat(before, q, k[..n]);
    }
  }

  lemma HashAlone(k: seq<Word>)
    ensures Matches(["#"], k)
  {
    assert k[|k|..] == [];
    assert Matches([], k[|k|..]);
    assert ["#"][1..] == [];
  }

  lemma HashThen(q: seq<Word>, k: seq<Word>)
    ensures Matches(["#"] + q, k) <==> exists n | 0 <= n <= |k| :: Matches(q, k[n..])
  {
    assert (["#"] + q)[1..] == q;
  }

  lemma StarThen(q: seq<Word>, k: seq<Word>)
    ensures Matches(["*"] + q, k) <==> k != [] && Matches(q, k[1..])
  {
    assert (["*"] + q)[1..] == q;
  }

  /** `#.#` means the same as `#`, wherever it stands in a pattern. */
  lemma HashHashIsHash(before: seq<Word>, after: seq<Word>, k: seq<Word>)
    ensures Matches(before + ["#", "#"] + after, k) <==> Matches(before + ["#"] + after, k)
  {
    forall words ensures Matches(["#", "#"], words) <==> Matches(["#"], words) {
      assert ["#", "#"] == ["#"] + ["#"];
      HashThen(["#"], words);
      HashAlone(words[0..]);
      HashAlone(words);
    }
    EquivalentInContext(before, ["#", "#"], ["#"], after, k);
  }

  /** `#.*` means the same as `*.#`, wherever it stands in a pattern. */
  lemma HashStarIsStarHash(before: seq<Word>, after: seq<Word>, k: seq<Word>)
    ensures Matches(before + ["#", "*"] + after, k) <==> Matches(before + ["*", "#"] + after, k)
  {
    forall words ensures Matches(["#", "*"], words) <==> Matches(["*", "#"], words) {
      assert ["#", "*"] == ["#"] + ["*"] && ["*", "#"] == ["*"] + ["#"];
      HashThen(["*"], words);
      StarThen(["#"], words);
      if words != [] {
        HashAlone(words[1..]);
        var last := words[|words| - 1..];
        assert last[1..] == [];
        assert ["*"] == ["*"] + [];
        StarThen([], last);
      }
      forall n | 0 <= n <= |words| && Matches(["*"], words[n..]) ensures words != [] {
        assert ["*"] == ["*"] + [];
        StarThen([], words[n..]);
      }
    }
    EquivalentInContext(before, ["#", "*"], ["*", "#"], after, k);
  }

  function Reverse<T>(s: seq<T>): (r: seq<T>)
    ensures |r| == |s|
    ensures forall i | 0 <= i < |s| :: r[i] == s[|s| - 1 - i]
  {
    seq(|s|, i requires 0 <= i < |s| => s[|s| - 1 - i])
  }

  lemma {:induction false} ConcatAppend(segments: seq<seq<Word>>, last: seq<Word>)
    ensures Concat(segments + [last]) == Concat(segments) + last
    decreases |segments|
  {
    if segments == [] {
      assert Concat([last]) == last + Concat([]);
    } else {
      assert (segments + [last])[1..] == segments[1..] + [last];
      ConcatAppend(segments[1..], last);
    }
  }

  function ReverseEach(segments: seq<seq<Word>>): (r: seq<seq<Word>>)
    ensures |r| == |segments|
    ensures forall i | 0 <= i < |segments| :: r[i] == Reverse(segments[|segments| - 1 - i])
  {
    seq(|segments|, i requires 0 <= i < |segments| => Reverse(segments[|segments| - 1 - i]))
  }

  lemma {:induction false} ConcatReversed(segments: seq<seq<Word>>)
    ensures Concat(ReverseEach(segments)) == Reverse(Concat(segments))
    decreases |segments|
  {
    if segments != [] {
      var rest := segments[1..];
      assert ReverseEach(segments) == ReverseEach(rest) + [Reverse(segments[0])];
      ConcatAppend(ReverseEach(rest), Reverse(segments[0]));
      ConcatReversed(rest);
      assert Reverse(segments[0] + Concat(rest)) == Reverse(Concat(rest)) + Reverse(segments[0]);
    }
  }

  lemma CuttableReversed(p: seq<Word>, k: seq<Word>)
    requires Cuttable(p, k)
    ensures Cuttable(Reverse(p), Reverse(k))
  {
    var segments :| IsCut(p, k, segments);
    ConcatReversed(segments);
    assert IsCut(Reverse(p), Reverse(k), ReverseEach(segments));
  }

  /** Matching does not depend on the reading direction, although Matcher::at reads left to right. */
  lemma MatchesReversed(p: seq<Word>, k: seq<Word>)
    ensures Matches(Reverse(p), Reverse(k)) <==> Matches(p, k)
  {
    MatchesIffCuttable(p, k);
    MatchesIffCuttable(Reverse(p), Reverse(k));
    assert Reverse(Reverse(p)) == p && Reverse(Reverse(k)) == k;
    if Cuttable(p, k) {
      CuttableReversed(p, k);
    }
    if Cuttable(Reverse(p), Reverse(k)) {
      CuttableReversed(Reverse(p), Reverse(k));
    }
  }

  // ---------------------------------------------------------------- routing kinds compared

  /** Every binding matches itself when used as a route, wildcards included. */
  lemma {:induction false} MatchesItself(p: seq<Word>)
    ensures Matches(p, p)
    decreases |p|
  {
    if p != [] {
      MatchesItself(p[1..]);
      assert p[0] == "#" ==> Matches(p[1..], p[1..]);
    }
  }

  lemma {:induction false} LiteralMatchesOnlyItself(p: seq<Word>, k: seq<Word>)
    requires "#" !in p && "*" !in p
    ensures Matches(p, k) <==> p == k
    decreases |p|
  {
    if p != [] && k != [] {
      LiteralMatchesOnlyItself(p[1..], k[1..]);
      assert p == [p[0]] + p[1..] && k == [k[0]] + k[1..];
    }
  }

  /** A binding without wildcard words routes like Exact. */
  lemma LiteralPatternIsExact(binding: string, route: string)
    requires "#" !in Split(binding) && "*" !in Split(binding)
    ensures RouteMatches(binding, route) <==> binding == route
  {
    LiteralMatchesOnlyItself(Split(binding), Split(route));
    SplitThenJoin(binding);
    SplitThenJoin(route);
  }

  /** The binding `#` routes like Broadcast. */
  lemma HashPatternIsBroadcast(route: string)
    ensures RouteMatches("#", route)
  {
    assert "#"[0..1] == "#";
    HashAlone(Split(route));
  }
}
