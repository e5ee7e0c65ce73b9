/** `StreamConfig::sanitized_name` (src/stream.rs): the rewrite loop, its round count, and the words it keeps. */
module SanitizedName {

  /** `char::is_alphanumeric`, of which only this much is used: ASCII letters and digits are, the underscore is not. */
  ghost predicate IsAlphanumeric(alnum: char -> bool) {
    && !alnum('_')
    && forall c :: 'a' <= c <= 'z' || 'A' <= c <= 'Z' || '0' <= c <= '9' ==> alnum(c)
  }

  function ToAsciiLowercase(c: char): char {
    if 'A' <= c <= 'Z' then ((c as int) - ('A' as int) + ('a' as int)) as char else c
  }

  function MapChar(alnum: char -> bool, c: char): char {
    if alnum(c) then ToAsciiLowercase(c) else '_'
  }

  function MapChars(alnum: char -> bool, topic: string): (s: string)
    ensures |s| == |topic|
  {
    seq(|topic|, k requires 0 <= k < |topic| => MapChar(alnum, topic[k]))
  }

  /** Letter for letter: A to Z lowered, other alphanumeric characters kept, all the rest a separator. */
  lemma MappedLetterForLetter(alnum: char -> bool, topic: string)
    ensures var s := MapChars(alnum, topic);
            && |s| == |topic|
            && forall k :: 0 <= k < |topic| ==>
                 if !alnum(topic[k]) then s[k] == '_'
                 else if 'A' <= topic[k] <= 'Z' then s[k] as int == topic[k] as int + 32
                 else s[k] == topic[k]
  {
  }

  // ---- one pass of `replace("__", "_")` ----

  predicate ContainsDouble(s: string) {
    exists k :: 0 <= k < |s| - 1 && s[k] == '_' && s[k + 1] == '_'
  }

  /** Left to right, matches do not overlap. */
  function Replace(s: string): string {
    if |s| < 2 then s
    else if s[0] == '_' && s[1] == '_' then "_" + Replace(s[2..])
    else [s[0]] + Replace(s[1..])
  }

  /** The number of underscores `s` starts with. */
  function Lead(s: string): (n: nat)
    ensures n <= |s|
  {
    if s == "" || s[0] != '_' then 0 else 1 + Lead(s[1..])
  }

  function Max(a: nat, b: nat): nat {
    if a < b then b else a
  }

  function HalfUp(n: nat): nat {
    (n + 1) / 2
  }

  /** The length of the longest run of underscores. */
  function LongestRun(s: string): (n: nat)
    ensures n <= |s|
  {
    if s == "" then 0 else Max(Lead(s), LongestRun(s[1..]))
  }

  lemma {:induction false} LeadIs(s: string)
    ensures forall k :: 0 <= k < Lead(s) ==> s[k] == '_'
    ensures Lead(s) < |s| ==> s[Lead(s)] != '_'
  {
    if s != "" && s[0] == '_' {
      LeadIs(s[1..]);
    }
  }

  predicate IsRun(s: string, i: nat, n: nat) {
    i + n <= |s| && forall k :: i <= k < i + n ==> s[k] == '_'
  }

  lemma {:induction false} LeadBounds(s: string, n: nat)
    requires IsRun(s, 0, n)
    ensures n <= Lead(s)
  {
    if n > 0 {
      LeadBounds(s[1..], n - 1);
    }
  }

  /** There is a run of that length, and no longer one. */
  lemma {:induction false} LongestRunIs(s: string)
    ensures exists i: nat :: IsRun(s, i, LongestRun(s))
    ensures forall i: nat, n: nat :: IsRun(s, i, n) ==> n <= LongestRun(s)
  {
    LeadIs(s);
    if s == "" {
      assert IsRun(s, 0, LongestRun(s));
    } else {
      var rest := s[1..];
      LongestRunIs(rest);
      var i: nat :| IsRun(rest, i, LongestRun(rest));
      assert IsRun(s, i + 1, LongestRun(rest));
      assert IsRun(s, 0, Lead(s));
      if Lead(s) < LongestRun(rest) {
        assert IsRun(s, i + 1, LongestRun(s));
      } else {
        assert IsRun(s, 0, LongestRun(s));
      }
      forall i: nat, n: nat | IsRun(s, i, n) ensures n <= LongestRun(s) {
        if i > 0 {
          assert IsRun(rest, i - 1, n);
        } else {
          LeadBounds(s, n);
        }
      }
    }
  }

  lemma {:induction false} ReplaceLead(s: string)
    ensures Lead(Replace(s)) == HalfUp(Lead(s))
  {
    if |s| >= 2 {
      if s[0] == '_' && s[1] == '_' {
        var r := Replace(s[2..]);
        ReplaceLead(s[2..]);
        assert ("_" + r)[1..] == r;
        assert s[1..][1..] == s[2..];
      } else if s[0] == '_' {
        var r := Replace(s[1..]);
        ReplaceLead(s[1..]);
        assert ("_" + r)[1..] == r;
      }
    }
  }

  /** One pass halves every run, rounding up, and merges none. */
  lemma {:induction false} ReplaceHalves(s: string)
    ensures LongestRun(Replace(s)) == HalfUp(LongestRun(s))
  {
    ReplaceLead(s);
    if |s| >= 2 {
      if s[0] == '_' && s[1] == '_' {
        var r := Replace(s[2..]);
        ReplaceHalves(s[2..]);
        assert ("_" + r)[1..] == r;
        assert s[1..][1..] == s[2..];
      } else {
        var r := Replace(s[1..]);
        ReplaceHalves(s[1..]);
        assert ([s[0]] + r)[1..] == r;
      }
    }
  }

  lemma {:induction false} DoubleMeansRun(s: string)
    ensures ContainsDouble(s) <==> LongestRun(s) >= 2
  {
    if s != "" {
      var rest := s[1..];
      DoubleMeansRun(rest);
      if ContainsDouble(rest) {
        var k :| 0 <= k < |rest| - 1 && rest[k] == '_' && rest[k + 1] == '_';
        assert s[k + 1] == '_' && s[k + 2] == '_';
      }
      if ContainsDouble(s) {
        var k :| 0 <= k < |s| - 1 && s[k] == '_' && s[k + 1] == '_';
        if k > 0 {
          assert rest[k - 1] == '_' && rest[k] == '_';
        } else {
          assert Lead(s) == 1 + Lead(rest) && Lead(rest) >= 1;
        }
      }
      if Lead(s) >= 2 {
        assert rest[0] == '_' && s[0] == '_' && s[1] == '_';
      }
    }
  }

  /** How many times n can be halved, rounding up, before it is at most 1. */
  function CeilLog2(n: nat): nat {
    if n <= 1 then 0 else 1 + CeilLog2(HalfUp(n))
  }

  function Pow2(e: nat): nat {
    if e == 0 then 1 else 2 * Pow2(e - 1)
  }

  /** It is the rounded-up binary logarithm. */
  lemma {:induction false} CeilLog2Meaning(n: nat)
    requires n >= 1
    ensures n <= Pow2(CeilLog2(n))
    ensures n >= 2 ==> Pow2(CeilLog2(n) - 1) < n
  {
    if n >= 2 {
      CeilLog2Meaning(HalfUp(n));
    }
  }

  // ---- words ----

  /** The maximal runs of characters other than the underscore. */
  function Words(s: string): (w: seq<string>)
    ensures s != "" && s[0] != '_' ==> w != []
  {
    if s == "" then []
    else
      var rest := Words(s[1..]);
      if s[0] == '_' then rest
      else if |s| > 1 && s[1] != '_' then [[s[0]] + rest[0]] + rest[1..]
      else [[s[0]]] + rest
  }

  function Join(words: seq<string>): string {
    if words == [] then ""
    else if |words| == 1 then words[0]
    else words[0] + "_" + Join(words[1..])
  }

  lemma {:induction false} ReplaceKeepsWords(s: string)
    ensures Words(Replace(s)) == Words(s)
    ensures Replace(s) == "" <==> s == ""
    ensures s != "" ==> Replace(s)[0] == s[0]
  {
    if |s| >= 2 {
      if s[0] == '_' && s[1] == '_' {
        ReplaceKeepsWords(s[2..]);
        assert ("_" + Replace(s[2..]))[1..] == Replace(s[2..]);
        assert s[1..][1..] == s[2..];
      } else {
        ReplaceKeepsWords(s[1..]);
        assert ([s[0]] + Replace(s[1..]))[1..] == Replace(s[1..]);
      }
    }
  }

  // ---- trimming ----

  function TrimStart(s: string): string {
    if s != "" && s[0] == '_' then TrimStart(s[1..]) else s
  }

  function TrimEnd(s: string): string {
    if s != "" && s[|s| - 1] == '_' then TrimEnd(s[..|s| - 1]) else s
  }

  function Trim(s: string): string {
    TrimEnd(TrimStart(s))
  }

  lemma {:induction false} TrimEndKeeps(s: string)
    requires s != "" && s[0] != '_'
    ensures TrimEnd(s) != ""
  {
    if s[|s| - 1] == '_' {
      TrimEndKeeps(s[..|s| - 1]);
    }
  }

  lemma {:induction false} TrimEndPrefix(a: string, s: string)
    requires s != "" && s[0] != '_'
    ensures TrimEnd(a + s) == a + TrimEnd(s)
  {
    if s[|s| - 1] == '_' {
      assert (a + s)[..|a + s| - 1] == a + s[..|s| - 1];
      TrimEndPrefix(a, s[..|s| - 1]);
    }
  }

  lemma NoDoubleTail(s: string, n: nat)
    requires !ContainsDouble(s) && n <= |s|
    ensures !ContainsDouble(s[n..])
  {
    var rest := s[n..];
    forall k | 0 <= k < |rest| - 1 ensures rest[k] != '_' || rest[k + 1] != '_' {
      assert rest[k] == s[n + k] && rest[k + 1] == s[n + k + 1];
    }
  }

  lemma JoinLetter(c: char, rest: string)
    requires c != '_' && rest != "" && rest[0] != '_'
    ensures Join(Words([c] + rest)) == [c] + Join(Words(rest))
  {
    var w := Words(rest);
    var joined := [[c] + w[0]] + w[1..];
    assert ([c] + rest)[1..] == rest;
    assert Words([c] + rest) == joined && joined[1..] == w[1..];
    if |w| > 1 {
      assert [c] + w[0] + "_" + Join(w[1..]) == [c] + (w[0] + "_" + Join(w[1..]));
    }
  }

  lemma JoinBreak(c: char, rest: string)
    requires c != '_' && rest != "" && rest[0] != '_'
    ensures Join(Words([c] + "_" + rest)) == [c] + "_" + Join(Words(rest))
  {
    var s := [c] + "_" + rest;
    assert s[1..] == "_" + rest && s[1..][1..] == rest;
    assert ([[c]] + Words(rest))[1..] == Words(rest);
  }

  /** Once no separator is doubled, cutting the last one off leaves the words joined by single ones. */
  lemma {:induction false} TrimEndJoins(s: string)
    requires !ContainsDouble(s) && s != "" && s[0] != '_'
    ensures TrimEnd(s) == Join(Words(s))
  {
    if |s| == 1 {
      assert s[1..] == "" && s == [s[0]];
    } else if s[1] != '_' {
      NoDoubleTail(s, 1);
      TrimEndJoins(s[1..]);
      TrimEndPrefix([s[0]], s[1..]);
      JoinLetter(s[0], s[1..]);
      assert s == [s[0]] + s[1..];
    } else if |s| == 2 {
      TrimEndPair(s);
    } else {
      assert s[1] == '_' && s[2] != '_';
      NoDoubleTail(s, 2);
      TrimEndJoins(s[2..]);
      TrimEndPrefix([s[0]] + "_", s[2..]);
      JoinBreak(s[0], s[2..]);
      assert s == [s[0]] + "_" + s[2..];
    }
  }

  lemma TrimEndPair(s: string)
    requires |s| == 2 && s[0] != '_' && s[1] == '_'
    ensures TrimEnd(s) == Join(Words(s)) == [s[0]]
  {
    assert s[..1] == [s[0]] && TrimEnd(s[..1]) == s[..1];
    assert s[1..][1..] == "" && Words(s[1..]) == [];
  }

  lemma TrimJoins(s: string)
    requires !ContainsDouble(s)
    ensures Trim(s) == Join(Words(s))
  {
    if s != "" && s[0] == '_' {
      var rest := s[1..];
      NoDoubleTail(s, 1);
      assert rest != "" ==> rest[0] != '_';
      if rest != "" {
        TrimEndJoins(rest);
      }
    } else if s != "" {
      TrimEndJoins(s);
    }
  }

  // ---- the method ----

  /** The maximal alphanumeric runs of the topic, ASCII-lowercased, in one pass. */
  function TopicWords(alnum: char -> bool, topic: string): (w: seq<string>)
    ensures topic != "" && alnum(topic[0]) ==> w != []
  {
    if topic == "" then []
    else
      var rest := TopicWords(alnum, topic[1..]);
      var c := ToAsciiLowercase(topic[0]);
      if !alnum(topic[0]) then rest
      else if |topic| > 1 && alnum(topic[1]) then [[c] + rest[0]] + rest[1..]
      else [[c]] + rest
  }

  lemma {:induction false} MappedWords(alnum: char -> bool, topic: string)
    requires IsAlphanumeric(alnum)
    ensures Words(MapChars(alnum, topic)) == TopicWords(alnum, topic)
  {
    if topic != "" {
      assert MapChars(alnum, topic)[1..] == MapChars(alnum, topic[1..]);
      MappedWords(alnum, topic[1..]);
    }
  }

  method SanitizedName(topic: string, alnum: char -> bool) returns (name: string, ghost rounds: nat)
    requires IsAlphanumeric(alnum)
    ensures name == Join(TopicWords(alnum, topic))
    ensures rounds == CeilLog2(LongestRun(MapChars(alnum, topic)))
  {
    name := MapChars(alnum, topic);
    rounds := 0;
    DoubleMeansRun(name);
    while ContainsDouble(name)
      invariant ContainsDouble(name) <==> LongestRun(name) >= 2
      invariant Words(name) == Words(MapChars(alnum, topic))
      invariant rounds + CeilLog2(LongestRun(name)) == CeilLog2(LongestRun(MapChars(alnum, topic)))
      decreases LongestRun(name)
    {
      ReplaceHalves(name);
      ReplaceKeepsWords(name);
      name := Replace(name);
      DoubleMeansRun(name);
      rounds := rounds + 1;
    }
    TrimJoins(name);
    MappedWords(alnum, topic);
    name := Trim(name);
  }

  // ---- names ----

  function Name(alnum: char -> bool, topic: string): string {
    Join(TopicWords(alnum, topic))
  }

  predicate IsWord(alnum: char -> bool, w: string) {
    w != "" && forall k :: 0 <= k < |w| ==> alnum(w[k]) && !('A' <= w[k] <= 'Z')
  }

  /** What a sanitized name looks like. */
  ghost predicate IsClean(alnum: char -> bool, s: string) {
    && (forall k :: 0 <= k < |s| ==> s[k] == '_' || (alnum(s[k]) && !('A' <= s[k] <= 'Z')))
    && !ContainsDouble(s)
    && (s != "" ==> s[0] != '_' && s[|s| - 1] != '_')
  }

  lemma {:induction false} TopicWordsAreWords(alnum: char -> bool, topic: string)
    requires IsAlphanumeric(alnum)
    ensures forall k :: 0 <= k < |TopicWords(alnum, topic)| ==> IsWord(alnum, TopicWords(alnum, topic)[k])
  {
    if topic != "" {
      TopicWordsAreWords(alnum, topic[1..]);
    }
  }

  lemma {:induction false} WordsOfWord(w: string, rest: string)
    requires w != "" && '_' !in w
    ensures Words(w + "_" + rest) == [w] + Words(rest)
    ensures Words(w) == [w]
  {
    var s := w + "_" + rest;
    assert w[0] in w;
    if |w| == 1 {
      assert w == [w[0]];
      assert s[1..] == "_" + rest && s[1..][1..] == rest;
      assert w[1..] == "";
    } else {
      WordsOfWord(w[1..], rest);
      assert s[1..] == w[1..] + "_" + rest;
      assert s[1] == w[1] && w[1] in w;
      assert [w[0]] + w[1..] == w;
    }
  }

  /** Splitting a name at its underscores gives back the words it was joined from. */
  lemma {:induction false} SplitJoin(alnum: char -> bool, words: seq<string>)
    requires IsAlphanumeric(alnum) && forall k :: 0 <= k < |words| ==> IsWord(alnum, words[k])
    ensures Words(Join(words)) == words
  {
    if words != [] {
      assert IsWord(alnum, words[0]);
      if |words| == 1 {
        WordsOfWord(words[0], "");
      } else {
        SplitJoin(alnum, words[1..]);
        WordsOfWord(words[0], Join(words[1..]));
        assert words == [words[0]] + words[1..];
      }
    }
  }

  lemma {:induction false} JoinIsClean(alnum: char -> bool, words: seq<string>)
    requires IsAlphanumeric(alnum) && forall k :: 0 <= k < |words| ==> IsWord(alnum, words[k])
    ensures IsClean(alnum, Join(words)) && (words != [] ==> Join(words) != "")
  {
    if |words| == 1 {
      assert IsWord(alnum, words[0]);
    } else if words != [] {
      JoinIsClean(alnum, words[1..]);
      assert IsWord(alnum, words[0]);
      var s, w, rest := Join(words), words[0], Join(words[1..]);
      forall k | 0 <= k < |s| - 1 ensures s[k] != '_' || s[k + 1] != '_' {
        if k < |w| {
          assert s[k] == w[k];
        } else if k == |w| {
          assert s[k + 1] == rest[0];
        } else {
          assert s[k] == rest[k - |w| - 1] && s[k + 1] == rest[k - |w|];
        }
      }
    }
  }

  lemma CleanIsMapped(alnum: char -> bool, s: string)
    requires IsAlphanumeric(alnum) && IsClean(alnum, s)
    ensures MapChars(alnum, s) == s
    ensures Trim(s) == s
  {
    assert forall k :: 0 <= k < |s| ==> MapChars(alnum, s)[k] == s[k];
  }

  /** Names are clean, and the topics that are their own name are exactly the clean ones. */
  lemma NamesAreTheCleanTopics(alnum: char -> bool, topic: string)
    requires IsAlphanumeric(alnum)
    ensures IsClean(alnum, Name(alnum, topic))
    ensures Name(alnum, topic) == topic <==> IsClean(alnum, topic)
  {
    TopicWordsAreWords(alnum, topic);
    JoinIsClean(alnum, TopicWords(alnum, topic));
    if IsClean(alnum, topic) {
      CleanIsMapped(alnum, topic);
      MappedWords(alnum, topic);
      TrimJoins(topic);
    }
  }

  lemma NameIsIdempotent(alnum: char -> bool, topic: string)
    requires IsAlphanumeric(alnum)
    ensures Name(alnum, Name(alnum, topic)) == Name(alnum, topic)
  {
    NamesAreTheCleanTopics(alnum, topic);
    NamesAreTheCleanTopics(alnum, Name(alnum, topic));
  }

  /** Two topics share a name, and so a recording file, exactly when they have the same words. */
  lemma SameNameSameWords(alnum: char -> bool, a: string, b: string)
    requires IsAlphanumeric(alnum)
    ensures Name(alnum, a) == Name(alnum, b) <==> TopicWords(alnum, a) == TopicWords(alnum, b)
  {
    TopicWordsAreWords(alnum, a);
    TopicWordsAreWords(alnum, b);
    SplitJoin(alnum, TopicWords(alnum, a));
    SplitJoin(alnum, TopicWords(alnum, b));
  }
}
