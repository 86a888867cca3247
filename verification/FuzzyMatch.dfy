// Fuzzy file mentions: the greedy subsequence match and the score of a file for a mention.

module FuzzyMatch {
  import opened Wrappers
  import Text = SnapshotPersistence

  // ---------------------------------------------------------------------------
  // Embeddings
  // ---------------------------------------------------------------------------

  /** Places `needle` in `value`, in order, at the positions `e`, none of them before `from`. */
  ghost predicate Embeds(value: string, needle: string, from: nat, e: seq<nat>) {
    && |e| == |needle|
    && (forall i :: 0 <= i < |e| ==> from <= e[i] < |value| && value[e[i]] == needle[i])
    && (forall i, j :: 0 <= i < j < |e| ==> e[i] < e[j])
  }

  ghost predicate Matches(value: string, needle: string) {
    exists e :: Embeds(value, needle, 0, e)
  }

  /** How many characters an embedding passes over, from `from` to its last position. */
  function Gaps(from: int, e: seq<nat>): int
    decreases |e|
  {
    if e == [] then 0 else e[0] - from + Gaps(e[0] + 1, e[1..])
  }

  /** They are what lies before the last position and is not matched. */
  lemma {:induction false} GapsAreTheRest(from: nat, e: seq<nat>)
    requires e != []
    ensures Gaps(from, e) == e[|e| - 1] + 1 - |e| - from
    decreases |e|
  {
    if |e| > 1 {
      GapsAreTheRest(e[0] + 1, e[1..]);
    }
  }

  // ---------------------------------------------------------------------------
  // The greedy match
  // ---------------------------------------------------------------------------

  function IndexFrom(value: string, c: char, from: nat): (r: Option<nat>)
    ensures r.Some? ==> from <= r.value < |value| && value[r.value] == c
                        && forall i :: from <= i < r.value ==> value[i] != c
    ensures r.None? ==> forall i :: from <= i < |value| ==> value[i] != c
    decreases |value| - from
  {
    if from >= |value| then None
    else if value[from] == c then Some(from)
    else IndexFrom(value, c, from + 1)
  }

  /** The characters passed over when each character takes the first place it can. */
  function GreedyGaps(value: string, needle: string, from: nat): Option<int>
    decreases |needle|
  {
    if needle == "" then Some(0)
    else
      var index := IndexFrom(value, needle[0], from);
      if index.None? then None
      else
        var rest := GreedyGaps(value, needle[1..], index.value + 1);
        if rest.None? then None else Some(index.value - from + rest.value)
  }

  function FuzzyScore(value: string, needle: string): Option<real> {
    var gaps := GreedyGaps(value, needle, 0);
    if gaps.None? then None else Some(gaps.value as real + |value| as real / 1000.0)
  }

  /** The places the greedy match takes. */
  function GreedyPlaces(value: string, needle: string, from: nat): (e: seq<nat>)
    requires GreedyGaps(value, needle, from).Some?
    ensures Embeds(value, needle, from, e) && Gaps(from, e) == GreedyGaps(value, needle, from).value
    decreases |needle|
  {
    if needle == "" then []
    else
      var index := IndexFrom(value, needle[0], from).value;
      [index] + GreedyPlaces(value, needle[1..], index + 1)
  }

  lemma EmbedsTail(value: string, needle: string, from: nat, e: seq<nat>, earlier: nat)
    requires Embeds(value, needle, from, e) && e != [] && earlier <= e[0]
    ensures Embeds(value, needle[1..], earlier + 1, e[1..])
  {
  }

  /** Wherever the needle can be placed, the greedy match places it, and passes over no more. */
  lemma {:induction false} GreedyIsBest(value: string, needle: string, from: nat, e: seq<nat>)
    requires Embeds(value, needle, from, e)
    ensures GreedyGaps(value, needle, from).Some?
    ensures GreedyGaps(value, needle, from).value <= Gaps(from, e)
    decreases |needle|
  {
    if needle != "" {
      assert value[e[0]] == needle[0];
      var index := IndexFrom(value, needle[0], from).value;
      EmbedsTail(value, needle, from, e, index);
      GreedyIsBest(value, needle[1..], index + 1, e[1..]);
    }
  }

  /** The score is defined exactly where the needle is a subsequence of the value. */
  lemma GreedyIsExact(value: string, needle: string)
    ensures FuzzyScore(value, needle).Some? <==> Matches(value, needle)
  {
    if FuzzyScore(value, needle).Some? {
      assert Embeds(value, needle, 0, GreedyPlaces(value, needle, 0));
    }
    if Matches(value, needle) {
      var e :| Embeds(value, needle, 0, e);
      GreedyIsBest(value, needle, 0, e);
    }
  }

  /** And it is the least over all placements, attained by the greedy one. */
  lemma GreedyIsOptimal(value: string, needle: string)
    requires FuzzyScore(value, needle).Some?
    ensures exists e :: Embeds(value, needle, 0, e) && FuzzyScore(value, needle).value == Gaps(0, e) as real + |value| as real / 1000.0
    ensures forall e :: Embeds(value, needle, 0, e) ==> FuzzyScore(value, needle).value <= Gaps(0, e) as real + |value| as real / 1000.0
  {
    var greedy := GreedyPlaces(value, needle, 0);
    assert Embeds(value, needle, 0, greedy);
    forall e | Embeds(value, needle, 0, e) ensures GreedyGaps(value, needle, 0).value <= Gaps(0, e) {
      GreedyIsBest(value, needle, 0, e);
    }
  }

  method FuzzySubsequenceScore(value: string, needle: string) returns (score: Option<real>)
    ensures score == FuzzyScore(value, needle)
    ensures score.Some? <==> Matches(value, needle)
  {
    GreedyIsExact(value, needle);
    var lastIndex: int, gapPenalty: int := -1, 0;
    var i := 0;
    while i < |needle|
      invariant 0 <= i <= |needle| && lastIndex >= -1
      invariant var rest := GreedyGaps(value, needle[i..], lastIndex + 1);
        GreedyGaps(value, needle, 0) == if rest.None? then None else Some(gapPenalty + rest.value)
    {
      assert needle[i..][1..] == needle[i + 1..];
      var index := IndexFrom(value, needle[i], lastIndex + 1);
      if index.None? {
        return None;
      }
      gapPenalty := gapPenalty + (index.value - lastIndex - 1);
      lastIndex := index.value;
      i := i + 1;
    }
    return Some(gapPenalty as real + |value| as real / 1000.0);
  }

  // ---------------------------------------------------------------------------
  // The score of a file
  // ---------------------------------------------------------------------------

  datatype Score = Finite(points: real) | Infinite

  function Slashes(s: string): string {
    if s == "" then "" else [if s[0] == '\\' then '/' else s[0]] + Slashes(s[1..])
  }

  /** Every backslash counts as a slash, and nothing else changes. */
  lemma {:induction false} SlashesAre(s: string)
    ensures |Slashes(s)| == |s|
    ensures forall i :: 0 <= i < |s| ==> Slashes(s)[i] == if s[i] == '\\' then '/' else s[i]
    decreases |s|
  {
    if s != "" {
      SlashesAre(s[1..]);
    }
  }

  /** The part after the last slash. */
  function LastPart(path: string): (r: string)
    ensures |r| <= |path| && r == path[|path| - |r|..] && '/' !in r
  {
    if path == "" || path[|path| - 1] == '/' then ""
    else LastPart(path[..|path| - 1]) + [path[|path| - 1]]
  }

  function PartCount(path: string): nat {
    if path == "" then 1 else PartCount(path[1..]) + if path[0] == '/' then 1 else 0
  }

  /** Paths joined by a slash have their parts together; a path without one is a single part. */
  lemma {:induction false} PartsAdd(a: string, b: string)
    ensures PartCount(a + "/" + b) == PartCount(a) + PartCount(b)
    ensures '/' !in a ==> PartCount(a) == 1
    decreases |a|
  {
    var path := a + "/" + b;
    if a == "" {
      assert path[1..] == b;
    } else {
      assert path[0] == a[0] && path[1..] == a[1..] + "/" + b;
      PartsAdd(a[1..], b);
    }
  }

  /** The name of a file is what follows its last slash. */
  lemma {:induction false} LastPartIs(a: string, b: string)
    requires '/' !in b
    ensures LastPart(a + "/" + b) == b && LastPart(b) == b
    decreases |b|
  {
    var path := a + "/" + b;
    if b != "" {
      var n := |b| - 1;
      assert path[|path| - 1] == b[n] && path[..|path| - 1] == a + "/" + b[..n] && b == b[..n] + [b[n]];
      LastPartIs(a, b[..n]);
    }
  }

  predicate StartsWith(value: string, prefix: string) {
    |prefix| <= |value| && value[..|prefix|] == prefix
  }

  function IndexOf(value: string, part: string, from: nat): (r: Option<nat>)
    requires from <= |value|
    ensures r.Some? ==> from <= r.value <= |value| && StartsWith(value[r.value..], part)
                        && forall i :: from <= i < r.value ==> !StartsWith(value[i..], part)
    ensures r.None? ==> forall i :: from <= i <= |value| ==> !StartsWith(value[i..], part)
    decreases |value| - from
  {
    if StartsWith(value[from..], part) then Some(from)
    else if from == |value| then None
    else IndexOf(value, part, from + 1)
  }

  /** The score of a file for a mention; `lower` is the lower-casing of strings. */
  function MentionScore(filePath: string, mention: string, lower: string -> string): Score {
    var needle := lower(Slashes(Text.Trim(mention)));
    if needle == "" then Finite(PartCount(filePath) as real)
    else
      var path := lower(filePath);
      var base := if LastPart(path) == "" then path else LastPart(path);
      var index := IndexOf(path, needle, 0);
      if StartsWith(base, needle) then Finite(0.0)
      else if StartsWith(path, needle) then Finite(1.0)
      else if index.Some? then Finite(10.0 + index.value as real)
      else if FuzzyScore(base, needle).Some? then Finite(100.0 + FuzzyScore(base, needle).value)
      else if FuzzyScore(path, needle).Some? then Finite(200.0 + FuzzyScore(path, needle).value)
      else Infinite
  }

  lemma PartMatches(value: string, part: string, at: nat)
    requires at <= |value| && StartsWith(value[at..], part)
    ensures Matches(value, part)
  {
    var e := seq(|part|, i requires 0 <= i < |part| => at + i);
    assert forall i :: 0 <= i < |part| ==> value[at..][..|part|][i] == value[at + i];
    assert Embeds(value, part, 0, e);
  }

  lemma SuffixMatches(value: string, at: nat, needle: string)
    requires at <= |value| && Matches(value[at..], needle)
    ensures Matches(value, needle)
  {
    var e :| Embeds(value[at..], needle, 0, e);
    var shifted := seq(|e|, i requires 0 <= i < |e| => e[i] + at);
    assert Embeds(value, needle, 0, shifted);
  }

  /** A file matches a mention, by a finite score, exactly when the mention's characters occur in its
      lower-cased path in order; only an empty mention matches every file. */
  lemma FiniteIffSubsequence(filePath: string, mention: string, lower: string -> string)
    ensures var needle := lower(Slashes(Text.Trim(mention)));
      MentionScore(filePath, mention, lower).Finite? <==> needle == "" || Matches(lower(filePath), needle)
  {
    var needle, path := lower(Slashes(Text.Trim(mention))), lower(filePath);
    if needle != "" {
      FiniteByPath(path, needle);
    }
  }

  lemma FiniteByPath(path: string, needle: string)
    ensures var base := if LastPart(path) == "" then path else LastPart(path);
      (StartsWith(base, needle) || StartsWith(path, needle) || IndexOf(path, needle, 0).Some?
       || FuzzyScore(base, needle).Some? || FuzzyScore(path, needle).Some?) <==> Matches(path, needle)
  {
    var base := if LastPart(path) == "" then path else LastPart(path);
    var at := |path| - |base|;
    assert base == path[at..];
    GreedyIsExact(base, needle);
    GreedyIsExact(path, needle);
    if StartsWith(base, needle) {
      PartMatches(path, needle, at);
    }
    if StartsWith(path, needle) {
      assert path[0..] == path;
      PartMatches(path, needle, 0);
    }
    if IndexOf(path, needle, 0).Some? {
      PartMatches(path, needle, IndexOf(path, needle, 0).value);
    }
    if FuzzyScore(base, needle).Some? {
      SuffixMatches(path, at, needle);
    }
  }

  /** A scattered match always scores behind a contiguous one that starts early in the path. */
  lemma ContiguousComesFirst(filePath: string, other: string, mention: string, lower: string -> string, index: nat)
    requires var needle := lower(Slashes(Text.Trim(mention)));
      needle != "" && IndexOf(lower(filePath), needle, 0) == Some(index) && index <= 90
      && IndexOf(lower(other), needle, 0) == None
    ensures MentionScore(filePath, mention, lower).Finite?
    ensures MentionScore(other, mention, lower).Finite? ==>
      MentionScore(filePath, mention, lower).points < MentionScore(other, mention, lower).points
  {
    var needle, path := lower(Slashes(Text.Trim(mention))), lower(other);
    var base := if LastPart(path) == "" then path else LastPart(path);
    assert base == path[|path| - |base|..] && path == path[0..];
    if FuzzyScore(base, needle).Some? {
      ScoreIsPositive(base, needle);
    }
    if FuzzyScore(path, needle).Some? {
      ScoreIsPositive(path, needle);
    }
  }

  lemma ScoreIsPositive(value: string, needle: string)
    requires needle != "" && FuzzyScore(value, needle).Some?
    ensures FuzzyScore(value, needle).value > 0.0
  {
    GapsAreNotNegative(value, needle, 0);
    assert value != "";
  }

  lemma {:induction false} GapsAreNotNegative(value: string, needle: string, from: nat)
    ensures GreedyGaps(value, needle, from).Some? ==> GreedyGaps(value, needle, from).value >= 0
    decreases |needle|
  {
    if needle != "" && IndexFrom(value, needle[0], from).Some? {
      GapsAreNotNegative(value, needle[1..], IndexFrom(value, needle[0], from).value + 1);
    }
  }

  /** What a mention scores, by where it is found: at the start of the name 0, at the start of the path 1, inside
      10 and more by its place, scattered in the name 100 and more, scattered in the path 200 and more. */
  lemma ScoreBands(filePath: string, mention: string, lower: string -> string)
    ensures var needle, path := lower(Slashes(Text.Trim(mention))), lower(filePath);
      var base := if LastPart(path) == "" then path else LastPart(path);
      var score := MentionScore(filePath, mention, lower);
      needle != "" ==>
        && (score == Finite(0.0) <==> |needle| <= |base| && base[..|needle|] == needle)
        && (score == Finite(1.0) <==>
              |needle| <= |path| && path[..|needle|] == needle && !(|needle| <= |base| && base[..|needle|] == needle))
        && (score.Finite? && score.points < 10.0 ==> score.points == 0.0 || score.points == 1.0)
  {
    var needle, path := lower(Slashes(Text.Trim(mention))), lower(filePath);
    var base := if LastPart(path) == "" then path else LastPart(path);
    if needle != "" && FuzzyScore(base, needle).Some? {
      ScoreIsPositive(base, needle);
    }
    if needle != "" && FuzzyScore(path, needle).Some? {
      ScoreIsPositive(path, needle);
    }
  }

  /** Without a mention a file scores by its depth: one at the root scores 1, and every path below a
      directory scores what the directory does and what it does within it. */
  lemma DepthDecidesBlank(dir: string, file: string, mention: string, lower: string -> string)
    requires lower(Slashes(Text.Trim(mention))) == "" && '/' !in file
    ensures MentionScore(file, mention, lower) == Finite(1.0)
    ensures MentionScore(dir, mention, lower).Finite?
    ensures MentionScore(dir + "/" + file, mention, lower) == Finite(MentionScore(dir, mention, lower).points + 1.0)
  {
    PartsAdd(file, "");
    PartsAdd(dir, file);
  }

  /** A name that begins with the mention comes before every other file, a path that does before all the rest,
      and of two files that contain it the one that does so earlier. */
  lemma PrefixesComeFirst(a: string, b: string, mention: string, lower: string -> string)
    requires lower(Slashes(Text.Trim(mention))) != ""
    requires MentionScore(a, mention, lower).Finite? && MentionScore(b, mention, lower).Finite?
    ensures var needle := lower(Slashes(Text.Trim(mention)));
      var x, y := MentionScore(a, mention, lower).points, MentionScore(b, mention, lower).points;
      var baseA := if LastPart(lower(a)) == "" then lower(a) else LastPart(lower(a));
      var baseB := if LastPart(lower(b)) == "" then lower(b) else LastPart(lower(b));
      && (StartsWith(baseA, needle) && !StartsWith(baseB, needle) ==> x < y)
      && (StartsWith(lower(a), needle) && !StartsWith(baseB, needle) && !StartsWith(lower(b), needle) ==> x < y)
      && ((&& !StartsWith(baseA, needle) && !StartsWith(lower(a), needle)
           && !StartsWith(baseB, needle) && !StartsWith(lower(b), needle)
           && IndexOf(lower(a), needle, 0).Some? && IndexOf(lower(b), needle, 0).Some?
           && IndexOf(lower(a), needle, 0).value < IndexOf(lower(b), needle, 0).value) ==> x < y)
  {
    ScoreBands(a, mention, lower);
    ScoreBands(b, mention, lower);
  }
}
