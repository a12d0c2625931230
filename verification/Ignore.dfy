/** The dockerignore matcher: pattern rules, last match wins, and which pattern lists are closed
    under descending into a directory. */
module Ignore {
  import opened Lines

  /** Shell-style globbing, taken as given: `path` matches a pattern against a whole relative path
      (`**` crosses directories), `part` matches it against one path segment. */
  datatype Glob = Glob(path: (string, string) -> bool, part: (string, string) -> bool)

  const MARKER := ".dockerignore"

  // ---- strings ----

  predicate EndsWithSlash(s: string) {
    s != "" && s[|s| - 1] == '/'
  }

  function StripSlashes(s: string): string {
    if EndsWithSlash(s) then StripSlashes(s[..|s| - 1]) else s
  }

  predicate HasDoubleStar(s: string) {
    exists i :: 0 <= i < |s| - 1 && s[i] == '*' && s[i + 1] == '*'
  }

  /** The directories above a path: the text before each of its slashes. */
  ghost predicate IsAncestor(a: string, rel: string) {
    |a| < |rel| && rel[..|a|] == a && rel[|a|] == '/'
  }

  function Ancestors(rel: string): set<string> {
    set i | 0 <= i < |rel| && rel[i] == '/' :: rel[..i]
  }

  lemma AncestorsAre(rel: string, a: string)
    ensures a in Ancestors(rel) <==> IsAncestor(a, rel)
  {
    if IsAncestor(a, rel) {
      assert rel[..|a|] in Ancestors(rel);
    }
  }

  // ---- one pattern ----

  predicate Literal(p: string) {
    '*' !in p && '?' !in p
  }

  /** Patterns that also exclude what lies under a match. */
  predicate CoversTree(raw: string) {
    EndsWithSlash(raw) || '/' in StripSlashes(raw) || HasDoubleStar(StripSlashes(raw))
  }

  predicate Under(g: Glob, p: string, rel: string) {
    || (Literal(p) && p + "/" <= rel)
    || exists a <- Ancestors(rel) :: g.path(p, a)
  }

  predicate AnyPart(g: Glob, p: string, rel: string) {
    '/' !in p && !HasDoubleStar(p) && exists part <- SplitOn(rel, '/') :: g.part(part, p)
  }

  predicate Match(g: Glob, raw: string, rel: string) {
    var p := StripSlashes(raw);
    && p != ""
    && (g.path(p, rel) || (CoversTree(raw) && Under(g, p, rel)) || AnyPart(g, p, rel))
  }

  // ---- a list of patterns ----

  predicate Negated(line: string) {
    line != "" && line[0] == '!'
  }

  function PatternOf(line: string): string {
    if Negated(line) then line[1..] else line
  }

  function Verdict(g: Glob, lines: seq<string>, rel: string): bool {
    if lines == [] then false
    else
      var last := lines[|lines| - 1];
      if Match(g, PatternOf(last), rel) then !Negated(last) else Verdict(g, lines[..|lines| - 1], rel)
  }

  function Excludes(g: Glob, lines: seq<string>, rel: string): bool {
    rel != MARKER && Verdict(g, lines, rel)
  }

  function ExcludesOrAncestor(g: Glob, lines: seq<string>, rel: string): bool {
    Excludes(g, lines, rel) || exists a <- Ancestors(rel) :: Excludes(g, lines, a)
  }

  method RunExcludes(g: Glob, lines: seq<string>, rel: string) returns (matched: bool)
    ensures matched == Excludes(g, lines, rel)
  {
    if rel == MARKER {
      return false;
    }
    matched := false;
    for k := 0 to |lines|
      invariant matched == Verdict(g, lines[..k], rel)
    {
      assert lines[..k + 1][..k] == lines[..k];
      var negate := Negated(lines[k]);
      var pattern := if negate then lines[k][1..] else lines[k];
      if Match(g, pattern, rel) {
        matched := !negate;
      }
    }
    assert lines[..|lines|] == lines;
  }

  ghost predicate LastMatch(g: Glob, lines: seq<string>, rel: string, i: nat) {
    && i < |lines| && Match(g, PatternOf(lines[i]), rel)
    && forall j :: i < j < |lines| ==> !Match(g, PatternOf(lines[j]), rel)
  }

  /** A path is excluded exactly when the last line that matches it is not a negation. */
  lemma {:induction false} LastMatchWins(g: Glob, lines: seq<string>, rel: string)
    ensures Verdict(g, lines, rel) <==> exists i: nat :: LastMatch(g, lines, rel, i) && !Negated(lines[i])
  {
    if lines != [] {
      var n, init := |lines| - 1, lines[..|lines| - 1];
      LastMatchWins(g, init, rel);
      if Match(g, PatternOf(lines[n]), rel) {
        assert LastMatch(g, lines, rel, n);
      } else {
        forall i: nat ensures LastMatch(g, lines, rel, i) <==> LastMatch(g, init, rel, i) {
        }
        if i: nat :| LastMatch(g, init, rel, i) && !Negated(init[i]) {
          assert LastMatch(g, lines, rel, i) && !Negated(lines[i]);
        }
        if i: nat :| LastMatch(g, lines, rel, i) && !Negated(lines[i]) {
          assert LastMatch(g, init, rel, i) && !Negated(init[i]);
        }
      }
    }
  }

  // ---- closure under descending ----

  /** A segment of a directory is a segment of everything below it. */
  lemma PartsDescend(g: Glob, p: string, a: string, rel: string)
    requires IsAncestor(a, rel) && AnyPart(g, p, a)
    ensures AnyPart(g, p, rel)
  {
    SplitOnAt(rel, '/', |a|);
    var part :| part in SplitOn(a, '/') && g.part(part, p);
    assert part in SplitOn(rel, '/');
  }

  lemma MatchDescends(g: Glob, raw: string, a: string, rel: string)
    requires CoversTree(raw) && IsAncestor(a, rel) && Match(g, raw, a)
    ensures Match(g, raw, rel)
  {
    var p := StripSlashes(raw);
    if g.path(p, a) {
      AncestorsAre(rel, a);
    } else if Under(g, p, a) {
      if Literal(p) && p + "/" <= a {
        assert a <= rel;
      } else {
        var b :| b in Ancestors(a) && g.path(p, b);
        AncestorsAre(a, b);
        AncestorsAre(rel, b);
      }
    } else {
      PartsDescend(g, p, a, rel);
    }
  }

  ghost predicate Descending(lines: seq<string>) {
    forall i :: 0 <= i < |lines| ==> !Negated(lines[i]) && CoversTree(lines[i])
  }

  lemma {:induction false} PositiveVerdict(g: Glob, lines: seq<string>, rel: string)
    requires Descending(lines)
    ensures Verdict(g, lines, rel) <==> exists i :: 0 <= i < |lines| && Match(g, lines[i], rel)
  {
    if lines != [] {
      var init := lines[..|lines| - 1];
      PositiveVerdict(g, init, rel);
      if i :| 0 <= i < |init| && Match(g, init[i], rel) {
        assert Match(g, lines[i], rel);
      }
      if i :| 0 <= i < |lines| && Match(g, lines[i], rel) {
        assert i < |init| ==> Match(g, init[i], rel);
      }
    }
  }

  /** Without negations and with only tree-covering patterns, looking at the ancestors adds nothing. */
  lemma AncestorsAddNothing(g: Glob, lines: seq<string>, rel: string)
    requires Descending(lines)
    ensures ExcludesOrAncestor(g, lines, rel) <==> Excludes(g, lines, rel)
  {
    if a :| a in Ancestors(rel) && Excludes(g, lines, a) {
      AncestorsAre(rel, a);
      PositiveVerdict(g, lines, a);
      var i :| 0 <= i < |lines| && Match(g, lines[i], a);
      MatchDescends(g, lines[i], a, rel);
      PositiveVerdict(g, lines, rel);
      assert '/' in rel && '/' !in MARKER;
    }
  }

  // ---- exactly when the ancestors matter ----

  /** The last line that matches a path excludes it, or reopens it. */
  ghost predicate LastExcludes(g: Glob, lines: seq<string>, rel: string) {
    exists i: nat :: LastMatch(g, lines, rel, i) && !Negated(lines[i])
  }

  ghost predicate LastReopens(g: Glob, lines: seq<string>, rel: string) {
    exists i: nat :: LastMatch(g, lines, rel, i) && Negated(lines[i])
  }

  ghost predicate UnderExcluded(g: Glob, lines: seq<string>, rel: string) {
    exists a <- Ancestors(rel) :: a != MARKER && LastExcludes(g, lines, a)
  }

  lemma {:induction false} SomeLastMatch(g: Glob, lines: seq<string>, rel: string, j: nat)
    requires j < |lines| && Match(g, PatternOf(lines[j]), rel)
    ensures exists i: nat :: j <= i && LastMatch(g, lines, rel, i)
    decreases |lines| - j
  {
    if k :| j < k < |lines| && Match(g, PatternOf(lines[k]), rel) {
      SomeLastMatch(g, lines, rel, k);
    } else {
      assert LastMatch(g, lines, rel, j);
    }
  }

  lemma ExcludesIs(g: Glob, lines: seq<string>, rel: string)
    ensures Excludes(g, lines, rel) <==> rel != MARKER && LastExcludes(g, lines, rel)
  {
    LastMatchWins(g, lines, rel);
  }

  /** For any list: looking at the ancestors changes the verdict exactly when a directory above is excluded by its
      last match and the path itself is not. */
  lemma VerdictsDifferIff(g: Glob, lines: seq<string>, rel: string)
    ensures ExcludesOrAncestor(g, lines, rel) != Excludes(g, lines, rel)
       <==> UnderExcluded(g, lines, rel) && !LastExcludes(g, lines, rel)
  {
    ExcludesIs(g, lines, rel);
    forall a <- Ancestors(rel)
      ensures Excludes(g, lines, a) <==> a != MARKER && LastExcludes(g, lines, a)
    {
      ExcludesIs(g, lines, a);
    }
    assert Ancestors(rel) != {} ==> '/' in rel;
    assert '/' !in MARKER;
  }

  /** Every line that excludes also excludes what lies below its matches. */
  ghost predicate ExcludingLinesCover(lines: seq<string>) {
    forall i :: 0 <= i < |lines| && !Negated(lines[i]) ==> CoversTree(lines[i])
  }

  /** Then some line matches everything below an excluded directory. */
  lemma BelowIsMatched(g: Glob, lines: seq<string>, a: string, rel: string)
    requires ExcludingLinesCover(lines) && a in Ancestors(rel) && LastExcludes(g, lines, a)
    ensures LastExcludes(g, lines, rel) || LastReopens(g, lines, rel)
  {
    var j: nat :| LastMatch(g, lines, a, j) && !Negated(lines[j]);
    AncestorsAre(rel, a);
    MatchDescends(g, lines[j], a, rel);
    SomeLastMatch(g, lines, rel, j);
  }

  lemma NotBoth(g: Glob, lines: seq<string>, rel: string)
    ensures !(LastExcludes(g, lines, rel) && LastReopens(g, lines, rel))
  {
    if i: nat :| LastMatch(g, lines, rel, i) && Negated(lines[i]) {
      assert forall j: nat :: LastMatch(g, lines, rel, j) ==> j == i;
    }
  }

  /** For lists whose excluding lines cover trees, it changes the verdict exactly when a negation is the last line that
      matches the path, and a directory above is excluded by its last match. */
  lemma CoveringListsDifferIff(g: Glob, lines: seq<string>, rel: string)
    requires ExcludingLinesCover(lines)
    ensures ExcludesOrAncestor(g, lines, rel) != Excludes(g, lines, rel)
       <==> UnderExcluded(g, lines, rel) && LastReopens(g, lines, rel)
  {
    VerdictsDifferIff(g, lines, rel);
    NotBoth(g, lines, rel);
    if UnderExcluded(g, lines, rel) {
      var a :| a in Ancestors(rel) && a != MARKER && LastExcludes(g, lines, a);
      BelowIsMatched(g, lines, a, rel);
    }
  }

  /** A single line that excludes without covering trees: the verdicts differ exactly when it matches a directory above
      as a whole path, and matches neither the path nor one of its segments. */
  lemma LooseLineDiffersIff(g: Glob, line: string, rel: string)
    requires !Negated(line) && !CoversTree(line)
    ensures ExcludesOrAncestor(g, [line], rel) != Excludes(g, [line], rel)
       <==> && line != "" && !g.path(line, rel) && !AnyPart(g, line, rel)
            && exists a <- Ancestors(rel) :: a != MARKER && g.path(line, a)
  {
    assert StripSlashes(line) == line;
    assert [line][..0] == [];
    assert forall r: string :: Verdict(g, [line], r) == Match(g, line, r);
    forall a <- Ancestors(rel)
      ensures AnyPart(g, line, a) ==> AnyPart(g, line, rel)
    {
      AncestorsAre(rel, a);
      if AnyPart(g, line, a) {
        PartsDescend(g, line, a, rel);
      }
    }
    assert Ancestors(rel) != {} ==> '/' in rel;
    assert '/' !in MARKER;
  }

  // ---- what one line excludes, by the kind of its pattern ----

  /** The pattern matches the whole path, or the whole path of a directory above it. */
  ghost predicate AtOrAbove(g: Glob, p: string, rel: string) {
    g.path(p, rel) || exists i :: 0 <= i < |rel| && rel[i] == '/' && g.path(p, rel[..i])
  }

  /** The pattern matches one of the names along the path. */
  ghost predicate OnePart(g: Glob, p: string, rel: string) {
    exists i: int, j: int :: Stretch(rel, '/', i, j) && g.part(rel[i..j], p)
  }

  ghost predicate BelowLiteral(p: string, rel: string) {
    '*' !in p && '?' !in p && p + "/" <= rel
  }

  function Slashes(n: nat): string {
    seq(n, _ => '/')
  }

  lemma {:induction false} StripAdded(p: string, n: nat)
    requires p == "" || p[|p| - 1] != '/'
    ensures StripSlashes(p + Slashes(n)) == p
    decreases n
  {
    if n > 0 {
      assert (p + Slashes(n))[..|p| + n - 1] == p + Slashes(n - 1);
      StripAdded(p, n - 1);
    } else {
      assert p + Slashes(0) == p;
    }
  }

  lemma SingleVerdict(g: Glob, line: string, rel: string)
    ensures Verdict(g, [line], rel) <==> !Negated(line) && Match(g, PatternOf(line), rel)
  {
    assert [line][..0] == [];
  }

  lemma AnyPartMeans(g: Glob, p: string, rel: string)
    requires '/' !in p && !HasDoubleStar(p)
    ensures AnyPart(g, p, rel) <==> OnePart(g, p, rel)
  {
    if part :| part in SplitOn(rel, '/') && g.part(part, p) {
      PartsAreStretches(rel, '/', part);
    }
    if i: int, j: int :| Stretch(rel, '/', i, j) && g.part(rel[i..j], p) {
      PartsAreStretches(rel, '/', rel[i..j]);
    }
  }

  lemma UnderMeans(g: Glob, p: string, rel: string)
    ensures g.path(p, rel) || Under(g, p, rel) <==> AtOrAbove(g, p, rel) || BelowLiteral(p, rel)
  {
    if a :| a in Ancestors(rel) && g.path(p, a) {
      AncestorsAre(rel, a);
      assert rel[|a|] == '/' && rel[..|a|] == a;
    }
    if i :| 0 <= i < |rel| && rel[i] == '/' && g.path(p, rel[..i]) {
      assert rel[..i] in Ancestors(rel);
    }
  }

  /** A single excluding line, by its kind. A pattern with an inner slash or `**` excludes what it matches at or above
      the path, and what lies below it when it is literal. One with neither also excludes by any name along the path,
      and looks above only when it ends in a slash. */
  lemma LineMeaning(g: Glob, p: string, n: nat, rel: string)
    requires p != "" && p[0] != '!' && p[|p| - 1] != '/'
    ensures Excludes(g, [p + Slashes(n)], rel) <==>
            && rel != ".dockerignore"
            && if '/' in p || exists i :: 0 <= i < |p| - 1 && p[i] == '*' && p[i + 1] == '*' then
                 AtOrAbove(g, p, rel) || BelowLiteral(p, rel)
               else if n > 0 then AtOrAbove(g, p, rel) || BelowLiteral(p, rel) || OnePart(g, p, rel)
               else g.path(p, rel) || OnePart(g, p, rel)
  {
    var line: string := p + Slashes(n);
    StripAdded(p, n);
    UnderMeans(g, p, rel);
    if '/' !in p && !HasDoubleStar(p) {
      AnyPartMeans(g, p, rel);
    }
    SingleVerdict(g, line, rel);
    assert line[0] == p[0];
    assert EndsWithSlash(line) <==> n > 0;
  }

  /** A line that starts with `!` alone excludes nothing, nor does a line of slashes; and the ignore file itself always
      stays. */
  lemma HarmlessLines(g: Glob, p: string, n: nat, lines: seq<string>, rel: string)
    ensures !Excludes(g, ["!" + p], rel)
    ensures !Excludes(g, [Slashes(n)], rel)
    ensures !Excludes(g, lines, ".dockerignore")
  {
    SingleVerdict(g, "!" + p, rel);
    SingleVerdict(g, Slashes(n), rel);
    StripAdded("", n);
    assert "" + Slashes(n) == Slashes(n);
    assert Slashes(n) == "" || Slashes(n)[0] == '/';
  }

  // ---- both failures with the shell's own wildcards ----

  /** Shell wildcards without character sets: `*` stands for any text, slashes included, and `?` for one character. */
  predicate Wild(p: string, s: string)
    decreases |p| + |s|
  {
    if p == "" then s == ""
    else if p[0] == '*' then Wild(p[1..], s) || (s != "" && Wild(p, s[1..]))
    else s != "" && (p[0] == '?' || p[0] == s[0]) && Wild(p[1..], s[1..])
  }

  const SHELL := Glob((p: string, s: string) => Wild(p, s), (s: string, p: string) => Wild(p, s))

  /** A negation reopens a path whose directory stays excluded, so the walk never reaches it. */
  lemma NegationBreaksClosure()
    ensures var lines := ["a/", "!a/b"];
            !Excludes(SHELL, lines, "a/b") && ExcludesOrAncestor(SHELL, lines, "a/b")
  {
    var lines := ["a/", "!a/b"];
    assert ExcludingLinesCover(lines);
    assert StripSlashes("a/") == "a" by { assert "a/"[..1] == "a"; }
    assert StripSlashes("a/b") == "a/b";
    assert PatternOf("!a/b") == "a/b";
    assert Match(SHELL, "a/b", "a/b") by { assert Wild("a/b", "a/b"); }
    assert !Match(SHELL, "a/b", "a") by {
      assert !Wild("a/b", "a");
      assert Ancestors("a") == {};
    }
    assert Match(SHELL, "a/", "a") by { assert Wild("a", "a"); }
    assert LastMatch(SHELL, lines, "a/b", 1);
    assert LastMatch(SHELL, lines, "a", 0);
    AncestorsAre("a/b", "a");
    CoveringListsDifferIff(SHELL, lines, "a/b");
    NotBoth(SHELL, lines, "a/b");
    ExcludesIs(SHELL, lines, "a/b");
  }

  lemma LooseParts()
    ensures SplitOn("x1/2z/w", '/') == ["x1", "2z", "w"]
  {
    SplitOnAt("x1/2z/w", '/', 2);
    assert "x1/2z/w"[..2] == "x1" && "x1/2z/w"[3..] == "2z/w";
    SplitOnAt("2z/w", '/', 2);
    assert "2z/w"[..2] == "2z" && "2z/w"[3..] == "w";
    SplitOnWhole("x1", '/');
    SplitOnWhole("2z", '/');
    SplitOnWhole("w", '/');
  }

  /** Nor is negation the only cause: a wildcard without a slash excludes a directory and not what lies below it. */
  lemma LooseLineBreaksClosure()
    ensures !Excludes(SHELL, ["x*z"], "x1/2z/w") && ExcludesOrAncestor(SHELL, ["x*z"], "x1/2z/w")
  {
    var line, dir, rel := "x*z", "x1/2z", "x1/2z/w";
    assert StripSlashes(line) == line;
    assert !HasDoubleStar(line);
    assert Wild(line, dir);
    assert !Wild(line, rel);
    LooseParts();
    assert !Wild(line, "x1") && !Wild(line, "2z") && !Wild(line, "w");
    AncestorsAre(rel, dir);
    LooseLineDiffersIff(SHELL, line, rel);
  }
}
