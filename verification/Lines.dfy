/** Text as lines and parts: splitting at line boundaries or at one character, joining, trimming. */
module Lines {
  import opened Sequences

  /** The characters that end a line. */
  predicate IsBreak(c: char) {
    var n := c as int;
    0x0a <= n <= 0x0d || 0x1c <= n <= 0x1e || n == 0x85 || n == 0x2028 || n == 0x2029
  }

  predicate IsSpace(c: char) {
    var n := c as int;
    || 0x09 <= n <= 0x0d || 0x1c <= n <= 0x20 || n == 0x85 || n == 0xa0 || n == 0x1680
    || 0x2000 <= n <= 0x200a || n == 0x2028 || n == 0x2029 || n == 0x202f || n == 0x205f || n == 0x3000
  }

  /** The line boundaries are line feed, vertical tab, form feed, carriage return, the file, group and record separators,
      next line, and the line and paragraph separators; they are all white space, and so are tab, unit separator, space
      and the no-break, ogham, en quad to hair, narrow, mathematical and ideographic spaces. */
  lemma WhichCharacters(c: char)
    ensures IsBreak(c) <==> c as int in {0x0a, 0x0b, 0x0c, 0x0d, 0x1c, 0x1d, 0x1e, 0x85, 0x2028, 0x2029}
    ensures IsSpace(c) <==>
            || IsBreak(c)
            || c as int in {0x09, 0x1f, 0x20, 0xa0, 0x1680, 0x2000, 0x2001, 0x2002, 0x2003, 0x2004, 0x2005, 0x2006,
                            0x2007, 0x2008, 0x2009, 0x200a, 0x202f, 0x205f, 0x3000}
  {
  }

  /** One line: no line boundary inside. */
  ghost predicate Plain(s: string) {
    forall c <- s :: !IsBreak(c)
  }

  /** Put a character in front of the first line. */
  function Put(c: char, ls: seq<string>): seq<string> {
    if ls == [] then [[c]] else [[c] + ls[0]] + ls[1..]
  }

  /** The length of the line boundary at the head of `s`: a carriage return takes a newline with it. */
  function Gap(s: string): (n: nat)
    requires s != ""
    ensures 1 <= n <= |s|
  {
    if s[0] == '\r' && |s| > 1 && s[1] == '\n' then 2 else 1
  }

  function Split(s: string): (ls: seq<string>)
    decreases |s|
  {
    if s == "" then []
    else if IsBreak(s[0]) then [""] + Split(s[Gap(s)..])
    else Put(s[0], Split(s[1..]))
  }

  /** The parts with a separator between each two. */
  function Join(ls: seq<string>, sep: string): string {
    if ls == [] then "" else if |ls| == 1 then ls[0] else ls[0] + sep + Join(ls[1..], sep)
  }

  /** The parts between the occurrences of one character. */
  function SplitOn(s: string, c: char): (parts: seq<string>)
    ensures |parts| > 0
  {
    if s == "" then [""]
    else
      var rest := SplitOn(s[1..], c);
      if s[0] == c then [""] + rest else [[s[0]] + rest[0]] + rest[1..]
  }

  function StripLeft(s: string): string {
    if s != "" && IsSpace(s[0]) then StripLeft(s[1..]) else s
  }

  function StripRight(s: string): string {
    if s != "" && IsSpace(s[|s| - 1]) then StripRight(s[..|s| - 1]) else s
  }

  function Strip(s: string): string { StripRight(StripLeft(s)) }

  predicate Contains(s: string, t: string) {
    t <= s || (s != "" && Contains(s[1..], t))
  }

  // ---- facts about lines ----

  lemma PutPlain(c: char, ls: seq<string>)
    requires !IsBreak(c) && forall l <- ls :: Plain(l)
    ensures forall l <- Put(c, ls) :: Plain(l)
  {
    if ls != [] {
      assert Plain(ls[0]);
      assert Plain([c] + ls[0]);
    }
  }

  lemma {:induction false} SplitPlain(s: string)
    ensures forall l <- Split(s) :: Plain(l)
    decreases |s|
  {
    if s != "" {
      if IsBreak(s[0]) {
        SplitPlain(s[Gap(s)..]);
      } else {
        SplitPlain(s[1..]);
        PutPlain(s[0], Split(s[1..]));
      }
    }
  }

  lemma {:induction false} ContainsLater(s: string, k: nat, t: string)
    requires k <= |s| && Contains(s[k..], t)
    ensures Contains(s, t)
    decreases k
  {
    if k > 0 {
      assert s[1..][k - 1..] == s[k..];
      ContainsLater(s[1..], k - 1, t);
    } else {
      assert s[0..] == s;
    }
  }

  /** A line that starts with `t` is in a text that contains `t`. */
  lemma {:induction false} LineIsPart(s: string, l: string, t: string)
    requires l in Split(s) && t <= l
    ensures Contains(s, t)
    decreases |s|
  {
    FirstIsHead(s);
    if l == Split(s)[0] {
      assert t <= s;
    } else {
      var n := if IsBreak(s[0]) then Gap(s) else 1;
      assert l in Split(s[n..]);
      LineIsPart(s[n..], l, t);
      ContainsLater(s, n, t);
    }
  }

  /** The first line heads the text. */
  lemma {:induction false} FirstIsHead(s: string)
    ensures s != "" ==> Split(s) != [] && Split(s)[0] <= s
    decreases |s|
  {
    if s != "" && !IsBreak(s[0]) {
      FirstIsHead(s[1..]);
    }
  }

  /** True when a newline after `a` stands for a line of its own. */
  predicate Opens(a: string) {
    a == "" || (IsBreak(a[|a| - 1]) && a[|a| - 1] != '\r')
  }

  function Opened(a: string): seq<string> {
    if Opens(a) then [""] else []
  }

  lemma PutAppend(c: char, a: seq<string>, b: seq<string>)
    requires a != []
    ensures Put(c, a + b) == Put(c, a) + b
  {
    assert (a + b)[1..] == a[1..] + b;
  }

  lemma PutFirst(c: char, ls: seq<string>)
    ensures Put(c, [""] + ls) == [[c]] + ls
  {
    assert ([""] + ls)[1..] == ls && [c] + "" == [c];
  }

  lemma PutSplit(a: string, ls: seq<string>)
    requires a != "" && !IsBreak(a[0])
    ensures Put(a[0], Split(a[1..]) + (Opened(a[1..]) + ls)) == Split(a) + (Opened(a) + ls)
  {
    if a[1..] != "" {
      PutAppend(a[0], Split(a[1..]), Opened(a) + ls);
    } else {
      assert Split(a[1..]) + (Opened(a[1..]) + ls) == [""] + ls;
      assert Split(a) + (Opened(a) + ls) == [[a[0]]] + ls;
      PutFirst(a[0], ls);
    }
  }

  /** Splitting at an added newline. */
  lemma {:induction false} SplitAtNewline(a: string, b: string)
    ensures Split(a + "\n" + b) == Split(a) + (Opened(a) + Split(b))
    decreases |a|
  {
    var s := a + "\n" + b;
    if a == "" || a == "\r" {
      SplitAtOnce(a, b);
    } else if !IsBreak(a[0]) {
      assert s[0] == a[0] && s[1..] == a[1..] + "\n" + b;
      SplitAtNewline(a[1..], b);
      PutSplit(a, Split(b));
    } else {
      SplitPastBreak(a, b);
      SplitAtNewline(a[Gap(a)..], b);
      Assoc([""], Split(a[Gap(a)..]), Opened(a) + Split(b));
    }
  }

  lemma SplitAtOnce(a: string, b: string)
    requires a == "" || a == "\r"
    ensures Split(a + "\n" + b) == Split(a) + (Opened(a) + Split(b))
  {
    var s := a + "\n" + b;
    if a == "" {
      assert s[1..] == b;
    } else {
      assert s[2..] == b && a[1..] == "";
    }
  }

  lemma SplitPastBreak(a: string, b: string)
    requires a != "" && IsBreak(a[0]) && a != "\r"
    ensures var n := Gap(a);
            && Split(a + "\n" + b) == [""] + Split(a[n..] + "\n" + b)
            && Opened(a[n..]) == Opened(a)
  {
    var n := Gap(a);
    assert |a| == 1 ==> a == [a[0]];
    assert (a + "\n" + b)[n..] == a[n..] + "\n" + b;
  }

  lemma {:induction false} SplitOne(l: string)
    requires Plain(l) && l != ""
    ensures Split(l) == [l]
  {
    assert !IsBreak(l[0]);
    if |l| > 1 {
      SplitOne(l[1..]);
      assert [l[0]] + l[1..] == l;
    } else {
      assert l[1..] == "" && [l[0]] == l;
    }
  }

  /** A text of lines splits into those lines; only an empty last line is lost. */
  lemma {:induction false} SplitJoin(ls: seq<string>)
    requires forall l <- ls :: Plain(l)
    requires ls != [] ==> ls[|ls| - 1] != ""
    ensures Split(Join(ls, "\n")) == ls
  {
    if |ls| == 1 {
      SplitOne(ls[0]);
    } else if |ls| > 1 {
      SplitJoin(ls[1..]);
      SplitAtNewline(ls[0], Join(ls[1..], "\n"));
      if ls[0] != "" {
        SplitOne(ls[0]);
      }
    }
  }

  /** Whole lines added under a text that does not end in a boundary. */
  lemma SplitJoinUnder(a: string, ls: seq<string>)
    requires a != "" && !Opens(a)
    requires forall l <- ls :: l != "" && Plain(l)
    ensures Split(Join([a] + ls, "\n")) == Split(a) + ls
  {
    if ls != [] {
      assert ls[|ls| - 1] in ls;
      SplitJoin(ls);
      assert ([a] + ls)[1..] == ls;
      SplitAtNewline(a, Join(ls, "\n"));
    }
  }

  // ---- stripping ----

  lemma {:induction false} StripRightEnds(s: string)
    ensures StripRight(s) == "" || !IsSpace(StripRight(s)[|StripRight(s)| - 1])
  {
    if s != "" && IsSpace(s[|s| - 1]) {
      StripRightEnds(s[..|s| - 1]);
    }
  }

  /** A newline after a stripped text only ends its last line. */
  lemma StrippedDoesNotOpen(s: string)
    requires Strip(s) != ""
    ensures !Opens(Strip(s))
  {
    StripRightEnds(StripLeft(s));
  }

  ghost predicate Blank(s: string) {
    forall c <- s :: IsSpace(c)
  }

  lemma {:induction false} StripLeftBlank(s: string)
    ensures Blank(StripLeft(s)) <==> Blank(s)
  {
    if s != "" {
      assert s == [s[0]] + s[1..];
      StripLeftBlank(s[1..]);
    }
  }

  lemma {:induction false} StripRightBlank(s: string)
    ensures StripRight(s) == "" <==> Blank(s)
  {
    if s != "" {
      assert s == s[..|s| - 1] + [s[|s| - 1]];
      StripRightBlank(s[..|s| - 1]);
    }
  }

  lemma StripBlank(s: string)
    ensures Strip(s) == "" <==> Blank(s)
  {
    StripLeftBlank(s);
    StripRightBlank(StripLeft(s));
  }

  lemma StrippedIsNotBlank(s: string)
    ensures Strip(s) != "" ==> !Blank(Strip(s))
  {
    StripRightEnds(StripLeft(s));
  }

  lemma BlankAppend(a: string, b: string)
    ensures Blank(a + b) <==> Blank(a) && Blank(b)
  {
  }

  lemma {:induction false} JoinBlank(ls: seq<string>)
    ensures Blank(Join(ls, "\n")) <==> forall l <- ls :: Blank(l)
  {
    if |ls| == 1 {
      assert ls == [ls[0]];
    } else if |ls| > 1 {
      JoinBlank(ls[1..]);
      assert ls == [ls[0]] + ls[1..];
      BlankAppend(ls[0] + "\n", Join(ls[1..], "\n"));
      BlankAppend(ls[0], "\n");
    }
  }

  // ---- parts between separators ----

  lemma {:induction false} SplitOnAt(s: string, c: char, i: nat)
    requires i < |s| && s[i] == c
    ensures SplitOn(s, c) == SplitOn(s[..i], c) + SplitOn(s[i + 1..], c)
    decreases i
  {
    if i > 0 {
      SplitOnAt(s[1..], c, i - 1);
      assert s[1..][..i - 1] == s[..i][1..] && s[1..][i..] == s[i + 1..];
    } else {
      assert s[..0] == "";
    }
  }

  lemma {:induction false} SplitOnWhole(s: string, c: char)
    requires c !in s
    ensures SplitOn(s, c) == [s]
  {
    if s != "" {
      SplitOnWhole(s[1..], c);
      assert [s[0]] + s[1..] == s;
    }
  }

  /** Parts without the separator come back from their join. */
  lemma {:induction false} SplitOnJoin(ls: seq<string>, c: char)
    requires ls != [] && forall l <- ls :: c !in l
    ensures SplitOn(Join(ls, [c]), c) == ls
  {
    assert c !in ls[0];
    SplitOnWhole(ls[0], c);
    if |ls| > 1 {
      var s := Join(ls, [c]);
      SplitOnJoin(ls[1..], c);
      SplitOnAt(s, c, |ls[0]|);
      assert s[..|ls[0]|] == ls[0] && s[|ls[0]| + 1..] == Join(ls[1..], [c]);
      assert ls == [ls[0]] + ls[1..];
    }
  }

  lemma JoinTwo(x: string, y: string, sep: string)
    ensures Join([x, y], sep) == x + sep + y
  {
    assert [x, y][1..] == [y];
  }

  lemma JoinNotEmpty(ls: seq<string>, c: char)
    requires ls != [] && forall l <- ls :: l != ""
    ensures Join(ls, [c]) != ""
  {
    assert ls[0] in ls;
  }

  /** Lists of non-empty parts without the separator are told apart by their join. */
  lemma JoinInjective(a: seq<string>, b: seq<string>, c: char)
    requires forall l <- a :: l != "" && c !in l
    requires forall l <- b :: l != "" && c !in l
    requires Join(a, [c]) == Join(b, [c])
    ensures a == b
  {
    if a != [] {
      SplitOnJoin(a, c);
      JoinNotEmpty(a, c);
    }
    if b != [] {
      SplitOnJoin(b, c);
      JoinNotEmpty(b, c);
    }
  }

  // ---- the parts are the stretches between separators ----

  /** s[i..j] is a stretch without `c` that is bounded by `c` or by an end of the text. */
  ghost predicate Stretch(s: string, c: char, i: int, j: int) {
    && 0 <= i <= j <= |s| && c !in s[i..j]
    && (i == 0 || s[i - 1] == c) && (j == |s| || s[j] == c)
  }

  /** How far the first stretch reaches. */
  function Reach(s: string, c: char): (n: nat)
    ensures n <= |s| && Stretch(s, c, 0, n)
  {
    if s == "" || s[0] == c then 0
    else
      var n := 1 + Reach(s[1..], c);
      assert s[0..n] == [s[0]] + s[1..][0..n - 1];
      n
  }

  lemma OneReach(s: string, c: char, i: nat, j: nat, k: nat)
    requires Stretch(s, c, i, j) && Stretch(s, c, i, k)
    ensures j == k
  {
  }

  lemma StretchShift(s: string, c: char, i: nat, j: nat)
    requires s != "" && 1 <= i <= j <= |s|
    ensures i > 1 ==> (Stretch(s, c, i, j) <==> Stretch(s[1..], c, i - 1, j - 1))
    ensures s[0] == c ==> (Stretch(s, c, 1, j) <==> Stretch(s[1..], c, 0, j - 1))
  {
    assert s[1..][i - 1..j - 1] == s[i..j];
    assert s[1..][0..j - 1] == s[1..j];
  }

  ghost predicate LaterStretch(s: string, c: char, part: string) {
    exists i: int, j: int :: i > 0 && Stretch(s, c, i, j) && part == s[i..j]
  }

  lemma LaterShift(s: string, c: char, part: string)
    requires s != ""
    ensures s[0] != c ==> (LaterStretch(s, c, part) <==> LaterStretch(s[1..], c, part))
    ensures s[0] == c ==>
              (LaterStretch(s, c, part) <==> part == s[1..][..Reach(s[1..], c)] || LaterStretch(s[1..], c, part))
  {
    var t := s[1..];
    var n := Reach(t, c);
    if i: int, j: int :| i > 0 && Stretch(s, c, i, j) && part == s[i..j] {
      StretchShift(s, c, i, j);
      assert s[i..j] == t[i - 1..j - 1];
      if i == 1 && s[0] == c {
        OneReach(t, c, 0, j - 1, n);
      }
    }
    if i: int, j: int :| i > 0 && Stretch(t, c, i, j) && part == t[i..j] {
      StretchShift(s, c, i + 1, j + 1);
      assert t[i..j] == s[i + 1..j + 1];
    }
    if s[0] == c && part == t[..n] {
      StretchShift(s, c, 1, n + 1);
      assert t[..n] == s[1..n + 1];
    }
  }

  lemma {:induction false} SplitOnStretches(s: string, c: char, part: string)
    ensures SplitOn(s, c)[0] == s[..Reach(s, c)]
    ensures part in SplitOn(s, c)[1..] <==> LaterStretch(s, c, part)
  {
    if s != "" {
      var rest := SplitOn(s[1..], c);
      SplitOnStretches(s[1..], c, part);
      LaterShift(s, c, part);
      if s[0] == c {
        assert SplitOn(s, c)[1..] == rest && rest == [rest[0]] + rest[1..];
      } else {
        assert SplitOn(s, c)[1..] == rest[1..];
        assert [s[0]] + s[1..][..Reach(s[1..], c)] == s[..Reach(s, c)];
      }
    }
  }

  /** The parts of a text are exactly its stretches. */
  lemma PartsAreStretches(s: string, c: char, part: string)
    ensures part in SplitOn(s, c) <==> exists i: int, j: int :: Stretch(s, c, i, j) && part == s[i..j]
  {
    SplitOnStretches(s, c, part);
    var parts := SplitOn(s, c);
    assert parts == [parts[0]] + parts[1..];
    if i: int, j: int :| Stretch(s, c, i, j) && part == s[i..j] {
      if i == 0 {
        OneReach(s, c, 0, j, Reach(s, c));
      }
    }
    if part == parts[0] {
      assert part == s[0..Reach(s, c)];
    }
  }

  // ---- what trimming and searching mean ----

  /** Trimming takes blank text off both ends, and all of it. */
  lemma {:induction false} StripLeftSplits(s: string) returns (front: string)
    ensures s == front + StripLeft(s) && Blank(front)
    ensures StripLeft(s) == "" || !IsSpace(StripLeft(s)[0])
  {
    if s != "" && IsSpace(s[0]) {
      var rest := StripLeftSplits(s[1..]);
      front := [s[0]] + rest;
    } else {
      front := "";
    }
  }

  lemma {:induction false} StripRightSplits(s: string) returns (back: string)
    ensures s == StripRight(s) + back && Blank(back)
  {
    if s != "" && IsSpace(s[|s| - 1]) {
      var rest := StripRightSplits(s[..|s| - 1]);
      back := rest + [s[|s| - 1]];
      assert s == s[..|s| - 1] + [s[|s| - 1]];
    } else {
      back := "";
    }
  }

  lemma {:induction false} StripLeftAppend(a: string, b: string)
    requires !Blank(a)
    ensures StripLeft(a + b) == StripLeft(a) + b
  {
    assert a + b != "" && (a + b)[1..] == a[1..] + b;
    if IsSpace(a[0]) {
      assert a == [a[0]] + a[1..];
      StripLeftAppend(a[1..], b);
    }
  }

  lemma {:induction false} StripRightAppend(a: string, b: string)
    requires !Blank(b)
    ensures StripRight(a + b) == a + StripRight(b)
  {
    var n := |b| - 1;
    assert b == b[..n] + [b[n]];
    assert (a + b)[..|a + b| - 1] == a + b[..n] && (a + b)[|a + b| - 1] == b[n];
    if IsSpace(b[n]) {
      StripRightAppend(a, b[..n]);
    }
  }

  lemma StripPlain(s: string)
    requires Plain(s)
    ensures Plain(StripLeft(s)) && Plain(StripRight(s)) && Plain(Strip(s))
  {
    var front := StripLeftSplits(s);
    var back := StripRightSplits(s);
    var last := StripRightSplits(StripLeft(s));
    assert forall c <- StripLeft(s) :: c in s;
    assert forall c <- StripRight(s) :: c in s;
    assert forall c <- Strip(s) :: c in StripLeft(s);
  }

  /** The first part without its leading blanks. */
  function TrimFirst(ls: seq<string>): seq<string>
    requires ls != []
  {
    [StripLeft(ls[0])] + ls[1..]
  }

  /** The last part without its trailing blanks. */
  function TrimLast(ls: seq<string>): seq<string>
    requires ls != []
  {
    ls[..|ls| - 1] + [StripRight(ls[|ls| - 1])]
  }

  lemma StripLeftJoin(ls: seq<string>, sep: string)
    requires ls != [] && !Blank(ls[0])
    ensures StripLeft(Join(ls, sep)) == Join(TrimFirst(ls), sep)
  {
    if |ls| > 1 {
      StripLeftAppend(ls[0], sep + Join(ls[1..], sep));
      assert ls[0] + sep + Join(ls[1..], sep) == ls[0] + (sep + Join(ls[1..], sep));
      assert StripLeft(ls[0]) + sep + Join(ls[1..], sep) == StripLeft(ls[0]) + (sep + Join(ls[1..], sep));
      assert TrimFirst(ls)[1..] == ls[1..];
    }
  }

  lemma {:induction false} StripRightJoin(ls: seq<string>, sep: string)
    requires ls != [] && !Blank(ls[|ls| - 1])
    ensures StripRight(Join(ls, sep)) == Join(TrimLast(ls), sep)
    ensures !Blank(Join(ls, sep))
  {
    if |ls| > 1 {
      StripRightJoin(ls[1..], sep);
      StripRightAppend(ls[0] + sep, Join(ls[1..], sep));
      BlankAppend(ls[0] + sep, Join(ls[1..], sep));
      assert TrimLast(ls)[0] == ls[0] && TrimLast(ls)[1..] == TrimLast(ls[1..]);
    }
  }

  /** Searching finds a text that stands somewhere inside. */
  lemma {:induction false} ContainsMeans(s: string, t: string)
    ensures Contains(s, t) <==> exists front: string, back: string :: s == front + t + back
  {
    if t <= s {
      assert s == "" + t + s[|t|..];
    } else if s != "" {
      ContainsMeans(s[1..], t);
      if front: string, back: string :| s[1..] == front + t + back {
        assert s == ([s[0]] + front) + t + back;
      }
      if front: string, back: string :| s == front + t + back {
        assert front != "";
        assert s[1..] == front[1..] + t + back;
      }
    }
  }
}
