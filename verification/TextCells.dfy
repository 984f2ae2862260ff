/**
 * Text helpers the scripts share: collapsing white space as `clean` does, joining and splitting cells.
 */
module TextCells {
  /** The characters Python's `\s` and `str.strip` treat as white space. */
  predicate IsSpace(c: char) {
    var n := c as int;
    9 <= n <= 13 || 28 <= n <= 32 || n in {0x85, 0xA0, 0x1680, 0x2028, 0x2029, 0x202F, 0x205F, 0x3000}
    || 0x2000 <= n <= 0x200A
  }

  /** Every run of white space becomes one blank. */
  function Squeeze(s: string): string {
    if s == [] then []
    else if !IsSpace(s[0]) then [s[0]] + Squeeze(s[1..])
    else if |s| > 1 && IsSpace(s[1]) then Squeeze(s[1..])
    else [' '] + Squeeze(s[1..])
  }

  function StripLeft(s: string): string {
    if s != [] && IsSpace(s[0]) then StripLeft(s[1..]) else s
  }

  function StripRight(s: string): string {
    if s != [] && IsSpace(s[|s| - 1]) then StripRight(s[..|s| - 1]) else s
  }

  function Strip(s: string): string {
    StripRight(StripLeft(s))
  }

  function Clean(s: string): string {
    Strip(Squeeze(s))
  }

  /** Only single blanks, and none at either end of the text. */
  predicate Single(s: string) {
    && (forall i :: 0 <= i < |s| && IsSpace(s[i]) ==> s[i] == ' ')
    && forall i :: 0 <= i < |s| - 1 ==> !(IsSpace(s[i]) && IsSpace(s[i + 1]))
  }

  predicate Neat(s: string) {
    Single(s) && (s != [] ==> !IsSpace(s[0]) && !IsSpace(s[|s| - 1]))
  }

  lemma {:induction false} SqueezeIsSingle(s: string)
    ensures Single(Squeeze(s))
    ensures s != [] && Squeeze(s) != [] ==> (IsSpace(Squeeze(s)[0]) <==> IsSpace(s[0]))
    ensures s != [] ==> Squeeze(s) != []
  {
    if s != [] {
      SqueezeIsSingle(s[1..]);
      assert |s| > 1 ==> s[1..][0] == s[1];
    }
  }

  lemma {:induction false} StripLeftIsSuffix(s: string)
    ensures exists k :: 0 <= k <= |s| && StripLeft(s) == s[k..]
    ensures StripLeft(s) != [] ==> !IsSpace(StripLeft(s)[0])
  {
    if s != [] && IsSpace(s[0]) {
      StripLeftIsSuffix(s[1..]);
      var k :| 0 <= k <= |s[1..]| && StripLeft(s[1..]) == s[1..][k..];
      assert s[1..][k..] == s[k + 1..];
    } else {
      assert s == s[0..];
    }
  }

  lemma {:induction false} StripRightIsPrefix(s: string)
    ensures exists k :: 0 <= k <= |s| && StripRight(s) == s[..k]
    ensures StripRight(s) != [] ==> !IsSpace(StripRight(s)[|StripRight(s)| - 1])
  {
    if s != [] && IsSpace(s[|s| - 1]) {
      var init := s[..|s| - 1];
      StripRightIsPrefix(init);
      var k :| 0 <= k <= |init| && StripRight(init) == init[..k];
      assert init[..k] == s[..k];
    } else {
      assert s == s[..|s|];
    }
  }

  lemma PartIsSingle(s: string, i: nat, j: nat)
    requires Single(s) && i <= j <= |s|
    ensures Single(s[i..j])
  {
    forall k | 0 <= k < j - i ensures s[i..j][k] == s[i + k] {
    }
  }

  lemma StripKeepsSingle(s: string)
    requires Single(s)
    ensures Single(StripLeft(s)) && Single(StripRight(s))
  {
    StripLeftIsSuffix(s);
    var i :| 0 <= i <= |s| && StripLeft(s) == s[i..];
    PartIsSingle(s, i, |s|);
    assert s[i..|s|] == s[i..];
    StripRightIsPrefix(s);
    var j :| 0 <= j <= |s| && StripRight(s) == s[..j];
    PartIsSingle(s, 0, j);
    assert s[0..j] == s[..j];
  }

  lemma StripRightKeepsHead(s: string)
    requires s != [] ==> !IsSpace(s[0])
    ensures StripRight(s) != [] ==> !IsSpace(StripRight(s)[0])
  {
    StripRightIsPrefix(s);
  }

  lemma CleanIsNeat(s: string)
    ensures Neat(Clean(s))
  {
    var left := StripLeft(Squeeze(s));
    SqueezeIsSingle(s);
    StripKeepsSingle(Squeeze(s));
    StripKeepsSingle(left);
    StripLeftIsSuffix(Squeeze(s));
    StripRightIsPrefix(left);
    StripRightKeepsHead(left);
  }

  lemma {:induction false} SqueezeKeepsSingle(s: string)
    requires Single(s)
    ensures Squeeze(s) == s
  {
    if s != [] {
      assert Single(s[1..]) by {
        forall i | 0 <= i < |s| - 2 ensures !(IsSpace(s[1..][i]) && IsSpace(s[1..][i + 1])) {
          assert s[1..][i] == s[i + 1] && s[1..][i + 1] == s[i + 2];
        }
      }
      SqueezeKeepsSingle(s[1..]);
      assert IsSpace(s[0]) && |s| > 1 ==> !IsSpace(s[0 + 1]);
    }
  }

  /** Cleaning leaves exactly the neat texts alone. */
  lemma CleanKeepsExactlyNeat(s: string)
    ensures Clean(s) == s <==> Neat(s)
  {
    CleanIsNeat(s);
    if Neat(s) {
      SqueezeKeepsSingle(s);
    }
  }

  /** The runs of characters between white space. */
  function WordsOf(s: string): seq<string> {
    if s == [] then []
    else if IsSpace(s[0]) then WordsOf(s[1..])
    else Extended(s[0], |s| > 1 && !IsSpace(s[1]), WordsOf(s[1..]))
  }

  /** One more character in front: of the first word, or as a word of its own. */
  function Extended(c: char, joined: bool, words: seq<string>): seq<string> {
    if joined && words != [] then [[c] + words[0]] + words[1..] else [[c]] + words
  }

  lemma {:induction false} SqueezeKeepsWords(s: string)
    ensures WordsOf(Squeeze(s)) == WordsOf(s)
    ensures s != [] ==> Squeeze(s) != [] && (IsSpace(Squeeze(s)[0]) <==> IsSpace(s[0]))
  {
    if s != [] {
      var rest := s[1..];
      SqueezeKeepsWords(rest);
      if !IsSpace(s[0]) {
        var q := [s[0]] + Squeeze(rest);
        assert q[1..] == Squeeze(rest) && (|q| > 1 <==> |s| > 1);
        assert |s| > 1 ==> s[1] == rest[0] && q[1] == Squeeze(rest)[0];
      } else {
        assert ([' '] + Squeeze(rest))[1..] == Squeeze(rest);
      }
    }
  }

  lemma {:induction false} StripLeftKeepsWords(s: string)
    ensures WordsOf(StripLeft(s)) == WordsOf(s)
  {
    if s != [] && IsSpace(s[0]) { StripLeftKeepsWords(s[1..]); }
  }

  lemma {:induction false} BlankBehind(s: string, c: char)
    requires IsSpace(c)
    ensures WordsOf(s + [c]) == WordsOf(s)
  {
    if s == [] {
      assert (s + [c])[1..] == [];
    } else {
      BlankBehind(s[1..], c);
      assert (s + [c])[1..] == s[1..] + [c];
    }
  }

  lemma {:induction false} StripRightKeepsWords(s: string)
    ensures WordsOf(StripRight(s)) == WordsOf(s)
  {
    if s != [] && IsSpace(s[|s| - 1]) {
      StripRightKeepsWords(s[..|s| - 1]);
      BlankBehind(s[..|s| - 1], s[|s| - 1]);
      assert s == s[..|s| - 1] + [s[|s| - 1]];
    }
  }

  /** Cleaning and stripping change no word, and join or split none. */
  lemma CleanKeepsWords(s: string)
    ensures WordsOf(Clean(s)) == WordsOf(s) && WordsOf(Strip(s)) == WordsOf(s)
  {
    SqueezeKeepsWords(s);
    StripLeftKeepsWords(Squeeze(s));
    StripRightKeepsWords(StripLeft(Squeeze(s)));
    StripLeftKeepsWords(s);
    StripRightKeepsWords(StripLeft(s));
  }

  /** Stripping takes away white space at the two ends, all of it, and nothing inside. */
  lemma StripIsExact(s: string) returns (i: nat, j: nat)
    ensures i <= j <= |s| && Strip(s) == s[i..j]
    ensures Strip(s) != [] ==> !IsSpace(s[i]) && !IsSpace(s[j - 1])
    ensures (forall c :: c in s[..i] ==> IsSpace(c)) && forall c :: c in s[j..] ==> IsSpace(c)
  {
    i := LeftEnd(s);
    var left := StripLeft(s);
    var k := RightEnd(left);
    j := i + k;
    assert left == s[i..] && s[i..][..k] == s[i..j];
    forall c | c in s[j..] ensures IsSpace(c) {
      assert s[j..] == left[k..];
    }
    StripLeftIsSuffix(s);
    StripRightKeepsHead(left);
    StripRightIsPrefix(left);
  }

  lemma {:induction false} LeftEnd(s: string) returns (i: nat)
    ensures i <= |s| && StripLeft(s) == s[i..] && forall c :: c in s[..i] ==> IsSpace(c)
  {
    i := 0;
    if s != [] && IsSpace(s[0]) {
      var k := LeftEnd(s[1..]);
      i := k + 1;
      assert s[1..][k..] == s[i..] && s[..i] == [s[0]] + s[1..][..k];
    }
  }

  lemma {:induction false} RightEnd(s: string) returns (k: nat)
    ensures k <= |s| && StripRight(s) == s[..k] && forall c :: c in s[k..] ==> IsSpace(c)
  {
    k := |s|;
    if s != [] && IsSpace(s[|s| - 1]) {
      var init := s[..|s| - 1];
      k := RightEnd(init);
      assert init[..k] == s[..k] && s[k..] == init[k..] + [s[|s| - 1]];
    }
  }

  /** `sep.join`. */
  function Join(parts: seq<string>, sep: string): string {
    if parts == [] then "" else if |parts| == 1 then parts[0] else parts[0] + sep + Join(parts[1..], sep)
  }

  function Split(s: string, sep: char): (r: seq<string>)
    ensures |r| >= 1
  {
    if s == [] then [[]]
    else
      var r := Split(s[1..], sep);
      if s[0] == sep then [[]] + r else [[s[0]] + r[0]] + r[1..]
  }

  function NonEmpty(parts: seq<string>): seq<string> {
    if parts == [] then [] else if parts[0] == [] then NonEmpty(parts[1..]) else [parts[0]] + NonEmpty(parts[1..])
  }

  lemma {:induction false} SplitAfter(head: string, rest: string, sep: char)
    requires sep !in head
    ensures Split(head + [sep] + rest, sep) == [head] + Split(rest, sep)
  {
    var s := head + [sep] + rest;
    if head == [] {
      assert s[1..] == rest;
    } else {
      assert s[1..] == head[1..] + [sep] + rest;
      SplitAfter(head[1..], rest, sep);
      assert [head[0]] + head[1..] == head;
    }
  }

  lemma {:induction false} SplitWhole(s: string, sep: char)
    requires sep !in s
    ensures Split(s, sep) == [s]
  {
    if s != [] {
      SplitWhole(s[1..], sep);
      assert [s[0]] + s[1..] == s;
    }
  }

  lemma {:induction false} JoinSplit(s: string, sep: char)
    ensures Join(Split(s, sep), [sep]) == s
  {
    if s != [] {
      JoinSplit(s[1..], sep);
      assert s == [s[0]] + s[1..];
    }
  }

  lemma {:induction false} SplitJoin(parts: seq<string>, sep: char)
    requires parts != [] && forall p :: p in parts ==> sep !in p
    ensures Split(Join(parts, [sep]), sep) == parts
  {
    assert parts[0] in parts;
    if |parts| == 1 {
      SplitWhole(parts[0], sep);
    } else {
      SplitAfter(parts[0], Join(parts[1..], [sep]), sep);
      SplitJoin(parts[1..], sep);
    }
  }

  lemma {:induction false} NonEmptyKeeps(parts: seq<string>)
    requires forall p :: p in parts ==> p != []
    ensures NonEmpty(parts) == parts
  {
    if parts != [] {
      forall p | p in parts[1..] ensures p != [] {
        assert p in parts;
      }
      NonEmptyKeeps(parts[1..]);
      assert parts[0] in parts;
    }
  }

  lemma NeatAround(a: string, sep: char, b: string)
    requires Neat(a) && Neat(b) && b != [] && !IsSpace(sep) && a != []
    ensures Neat(a + [sep] + b)
  {
    var s := a + [sep] + b;
    assert |s| == |a| + 1 + |b|;
    forall i | 0 <= i < |s|
      ensures i < |a| ==> s[i] == a[i]
      ensures i == |a| ==> s[i] == sep
      ensures i > |a| ==> s[i] == b[i - |a| - 1]
    {
    }
  }

  lemma {:induction false} JoinIsNeat(parts: seq<string>, sep: char)
    requires !IsSpace(sep) && forall p :: p in parts ==> Neat(p) && p != []
    ensures Neat(Join(parts, [sep])) && (parts != [] ==> Join(parts, [sep]) != [])
  {
    if |parts| >= 1 {
      assert parts[0] in parts;
    }
    if |parts| > 1 {
      JoinIsNeat(parts[1..], sep);
      NeatAround(parts[0], sep, Join(parts[1..], [sep]));
    }
  }

  /** A cell of joined labels, cleaned and split again, gives the labels back. */
  lemma CellRoundTrip(parts: seq<string>, sep: char)
    requires !IsSpace(sep) && forall p :: p in parts ==> Neat(p) && p != [] && sep !in p
    ensures NonEmpty(Split(Clean(Join(parts, [sep])), sep)) == parts
  {
    JoinIsNeat(parts, sep);
    CleanKeepsExactlyNeat(Join(parts, [sep]));
    if parts != [] {
      SplitJoin(parts, sep);
      NonEmptyKeeps(parts);
    }
  }
}
