/**
 * The string handling the component applies to form fields: JavaScript's
 * String.prototype.trim, String.prototype.split with a one-character
 * separator, and the two parsing chains built from them (project tags and
 * experience points).
 */
module Text {

  /** The WhiteSpace and LineTerminator code points of ECMAScript: what trim removes. */
  predicate IsWhitespace(c: char) {
    || c == '\t' || c == '\n' || c == '\U{000B}' || c == '\U{000C}' || c == '\r' || c == ' '
    || c == '\U{00A0}' || c == '\U{1680}' || ('\U{2000}' <= c <= '\U{200A}')
    || c == '\U{2028}' || c == '\U{2029}' || c == '\U{202F}' || c == '\U{205F}'
    || c == '\U{3000}' || c == '\U{FEFF}'
  }

  /** Within ASCII, trim removes exactly tab, line feed, vertical tab, form feed, carriage return and space. */
  lemma AsciiWhitespace(c: char)
    requires c < '\U{0080}'
    ensures IsWhitespace(c) <==> c == '\t' || c == '\n' || c == '\U{000B}' || c == '\U{000C}' || c == '\r' || c == ' '
  {
  }

  predicate AllWhitespace(s: string) {
    forall i :: 0 <= i < |s| ==> IsWhitespace(s[i])
  }

  /** A string that neither starts nor ends with whitespace. */
  predicate IsTrimmed(s: string) {
    s == [] || (!IsWhitespace(s[0]) && !IsWhitespace(s[|s| - 1]))
  }

  /** The number of whitespace characters at the front of s. */
  function LeadingWhitespace(s: string): (n: nat)
    ensures n <= |s|
    ensures forall i :: 0 <= i < n ==> IsWhitespace(s[i])
    ensures n < |s| ==> !IsWhitespace(s[n])
  {
    if s == [] || !IsWhitespace(s[0]) then 0 else 1 + LeadingWhitespace(s[1..])
  }

  /** The number of whitespace characters at the back of s. */
  function TrailingWhitespace(s: string): (n: nat)
    ensures n <= |s|
    ensures forall i :: |s| - n <= i < |s| ==> IsWhitespace(s[i])
    ensures n < |s| ==> !IsWhitespace(s[|s| - 1 - n])
  {
    if s == [] || !IsWhitespace(s[|s| - 1]) then 0 else 1 + TrailingWhitespace(s[..|s| - 1])
  }

  /**
   * String.prototype.trim: the slice of s left once the whitespace at both
   * ends is gone. What is cut off is whitespace and what is kept is trimmed,
   * so the slice is the maximal one.
   */
  function Trim(s: string): (r: string)
    ensures IsTrimmed(r)
    ensures LeadingWhitespace(s) + |r| <= |s|
    ensures r == s[LeadingWhitespace(s)..LeadingWhitespace(s) + |r|]
    ensures AllWhitespace(s[LeadingWhitespace(s) + |r|..])
  {
    var lead := LeadingWhitespace(s);
    if lead == |s| then [] else s[lead..|s| - TrailingWhitespace(s)]
  }

  /** Trim changes a string exactly when the string has whitespace at one of its ends. */
  lemma TrimFixesExactlyTrimmed(s: string)
    ensures Trim(s) == s <==> IsTrimmed(s)
  {
    if IsTrimmed(s) && s != [] {
      assert LeadingWhitespace(s) == 0;
      assert TrailingWhitespace(s) == 0;
    }
  }

  /** Trim undoes padding: surrounding a non-empty trimmed string with whitespace and trimming gives it back. */
  lemma TrimUnpads(pre: string, core: string, post: string)
    requires AllWhitespace(pre) && AllWhitespace(post)
    requires core != [] && IsTrimmed(core)
    ensures Trim(pre + core + post) == core
  {
    var s := pre + core + post;
    var lead, trail := LeadingWhitespace(s), TrailingWhitespace(s);
    assert s[|pre|..|s| - |post|] == core;
  }

  /** Trim is idempotent. */
  lemma TrimIdempotent(s: string)
    ensures Trim(Trim(s)) == Trim(s)
  {
    TrimFixesExactlyTrimmed(Trim(s));
  }

  /** Trimming never introduces a character that was not in the input. */
  lemma TrimKeepsAbsent(s: string, c: char)
    requires c !in s
    ensures c !in Trim(s)
  {
  }

  /** The position of the first occurrence of c in s. */
  function IndexOf(s: string, c: char): (i: nat)
    requires c in s
    ensures i < |s| && s[i] == c && c !in s[..i]
  {
    if s[0] == c then 0
    else
      assert s == [s[0]] + s[1..];
      var j := IndexOf(s[1..], c);
      assert s[..j + 1] == [s[0]] + s[1..][..j];
      j + 1
  }

  /** The first occurrence is the one no earlier occurrence precedes. */
  lemma IndexOfIsFirst(s: string, c: char, i: nat)
    requires i < |s| && s[i] == c && c !in s[..i]
    ensures IndexOf(s, c) == i
  {
  }

  /**
   * String.prototype.split with a one-character separator: the text before
   * the first separator, then the pieces of the text after it; a string
   * without the separator is a single piece. Empty pieces are kept.
   */
  function Split(s: string, sep: char): (pieces: seq<string>)
    ensures |pieces| >= 1
    decreases |s|
  {
    if sep !in s then [s]
    else
      var i := IndexOf(s, sep);
      [s[..i]] + Split(s[i + 1..], sep)
  }

  /** A string is the text before position i, the character there, and the text after it. */
  lemma AroundIndex(s: string, i: nat)
    requires i < |s|
    ensures s == s[..i] + [s[i]] + s[i + 1..]
  {
  }

  /** Cutting at the first separator removes exactly one separator from the count. */
  lemma CountAtFirst(s: string, sep: char, i: nat)
    requires i < |s| && s[i] == sep && sep !in s[..i]
    ensures multiset(s)[sep] == multiset(s[i + 1..])[sep] + 1
  {
    AroundIndex(s, i);
    assert multiset(s) == multiset(s[..i]) + multiset([sep]) + multiset(s[i + 1..]);
  }

  /** A split has one more piece than the string has separators, and no piece holds a separator. */
  lemma {:induction false} SplitPieces(s: string, sep: char)
    ensures |Split(s, sep)| == multiset(s)[sep] + 1
    ensures forall k :: 0 <= k < |Split(s, sep)| ==> sep !in Split(s, sep)[k]
    decreases |s|
  {
    if sep !in s {
      assert multiset(s)[sep] == 0;
    } else {
      var i := IndexOf(s, sep);
      SplitPieces(s[i + 1..], sep);
      CountAtFirst(s, sep, i);
    }
  }

  /** Array.prototype.join with a one-character separator. */
  function Join(pieces: seq<string>, sep: char): (s: string)
    ensures |pieces| >= 1 ==> |s| >= |pieces[0]| + |pieces| - 1
  {
    if |pieces| == 0 then []
    else if |pieces| == 1 then pieces[0]
    else pieces[0] + [sep] + Join(pieces[1..], sep)
  }

  /** The joined text starts with the first piece, followed by a separator when more pieces come. */
  lemma JoinStartsWithFirst(pieces: seq<string>, sep: char)
    requires |pieces| >= 1
    ensures pieces[0] <= Join(pieces, sep)
    ensures |pieces| >= 2 ==> pieces[0] + [sep] <= Join(pieces, sep)
  {
    if |pieces| >= 2 {
      assert Join(pieces, sep) == pieces[0] + [sep] + Join(pieces[1..], sep);
    }
  }

  /** Joining a piece in front of at least one more puts a separator between them. */
  lemma JoinCons(piece: string, rest: seq<string>, sep: char)
    requires |rest| >= 1
    ensures Join([piece] + rest, sep) == piece + [sep] + Join(rest, sep)
  {
    assert ([piece] + rest)[1..] == rest;
  }

  /** Joining the pieces of a split with the same separator gives back the original string. */
  lemma {:induction false} JoinSplit(s: string, sep: char)
    ensures Join(Split(s, sep), sep) == s
    decreases |s|
  {
    if sep in s {
      var i := IndexOf(s, sep);
      JoinSplit(s[i + 1..], sep);
      JoinCons(s[..i], Split(s[i + 1..], sep), sep);
      AroundIndex(s, i);
    }
  }

  /** A string without the separator splits into itself alone. */
  lemma SplitWithoutSeparator(s: string, sep: char)
    requires sep !in s
    ensures Split(s, sep) == [s]
  {
  }

  /** Whatever position the first separator sits at, split cuts there. */
  lemma SplitAtFirst(s: string, sep: char, i: nat)
    requires i < |s| && s[i] == sep && sep !in s[..i]
    ensures Split(s, sep) == [s[..i]] + Split(s[i + 1..], sep)
  {
    IndexOfIsFirst(s, sep, i);
  }

  /** A separator after a separator-free string cuts right behind that string. */
  lemma SplitAfterPiece(a: string, b: string, sep: char)
    requires sep !in a
    ensures Split(a + [sep] + b, sep) == [a] + Split(b, sep)
  {
    var s := a + [sep] + b;
    assert s[..|a|] == a && s[|a| + 1..] == b;
    SplitAtFirst(s, sep, |a|);
  }

  /** The step of the distribution proof: cutting a + sep + b at a's first separator. */
  lemma SplitAtSeparatorStep(a: string, b: string, sep: char, i: nat)
    requires i < |a| && a[i] == sep && sep !in a[..i]
    requires Split(a[i + 1..] + [sep] + b, sep) == Split(a[i + 1..], sep) + Split(b, sep)
    ensures Split(a + [sep] + b, sep) == Split(a, sep) + Split(b, sep)
  {
    var s := a + [sep] + b;
    SlicesOfJoined(a, b, sep, i);
    SplitAtFirst(s, sep, i);
    SplitAtFirst(a, sep, i);
    AppendAssoc([a[..i]], Split(a[i + 1..], sep), Split(b, sep));
  }

  lemma SlicesOfJoined(a: string, b: string, sep: char, i: nat)
    requires i < |a|
    ensures (a + [sep] + b)[..i] == a[..i]
    ensures (a + [sep] + b)[i + 1..] == a[i + 1..] + [sep] + b
  {
  }

  lemma AppendAssoc<T>(x: seq<T>, y: seq<T>, z: seq<T>)
    ensures x + (y + z) == (x + y) + z
  {
  }

  /** Splitting distributes over a separator: the pieces of a + sep + b are those of a, then those of b. */
  lemma {:induction false} SplitAtSeparator(a: string, b: string, sep: char)
    ensures Split(a + [sep] + b, sep) == Split(a, sep) + Split(b, sep)
    decreases |a|
  {
    if sep !in a {
      SplitAfterPiece(a, b, sep);
    } else {
      var i := IndexOf(a, sep);
      SplitAtSeparator(a[i + 1..], b, sep);
      SplitAtSeparatorStep(a, b, sep, i);
    }
  }

  /** Splitting undoes joining, provided no piece holds the separator. */
  lemma {:induction false} SplitJoin(pieces: seq<string>, sep: char)
    requires |pieces| >= 1
    requires forall i :: 0 <= i < |pieces| ==> sep !in pieces[i]
    ensures Split(Join(pieces, sep), sep) == pieces
  {
    if |pieces| == 1 {
      SplitWithoutSeparator(pieces[0], sep);
    } else {
      SplitJoin(pieces[1..], sep);
      SplitAtSeparator(pieces[0], Join(pieces[1..], sep), sep);
      SplitWithoutSeparator(pieces[0], sep);
      assert [pieces[0]] + pieces[1..] == pieces;
    }
  }

  /** Array.prototype.map: f applied to every element, in order. */
  function Map<A, B>(f: A -> B, xs: seq<A>): (r: seq<B>)
    ensures |r| == |xs|
    ensures forall i :: 0 <= i < |xs| ==> r[i] == f(xs[i])
  {
    if xs == [] then [] else [f(xs[0])] + Map(f, xs[1..])
  }

  /** Mapping distributes over concatenation. */
  lemma MapAppend<A, B>(f: A -> B, xs: seq<A>, ys: seq<A>)
    ensures Map(f, xs + ys) == Map(f, xs) + Map(f, ys)
  {
    var left, right := Map(f, xs), Map(f, ys);
    var whole, parts := Map(f, xs + ys), left + right;
    assert |whole| == |parts|;
    forall i | 0 <= i < |whole| ensures whole[i] == parts[i] {
      if i < |xs| {
        assert whole[i] == f(xs[i]) == left[i];
      } else {
        assert whole[i] == f(ys[i - |xs|]) == right[i - |xs|];
      }
    }
  }

  /** `.filter(s => s)`: keeps the non-empty (truthy) strings, in order. */
  function NonEmpty(xs: seq<string>): (r: seq<string>)
    ensures |r| <= |xs|
    ensures forall i :: 0 <= i < |r| ==> r[i] != [] && r[i] in xs
  {
    if xs == [] then []
    else (if xs[0] == [] then [] else [xs[0]]) + NonEmpty(xs[1..])
  }

  /** Filtering distributes over concatenation, so it keeps the input's order. */
  lemma {:induction false} NonEmptyAppend(xs: seq<string>, ys: seq<string>)
    ensures NonEmpty(xs + ys) == NonEmpty(xs) + NonEmpty(ys)
  {
    if xs != [] {
      NonEmptyAppend(xs[1..], ys);
      assert (xs + ys)[1..] == xs[1..] + ys;
    } else {
      assert xs + ys == ys;
    }
  }

  /** Filtering a list without empty strings keeps all of it. */
  lemma {:induction false} NonEmptyKeepsAll(xs: seq<string>)
    requires forall i :: 0 <= i < |xs| ==> xs[i] != []
    ensures NonEmpty(xs) == xs
  {
    if xs != [] {
      NonEmptyKeepsAll(xs[1..]);
    }
  }

  /**
   * The tags of a new project: `tags.split(',').map(tag => tag.trim())`.
   * One tag per comma-separated piece, empty pieces kept, each trimmed.
   */
  function ParseTags(field: string): (tags: seq<string>)
    ensures |tags| == |Split(field, ',')| == multiset(field)[','] + 1
    ensures forall i :: 0 <= i < |tags| ==> tags[i] == Trim(Split(field, ',')[i])
    ensures forall i :: 0 <= i < |tags| ==> IsTrimmed(tags[i]) && ',' !in tags[i]
  {
    var pieces := Split(field, ',');
    var tags := Map(Trim, pieces);
    SplitPieces(field, ',');
    assert forall i :: 0 <= i < |tags| ==> ',' !in tags[i] by {
      forall i | 0 <= i < |tags| ensures ',' !in tags[i] {
        TrimKeepsAbsent(pieces[i], ',');
      }
    }
    tags
  }

  /** Writing trimmed, comma-free tags as a comma-separated list and parsing it gives the same tags back. */
  lemma TagsRoundTrip(tags: seq<string>)
    requires |tags| >= 1
    requires forall i :: 0 <= i < |tags| ==> IsTrimmed(tags[i]) && ',' !in tags[i]
    ensures ParseTags(Join(tags, ',')) == tags
  {
    SplitJoin(tags, ',');
    forall i | 0 <= i < |tags| ensures Trim(tags[i]) == tags[i] {
      TrimFixesExactlyTrimmed(tags[i]);
    }
  }

  /**
   * The points of a new experience:
   * `points.split('\n').map(p => p.trim()).filter(p => p)`.
   * Every point is non-empty, trimmed and a single line.
   */
  function ParsePoints(field: string): (points: seq<string>)
    ensures forall i :: 0 <= i < |points| ==> points[i] != [] && IsTrimmed(points[i]) && '\n' !in points[i]
  {
    var lines := Split(field, '\n');
    var trimmed := Map(Trim, lines);
    SplitPieces(field, '\n');
    forall i | 0 <= i < |trimmed| ensures IsTrimmed(trimmed[i]) && '\n' !in trimmed[i] {
      TrimKeepsAbsent(lines[i], '\n');
    }
    NonEmpty(trimmed)
  }

  lemma TagsExampleJoined()
    ensures Join(["Python", "  SQL ", "  Power BI"], ',') == "Python,  SQL ,  Power BI"
  {
    var pieces := ["Python", "  SQL ", "  Power BI"];
    assert Join(pieces[2..], ',') == "  Power BI";
    assert Join(pieces[1..], ',') == "  SQL " + [','] + "  Power BI";
  }

  lemma TrimSqlExample()
    ensures Trim("  SQL ") == "SQL"
  {
    assert "  SQL " == "  " + "SQL" + " ";
    TrimUnpads("  ", "SQL", " ");
  }

  lemma TrimPowerBiExample()
    ensures Trim("  Power BI") == "Power BI"
  {
    assert "  Power BI" == "  " + "Power BI" + "";
    TrimUnpads("  ", "Power BI", "");
  }

  lemma TagsExampleSplit()
    ensures Split("Python,  SQL ,  Power BI", ',') == ["Python", "  SQL ", "  Power BI"]
  {
    TagsExampleJoined();
    SplitJoin(["Python", "  SQL ", "  Power BI"], ',');
  }

  lemma TagsExampleTrimmed()
    ensures Map(Trim, ["Python", "  SQL ", "  Power BI"]) == ["Python", "SQL", "Power BI"]
  {
    TrimFixesExactlyTrimmed("Python");
    TrimSqlExample();
    TrimPowerBiExample();
  }

  /** Whitespace around the tags is dropped: "Python,  SQL ,  Power BI" gives exactly three clean tags. */
  lemma TagsExample()
    ensures ParseTags("Python,  SQL ,  Power BI") == ["Python", "SQL", "Power BI"]
  {
    TagsExampleSplit();
    TagsExampleTrimmed();
  }

  /** The points of two blocks of lines are those of the first block followed by those of the second. */
  lemma PointsOfTwoBlocks(a: string, b: string)
    ensures ParsePoints(a + "\n" + b) == ParsePoints(a) + ParsePoints(b)
  {
    assert a + "\n" + b == a + ['\n'] + b;
    SplitAtSeparator(a, b, '\n');
    var la, lb := Split(a, '\n'), Split(b, '\n');
    MapAppend(Trim, la, lb);
    NonEmptyAppend(Map(Trim, la), Map(Trim, lb));
  }

  lemma PointsExampleJoined()
    ensures Join(["SQL", "", "  Python  "], '\n') == "SQL\n\n  Python  "
  {
    var pieces := ["SQL", "", "  Python  "];
    assert Join(pieces[2..], '\n') == "  Python  ";
    assert Join(pieces[1..], '\n') == "" + ['\n'] + "  Python  ";
  }

  lemma TrimSqlPlain()
    ensures Trim("SQL") == "SQL"
  {
    TrimFixesExactlyTrimmed("SQL");
  }

  lemma TrimPythonExample()
    ensures Trim("  Python  ") == "Python"
  {
    assert "  Python  " == "  " + "Python" + "  ";
    TrimUnpads("  ", "Python", "  ");
  }

  /** Trimming each line of the points example. */
  lemma PointsExampleTrimmed()
    ensures Map(Trim, ["SQL", "", "  Python  "]) == ["SQL", "", "Python"]
  {
    TrimSqlPlain();
    TrimPythonExample();
    var pieces: seq<string> := ["SQL", "", "  Python  "];
    var trimmed := Map(Trim, pieces);
    assert trimmed[1] == [];
  }

  lemma PointsExampleSplit()
    ensures Split("SQL\n\n  Python  ", '\n') == ["SQL", "", "  Python  "]
  {
    PointsExampleJoined();
    SplitJoin(["SQL", "", "  Python  "], '\n');
  }

  lemma PointsExampleFiltered()
    ensures NonEmpty(["SQL", "", "Python"]) == ["SQL", "Python"]
  {
    var trimmed: seq<string> := ["SQL", "", "Python"];
    assert NonEmpty(trimmed[2..]) == ["Python"];
    assert NonEmpty(trimmed[1..]) == ["Python"];
  }

  /** Blank lines and surrounding spaces are dropped: "SQL\n\n  Python  " gives the points "SQL" and "Python". */
  lemma PointsExample()
    ensures ParsePoints("SQL\n\n  Python  ") == ["SQL", "Python"]
  {
    PointsExampleSplit();
    PointsExampleTrimmed();
    PointsExampleFiltered();
  }

  /** An empty field yields no points (its single empty line is dropped). */
  lemma NoPointsInEmptyField()
    ensures ParsePoints([]) == []
  {
    var lines := Split([], '\n');
    assert lines == [[]];
    assert Map(Trim, lines) == [[]] by {
      assert Trim(lines[0]) == [];
    }
    assert NonEmpty([[]]) == [];
  }

  /** Trimming a list of trimmed strings changes none of them. */
  lemma TrimAllTrimmed(xs: seq<string>)
    requires forall i :: 0 <= i < |xs| ==> IsTrimmed(xs[i])
    ensures Map(Trim, xs) == xs
  {
    forall i | 0 <= i < |xs| ensures Trim(xs[i]) == xs[i] {
      TrimFixesExactlyTrimmed(xs[i]);
    }
  }

  /** Writing non-empty, trimmed, single-line points one per line and parsing them gives the same points back. */
  lemma PointsRoundTrip(points: seq<string>)
    requires forall i :: 0 <= i < |points| ==> points[i] != [] && IsTrimmed(points[i]) && '\n' !in points[i]
    ensures ParsePoints(Join(points, '\n')) == points
  {
    if points == [] {
      NoPointsInEmptyField();
    } else {
      SplitJoin(points, '\n');
      TrimAllTrimmed(points);
      NonEmptyKeepsAll(points);
    }
  }
}
