/** `underscore_to_camelcase` from the package's utility module. */
module Utils {
  import opened Text

  /** The piece one `_`-separated segment contributes: `x.capitalize() or "_"`. */
  function Piece(segment: string): string {
    var cap := Capitalize(segment);
    if cap == [] then "_" else cap
  }

  /** The list `words` before it is joined; without an initial capital the first word is lowered. */
  function Pieces(word: string, initialCapital: bool): (words: seq<string>)
    ensures |words| == |Split(word, '_')|
  {
    var segments := Split(word, '_');
    var capitalized := seq(|segments|, i requires 0 <= i < |segments| => Piece(segments[i]));
    if initialCapital then capitalized else capitalized[0 := Lower(capitalized[0])]
  }

  /** `underscore_to_camelcase(word, initial_capital)`. */
  function UnderscoreToCamelcase(word: string, initialCapital: bool): (r: string)
    ensures |r| >= Count(word, '_') + 1
  {
    var words := Pieces(word, initialCapital);
    SplitCount(word, '_');
    PiecesNonEmpty(word, initialCapital);
    JoinLength(words);
    Join(words, "")
  }

  /** Number of empty segments. */
  function EmptySegments(segments: seq<string>): nat {
    if segments == [] then 0
    else (if segments[0] == "" then 1 else 0) + EmptySegments(segments[1..])
  }

  /**
   * One piece per segment; a non-empty segment becomes capitalized (lower-cased entirely when it is
   * the first and no initial capital is asked for), an empty one becomes `_`.
   */
  lemma PiecesShape(word: string, initialCapital: bool, i: nat)
    requires i < |Split(word, '_')|
    ensures |Pieces(word, initialCapital)| == Count(word, '_') + 1
    ensures var segment := Split(word, '_')[i];
      var piece := Pieces(word, initialCapital)[i];
      && (segment == "" ==> piece == "_")
      && (segment != "" && (i > 0 || initialCapital) ==>
            piece == [UpperChar(segment[0])] + Lower(segment[1..]))
      && (segment != "" && i == 0 && !initialCapital ==> piece == Lower(segment))
  {
    SplitCount(word, '_');
    var segment := Split(word, '_')[i];
    if segment != "" && i == 0 && !initialCapital {
      LowerCapitalize(segment);
    }
  }

  /** The empty word becomes `_`. */
  lemma EmptyWord(initialCapital: bool)
    ensures UnderscoreToCamelcase("", initialCapital) == "_"
  {
    assert Split("", '_') == [""];
  }

  /** A non-empty word without underscores is just lowered when no initial capital is asked for. */
  lemma NoUnderscore(word: string)
    requires word != [] && '_' !in word
    ensures UnderscoreToCamelcase(word, false) == Lower(word)
  {
    SplitCount(word, '_');
    CountZero(word, '_');
    SplitLast(word, '_');
    assert Split(word, '_') == [word];
    LowerCapitalize(word);
  }

  /** Every `_` in the result stands for one empty segment of the input. */
  lemma UnderscoreCount(word: string, initialCapital: bool)
    ensures Count(UnderscoreToCamelcase(word, initialCapital), '_') == EmptySegments(Split(word, '_'))
  {
    var segments := Split(word, '_');
    var words := Pieces(word, initialCapital);
    SplitCount(word, '_');
    forall i | 0 <= i < |words|
      ensures Count(words[i], '_') == if segments[i] == "" then 1 else 0
    {
      var cap := Capitalize(segments[i]);
      assert '_' !in segments[i];
      if segments[i] != "" {
        CountAppend([UpperChar(segments[i][0])], Lower(segments[i][1..]), '_');
        assert '_' !in segments[i][1..];
        CountZero(segments[i][1..], '_');
        CountLower(segments[i][1..]);
        assert Count(cap, '_') == 0;
        CountLower(cap);
      } else {
        assert Lower("_") == "_";
      }
    }
    JoinCount(words);
    SumCounts(words, segments);
  }

  lemma LowerCapitalize(s: string)
    requires s != []
    ensures Lower(Capitalize(s)) == Lower(s)
  {
    var cap := Capitalize(s);
    assert |cap| == |s|;
    forall i | 0 <= i < |s| ensures Lower(cap)[i] == Lower(s)[i] {
      if i > 0 { assert cap[i] == LowerChar(s[i]); }
    }
  }

  lemma PiecesNonEmpty(word: string, initialCapital: bool)
    ensures forall i :: 0 <= i < |Pieces(word, initialCapital)| ==> Pieces(word, initialCapital)[i] != []
  {
  }

  lemma {:induction false} JoinLength(words: seq<string>)
    requires forall i :: 0 <= i < |words| ==> words[i] != []
    ensures |Join(words, "")| >= |words|
  {
    if |words| > 1 {
      JoinLength(words[1..]);
    }
  }

  lemma {:induction false} CountAppend(a: string, b: string, c: char)
    ensures Count(a + b, c) == Count(a, c) + Count(b, c)
  {
    if a != [] {
      assert (a + b)[1..] == a[1..] + b;
      CountAppend(a[1..], b, c);
    } else {
      assert a + b == b;
    }
  }

  lemma {:induction false} CountLower(s: string)
    ensures Count(Lower(s), '_') == Count(s, '_')
  {
    if s != [] {
      assert Lower(s) == [LowerChar(s[0])] + Lower(s[1..]);
      CountAppend([LowerChar(s[0])], Lower(s[1..]), '_');
      CountLower(s[1..]);
    }
  }

  function TotalCount(words: seq<string>): nat {
    if words == [] then 0 else Count(words[0], '_') + TotalCount(words[1..])
  }

  lemma {:induction false} JoinCount(words: seq<string>)
    ensures Count(Join(words, ""), '_') == TotalCount(words)
  {
    if |words| == 1 {
    } else if |words| > 1 {
      JoinCount(words[1..]);
      CountAppend(words[0] + "", Join(words[1..], ""), '_');
      assert words[0] + "" == words[0];
    }
  }

  lemma {:induction false} SumCounts(words: seq<string>, segments: seq<string>)
    requires |words| == |segments|
    requires forall i :: 0 <= i < |words| ==> Count(words[i], '_') == if segments[i] == "" then 1 else 0
    ensures TotalCount(words) == EmptySegments(segments)
  {
    if words != [] {
      SumCounts(words[1..], segments[1..]);
    }
  }
}
