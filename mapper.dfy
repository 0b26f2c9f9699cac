/** The doubleton mapper (Week2/lab1extension/doubleton_mapper.py): for each
    input line, in order, it strips and splits the line into tokens and emits
    one record `(tokens[i],tokens[j])<TAB>1` for every pair of positions
    `i < j`, outer `i` ascending, inner `j` ascending. Standard input becomes a
    sequence of lines and standard output the sequence of records returned. */
module DoubletonMapper {
  import opened Tokenizer
  import opened PairOrder
  import opened Records

  predicate InRange(toks: seq<string>, ps: seq<IndexPair>) {
    forall k | 0 <= k < |ps| :: ps[k].first < |toks| && ps[k].second < |toks|
  }

  /** The records for the position pairs `ps` of the tokens `toks`, one per
      pair, in the order of `ps`: the `k`-th record joins the tokens at the
      `k`-th pair of positions, in that pair's order. */
  function Render(toks: seq<string>, ps: seq<IndexPair>): (out: seq<string>)
    requires InRange(toks, ps)
  {
    seq(|ps|, k requires 0 <= k < |ps| => Record(toks[ps[k].first], toks[ps[k].second]))
  }

  /** What the mapper writes for one input line. */
  function LineRecords(line: string): seq<string> {
    var toks := Tokens(line);
    Render(toks, Pairs(|toks|))
  }

  /** What the mapper writes for a whole input: each line's records, lines in
      input order. */
  function MapperOutput(lines: seq<string>): seq<string> {
    Collect(LineRecords, lines)
  }

  /** The outputs `f` gives for each of `xs`, laid end to end in order. */
  function Collect<T>(f: T -> seq<string>, xs: seq<T>): seq<string> {
    if xs == [] then [] else Collect(f, xs[..|xs| - 1]) + f(xs[|xs| - 1])
  }

  /** Rendering two runs of pairs renders each run, in order. */
  lemma RenderConcat(toks: seq<string>, xs: seq<IndexPair>, ys: seq<IndexPair>)
    requires InRange(toks, xs) && InRange(toks, ys)
    ensures InRange(toks, xs + ys)
    ensures Render(toks, xs + ys) == Render(toks, xs) + Render(toks, ys)
  {
    var all := xs + ys;
    forall k | 0 <= k < |all| ensures all[k].first < |toks| && all[k].second < |toks| {
      if k < |xs| {
        assert all[k] == xs[k];
      } else {
        assert all[k] == ys[k - |xs|];
      }
    }
  }

  /** One more pair gives one more record, at the end. */
  lemma RenderAppend(toks: seq<string>, ps: seq<IndexPair>, p: IndexPair)
    requires InRange(toks, ps) && p.first < |toks| && p.second < |toks|
    ensures InRange(toks, ps + [p])
    ensures Render(toks, ps + [p]) == Render(toks, ps) + [Record(toks[p.first], toks[p.second])]
  {
    RenderConcat(toks, ps, [p]);
  }

  /** Finishing row `i` appends that row's records to those of the rows
      before it. */
  lemma RenderNextRow(toks: seq<string>, i: nat)
    requires i < |toks|
    ensures Render(toks, PairsBelow(i + 1, |toks|))
      == Render(toks, PairsBelow(i, |toks|)) + Render(toks, Row(i, |toks|))
  {
    var n := |toks|;
    assert PairsBelow(i + 1, n) == PairsBelow(i, n) + Row(i, n);
    RenderConcat(toks, PairsBelow(i, n), Row(i, n));
  }

  /** The body of the loop over standard input: strip the line, split it,
      and emit its pairs. */
  method EmitLine(line: string) returns (out: seq<string>)
    ensures out == LineRecords(line)
  {
    var stripped := Strip(line);
    var items := Split(stripped);
    out := EmitPairs(items);
  }

  /** The outer `for i` loop over the tokens of one line: row by row, the
      records of every pair of positions. */
  method EmitPairs(items: seq<string>) returns (out: seq<string>)
    ensures out == Render(items, Pairs(|items|))
  {
    var n := |items|;
    out := [];
    for i := 0 to n
      invariant out == Render(items, PairsBelow(i, n))
    {
      var row := EmitRow(items, i);
      RenderNextRow(items, i);
      out := out + row;
    }
  }

  /** The inner `while j` loop: `j` starts at `i + 1` and steps up to the
      last position, one record per step. */
  method EmitRow(items: seq<string>, i: nat) returns (row: seq<string>)
    requires i < |items|
    ensures row == Render(items, Row(i, |items|))
  {
    var n := |items|;
    row := [];
    var j := i + 1;
    while j < n
      invariant i + 1 <= j <= n
      invariant row == Render(items, Row(i, j))
      decreases n - j
    {
      RenderAppend(items, Row(i, j), IndexPair(i, j));
      row := row + [Record(items[i], items[j])];
      j := j + 1;
    }
  }

  /** The whole program: the loop over the input lines. */
  method Process(lines: seq<string>) returns (out: seq<string>)
    ensures out == MapperOutput(lines)
  {
    out := [];
    for k := 0 to |lines|
      invariant out == MapperOutput(lines[..k])
    {
      var records := EmitLine(lines[k]);
      MapperOutputStep(lines, k);
      out := out + records;
    }
    assert lines[..|lines|] == lines;
  }

  /** Handling line `k` appends its records to the output so far. */
  lemma MapperOutputStep(lines: seq<string>, k: nat)
    requires k < |lines|
    ensures MapperOutput(lines[..k + 1]) == MapperOutput(lines[..k]) + LineRecords(lines[k])
  {
    assert lines[..k + 1][..k] == lines[..k];
    assert Collect(LineRecords, lines[..k + 1])
      == Collect(LineRecords, lines[..k]) + LineRecords(lines[k]);
  }

  /** A line of `n` tokens gives `n * (n - 1) / 2` records, and none when it
      has fewer than two tokens. */
  lemma LineRecordCount(line: string)
    ensures |LineRecords(line)| == |Tokens(line)| * (|Tokens(line)| - 1) / 2
    ensures |Tokens(line)| < 2 ==> LineRecords(line) == []
  {
    PairsCount(|Tokens(line)|);
  }

  /** Empty and whitespace-only lines give no record. */
  lemma BlankLineNoRecords(line: string)
    requires AllWhitespace(line)
    ensures LineRecords(line) == []
  {
    BlankLineHasNoTokens(line);
  }

  /** Every record is built from the tokens at two positions `i < j`, the
      earlier token first, and the records follow the lexicographic order of
      their positions. */
  lemma LineRecordsInOrder(line: string, k: nat)
    requires k < |LineRecords(line)|
    ensures var toks := Tokens(line); var p := Pairs(|toks|)[k];
      p.first < p.second < |toks| && LineRecords(line)[k] == Record(toks[p.first], toks[p.second])
    ensures k + 1 < |LineRecords(line)| ==> Before(Pairs(|Tokens(line)|)[k], Pairs(|Tokens(line)|)[k + 1])
  {
    var toks := Tokens(line);
    var n := |toks|;
    PairsAscending(n);
  }

  /** Every pair of positions `i < j` is emitted, exactly at the index its
      lexicographic rank gives, with the tokens in position order. Equal
      tokens at different positions are not merged. */
  lemma LineRecordAt(line: string, i: nat, j: nat)
    requires i < j < |Tokens(line)|
    ensures var toks := Tokens(line);
      PairIndex(i, j, |toks|) < |LineRecords(line)|
      && LineRecords(line)[PairIndex(i, j, |toks|)] == Record(toks[i], toks[j])
  {
    var toks := Tokens(line);
    PairsAt(i, j, |toks|);
  }

  /** Collecting over two stretches collects over each, in order. */
  lemma {:induction false} CollectAppend<T>(f: T -> seq<string>, xs: seq<T>, ys: seq<T>)
    ensures Collect(f, xs + ys) == Collect(f, xs) + Collect(f, ys)
    decreases |ys|
  {
    if ys == [] {
      assert xs + ys == xs;
    } else {
      var init := ys[..|ys| - 1];
      assert (xs + ys)[..|xs + ys| - 1] == xs + init;
      CollectAppend(f, xs, init);
    }
  }

  /** Lines are independent: the output for two stretches of input is the
      output of the first followed by the output of the second. */
  lemma MapperOutputAppend(xs: seq<string>, ys: seq<string>)
    ensures MapperOutput(xs + ys) == MapperOutput(xs) + MapperOutput(ys)
  {
    CollectAppend(LineRecords, xs, ys);
  }

  /** No input, no output. */
  lemma EmptyInputNoOutput()
    ensures MapperOutput([]) == []
  {
  }

  /** A one-line input gives that line's records. */
  lemma MapperOutputOneLine(line: string)
    ensures MapperOutput([line]) == LineRecords(line)
  {
    assert [line][..0] == [];
    assert Collect(LineRecords, [line]) == Collect(LineRecords, []) + LineRecords(line);
  }

  /** Any line with two tokens gives the single record of the two, in line
      order, even when they are equal. */
  lemma TwoTokenLine(line: string)
    requires |Tokens(line)| == 2
    ensures LineRecords(line) == [Record(Tokens(line)[0], Tokens(line)[1])]
  {
    PairsOfTwo();
  }

  /** Any line with three tokens gives the records of positions (0,1), (0,2)
      and (1,2), in that order. */
  lemma ThreeTokenLine(line: string)
    requires |Tokens(line)| == 3
    ensures var t := Tokens(line);
      LineRecords(line) == [Record(t[0], t[1]), Record(t[0], t[2]), Record(t[1], t[2])]
  {
    var t := Tokens(line);
    PairsOfThree();
    var out := LineRecords(line);
    assert out == Render(t, [IndexPair(0, 1), IndexPair(0, 2), IndexPair(1, 2)]);
    assert |out| == 3;
    assert out[0] == Record(t[0], t[1]);
    assert out[1] == Record(t[0], t[2]);
    assert out[2] == Record(t[1], t[2]);
  }

  /** Two tokens joined by one space are the tokens of that line. */
  lemma TokensOfTwo(line: string, a: string, b: string)
    requires IsToken(a) && IsToken(b) && line == a + " " + b
    ensures Tokens(line) == [a, b]
  {
    var toks := [a, b];
    TokensOfJoin(line, toks);
  }

  /** Three tokens joined by single spaces are the tokens of that line. */
  lemma TokensOfThree(line: string, a: string, b: string, c: string)
    requires IsToken(a) && IsToken(b) && IsToken(c) && line == a + " " + (b + " " + c)
    ensures Tokens(line) == [a, b, c]
  {
    var toks := [a, b, c];
    assert toks[1..] == [b, c] && [b, c][1..] == [c];
    assert Join([b, c]) == b + " " + c;
    TokensOfJoin(line, toks);
  }

  /** A line made of tokens joined by single spaces has those tokens. */
  lemma TokensOfJoin(line: string, toks: seq<string>)
    requires forall k | 0 <= k < |toks| :: IsToken(toks[k])
    requires line == Join(toks)
    ensures Tokens(line) == toks
  {
    SplitJoin(toks);
    StripKeepsTokens(line);
  }

  lemma PairsOfTwo()
    ensures Pairs(2) == [IndexPair(0, 1)]
  {
    assert Row(0, 2) == [IndexPair(0, 1)];
    assert Row(1, 2) == [];
    assert PairsBelow(1, 2) == [] + Row(0, 2);
    assert PairsBelow(2, 2) == PairsBelow(1, 2) + Row(1, 2);
  }

  lemma PairsOfThree()
    ensures Pairs(3) == [IndexPair(0, 1), IndexPair(0, 2), IndexPair(1, 2)]
  {
    assert Row(0, 3) == [IndexPair(0, 1), IndexPair(0, 2)];
    assert Row(1, 3) == [IndexPair(1, 2)];
    assert Row(2, 3) == [];
    assert PairsBelow(1, 3) == [] + Row(0, 3);
    assert PairsBelow(2, 3) == PairsBelow(1, 3) + Row(1, 3);
    assert PairsBelow(3, 3) == PairsBelow(2, 3) + Row(2, 3);
  }

  /** The repeated-token line `x x` gives exactly one record, `(x,x)<TAB>1`. */
  lemma RepeatedTokenExample(line: string)
    requires line == "x x"
    ensures LineRecords(line) == ["(x,x)\t1"]
  {
    TokensOfTwo(line, "x", "x");
    TwoTokenLine(line);
    assert Record("x", "x") == "(x,x)\t1";
  }

  /** The line `"  a   b  c "` gives `(a,b)`, `(a,c)`, `(b,c)`, each followed
      by a tab and `1`, in that order: the extra whitespace changes nothing. */
  lemma WhitespaceNormalisationRecords(line: string)
    requires line == "  a   b  c "
    ensures LineRecords(line) == ["(a,b)\t1", "(a,c)\t1", "(b,c)\t1"]
  {
    WhitespaceNormalisationExample(line);
    ThreeTokenLine(line);
    assert Record("a", "b") == "(a,b)\t1";
    assert Record("a", "c") == "(a,c)\t1";
    assert Record("b", "c") == "(b,c)\t1";
  }

  /** A line of two tokens followed by a line of three: the first line's
      record, then the second line's three, in order. */
  lemma TwoLines(first: string, second: string)
    requires |Tokens(first)| == 2 && |Tokens(second)| == 3
    ensures var s, t := Tokens(first), Tokens(second);
      MapperOutput([first, second])
        == [Record(s[0], s[1]), Record(t[0], t[1]), Record(t[0], t[2]), Record(t[1], t[2])]
  {
    TwoTokenLine(first);
    ThreeTokenLine(second);
    assert [first, second] == [first] + [second];
    MapperOutputAppend([first], [second]);
    MapperOutputOneLine(first);
    MapperOutputOneLine(second);
  }

  /** Two lines, `a b` and `c d e`, give `(a,b)`, `(c,d)`, `(c,e)`, `(d,e)`,
      in that order. */
  lemma TwoLinesExample(first: string, second: string)
    requires first == "a b" && second == "c d e"
    ensures MapperOutput([first, second])
      == ["(a,b)\t1", "(c,d)\t1", "(c,e)\t1", "(d,e)\t1"]
  {
    TokensOfTwo(first, "a", "b");
    TokensOfThree(second, "c", "d", "e");
    TwoLines(first, second);
    RecordTexts();
  }

  lemma RecordTexts()
    ensures Record("a", "b") == "(a,b)\t1" && Record("c", "d") == "(c,d)\t1"
    ensures Record("c", "e") == "(c,e)\t1" && Record("d", "e") == "(d,e)\t1"
  {
  }
}
