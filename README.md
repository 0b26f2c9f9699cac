# Doubleton mapper

The doubleton mapper is the map step of a pair-counting job. It reads its
input line by line. For each line it strips leading and trailing whitespace
and splits the rest into tokens. Then, for every pair of token positions
`i < j`, it writes one record `(items[i],items[j])<TAB>1`. The outer loop
runs `i` upwards; the inner loop starts `j` at `i + 1` and steps it up to
the last position.

The project has four modules:

- `Tokenizer` (`tokenizer.dfy`) models `str.strip()` and `str.split()` with
  no arguments. Whitespace is the set of characters Python's `str.isspace()`
  accepts: ASCII tab to carriage return, U+001C to U+001F, space, U+0085,
  U+00A0, U+1680, U+2000 to U+200A, U+2028, U+2029, U+202F, U+205F and
  U+3000.
- `PairOrder` (`pair_order.dfy`) is the specification of the nested loop.
  It gives the sequence of position pairs `(i, j)` the two loops visit, row
  by row.
- `Records` (`records.dfy`) models the record text `'(%s,%s)\t%s' % (a, b, 1)`.
  It also has a parser as the partner of that format, showing what a
  downstream reader can recover from a record.
- `DoubletonMapper` (`mapper.dfy`) holds the program's loops as methods:
  - `Process` is the loop over input lines;
  - `EmitLine` is the body of that loop;
  - `EmitPairs` is the outer `for i` loop;
  - `EmitRow` is the inner `while j` loop.

  Each method is proved against a specification function: `LineRecords` for
  one line and `MapperOutput` for the whole input. The lemmas beside them
  state what those functions promise.

Standard input becomes a sequence of lines. Standard output becomes the
sequence of records a method returns, one record per `print` call.

## Model

| member | source | states |
|---|---|---|
| Tokenizer.IsWhitespace | Week2/lab1extension/doubleton_mapper.py:9-11 | definition: the characters that both `strip()` and `split()` treat as whitespace, the set Python's `str.isspace()` accepts |
| Tokenizer.LeadingWhitespace | Week2/lab1extension/doubleton_mapper.py:9 | the number of leading characters `strip` removes: all of them whitespace, and the next character, if any, is not |
| Tokenizer.TrailingWhitespace | Week2/lab1extension/doubleton_mapper.py:9 | the number of trailing characters `strip` removes: all of them whitespace, and the character before them, if any, is not |
| Tokenizer.Strip | Week2/lab1extension/doubleton_mapper.py:9 | definition: `line.strip()` is the line without its leading and then its trailing whitespace run |
| Tokenizer.StripShape | Week2/lab1extension/doubleton_mapper.py:9 | the stripped line is one contiguous slice of the line; everything before and after it is whitespace, and its first and last characters are not |
| Tokenizer.StripEmpty | Week2/lab1extension/doubleton_mapper.py:9 | the stripped line is empty exactly when the line is all whitespace (both directions) |
| Tokenizer.Split | Week2/lab1extension/doubleton_mapper.py:11 | every token `split` produces is non-empty and contains no whitespace character |
| Tokenizer.SplitKeepsCharacters | Week2/lab1extension/doubleton_mapper.py:11 | the tokens laid end to end are exactly the line's non-whitespace characters, in order: nothing is lost or invented |
| Tokenizer.SplitJoin | Week2/lab1extension/doubleton_mapper.py:11 | splitting tokens joined by single spaces gives those tokens back (round trip) |
| Tokenizer.Tokens | Week2/lab1extension/doubleton_mapper.py:9-11 | definition: the tokens of a line are `split()` of its `strip()`, the `items` the loops run over |
| Tokenizer.StripKeepsTokens | Week2/lab1extension/doubleton_mapper.py:9-11 | stripping before splitting changes nothing: `strip().split()` equals `split()` on every line |
| Tokenizer.BlankLineHasNoTokens | Week2/lab1extension/doubleton_mapper.py:9-11 | a line has no tokens exactly when it is empty or all whitespace (both directions) |
| Tokenizer.SplitFirstToken | Week2/lab1extension/doubleton_mapper.py:11 | a token followed by a run of whitespace is split off as the first token, whatever follows |
| Tokenizer.SplitThreeTokens | Week2/lab1extension/doubleton_mapper.py:9-11 | three tokens with non-empty whitespace runs between them, and whitespace runs of any length (possibly none) before and after, give exactly those three tokens |
| Tokenizer.WhitespaceNormalisationExample | Week2/lab1extension/doubleton_mapper.py:9-11 | the line `"  a   b  c "` gives the tokens `a`, `b`, `c`: leading, trailing and repeated whitespace produce no empty token |
| PairOrder.Row | Week2/lab1extension/doubleton_mapper.py:14-15 | the pairs one run of the inner loop visits before `j` reaches `end` are `(i, i+1) .. (i, end-1)`, in that order, and there are none when `end <= i + 1` |
| PairOrder.PairsBelow | Week2/lab1extension/doubleton_mapper.py:13-15 | after `i` outer rounds, every visited pair `(p, q)` has `p < i` and `p < q < n` |
| PairOrder.Pairs | Week2/lab1extension/doubleton_mapper.py:13-15 | definition: the full visit order of the two loops, the rows of `i = 0 .. n-1` one after another |
| PairOrder.PairsBelowLength | Week2/lab1extension/doubleton_mapper.py:13-15 | after `i` outer rounds the loops have visited `i * (2n - i - 1) / 2` pairs |
| PairOrder.PairsCount | Week2/lab1extension/doubleton_mapper.py:13-15 | an `n`-token line has exactly `n * (n - 1) / 2` pairs, and none when `n < 2` |
| PairOrder.PairsBelowPrefix | Week2/lab1extension/doubleton_mapper.py:13 | later outer rounds only append: the pairs of the first `i` rounds are a prefix of the pairs of the first `m >= i` rounds |
| PairOrder.PairsAt | Week2/lab1extension/doubleton_mapper.py:13-15 | every pair `i < j < n` is visited, at the index given by its lexicographic rank |
| PairOrder.PairsMembership | Week2/lab1extension/doubleton_mapper.py:13-15 | a pair is visited exactly when `first < second < n` (both directions) |
| PairOrder.AscendingAppend | Week2/lab1extension/doubleton_mapper.py:13 | an ascending run followed by a later ascending run is ascending, the shape of one outer round following another |
| PairOrder.PairsBelowAscending | Week2/lab1extension/doubleton_mapper.py:13-15 | the pairs visited in the first `i` outer rounds are in strictly ascending lexicographic order |
| PairOrder.PairsAscending | Week2/lab1extension/doubleton_mapper.py:13-15 | all pairs come out in strictly ascending lexicographic order, so none is visited twice |
| Records.Record | Week2/lab1extension/doubleton_mapper.py:17 | definition: the text of one record is `(`, the first token, `,`, the second token, `)`, a tab and the count `1`, with `%s` of a string being the string itself |
| Records.ParseRecordOfRecord | Week2/lab1extension/doubleton_mapper.py:17 | reading a record back gives the two tokens it was built from, when the first token has no comma |
| Records.RecordOfParseRecord | Week2/lab1extension/doubleton_mapper.py:17 | whatever the parser accepts is exactly the record of the tokens it returns, and the first token has no comma |
| Records.CommaTokensShareARecord | Week2/lab1extension/doubleton_mapper.py:17 | the record format is ambiguous: the token pairs `("p,q", "s")` and `("p", "q,s")` differ but print the same record |
| DoubletonMapper.EmitRow | Week2/lab1extension/doubleton_mapper.py:14-18 | the inner loop terminates and returns, in order, one record `(items[i],items[j])<TAB>1` for each `j` from `i + 1` to the last position |
| DoubletonMapper.EmitPairs | Week2/lab1extension/doubleton_mapper.py:13-18 | the outer loop returns the record of every position pair of the tokens, in the order of `PairOrder.Pairs` |
| DoubletonMapper.RenderNextRow | Week2/lab1extension/doubleton_mapper.py:13-18 | finishing outer round `i` appends that round's records to the records of the rounds before it |
| DoubletonMapper.EmitLine | Week2/lab1extension/doubleton_mapper.py:9-18 | the records written for one line are the records of every pair of its `strip().split()` tokens |
| DoubletonMapper.Process | Week2/lab1extension/doubleton_mapper.py:7-18 | the whole output is each line's records, lines in input order |
| DoubletonMapper.MapperOutputStep | Week2/lab1extension/doubleton_mapper.py:7-18 | handling one more line appends that line's records and changes nothing already written |
| DoubletonMapper.LineRecordCount | Week2/lab1extension/doubleton_mapper.py:11-18 | a line of `n` tokens gives `n * (n - 1) / 2` records, and none when it has fewer than two tokens |
| DoubletonMapper.BlankLineNoRecords | Week2/lab1extension/doubleton_mapper.py:9-18 | an empty or whitespace-only line gives no record |
| DoubletonMapper.LineRecordsInOrder | Week2/lab1extension/doubleton_mapper.py:13-17 | every record joins the tokens at two positions `i < j`, the earlier token first, and consecutive records follow the lexicographic order of their positions |
| DoubletonMapper.LineRecordAt | Week2/lab1extension/doubleton_mapper.py:13-17 | the record of every position pair `i < j` is present, at the index of its lexicographic rank, even when the two tokens are equal |
| DoubletonMapper.CollectAppend | Week2/lab1extension/doubleton_mapper.py:7 | writing each item's records in turn over two stretches of items gives the records of the first stretch followed by those of the second |
| DoubletonMapper.MapperOutputAppend | Week2/lab1extension/doubleton_mapper.py:7-18 | lines are independent: the output for `xs + ys` is the output for `xs` followed by the output for `ys` |
| DoubletonMapper.EmptyInputNoOutput | Week2/lab1extension/doubleton_mapper.py:7-18 | an empty input gives an empty output |
| DoubletonMapper.MapperOutputOneLine | Week2/lab1extension/doubleton_mapper.py:7-18 | a one-line input gives exactly that line's records |
| DoubletonMapper.TwoTokenLine | Week2/lab1extension/doubleton_mapper.py:9-18 | any line whose `strip().split()` has two tokens, whatever whitespace surrounds or separates them, gives the single record of those tokens in line order, even when they are equal |
| DoubletonMapper.ThreeTokenLine | Week2/lab1extension/doubleton_mapper.py:9-18 | any line whose `strip().split()` has three tokens gives the records of its token positions (0,1), (0,2) and (1,2), in that order |
| DoubletonMapper.TokensOfTwo | Week2/lab1extension/doubleton_mapper.py:9-11 | two tokens joined by one space are exactly the tokens of that line |
| DoubletonMapper.TokensOfThree | Week2/lab1extension/doubleton_mapper.py:9-11 | three tokens joined by single spaces are exactly the tokens of that line |
| DoubletonMapper.TokensOfJoin | Week2/lab1extension/doubleton_mapper.py:9-11 | a line of tokens joined by single spaces has exactly those tokens |
| DoubletonMapper.PairsOfTwo | Week2/lab1extension/doubleton_mapper.py:13-15 | a two-token line visits the single pair (0,1) |
| DoubletonMapper.PairsOfThree | Week2/lab1extension/doubleton_mapper.py:13-15 | a three-token line visits (0,1), (0,2) and (1,2), in that order |
| DoubletonMapper.RepeatedTokenExample | Week2/lab1extension/doubleton_mapper.py:9-18 | the line `x x` gives exactly one record, `(x,x)<TAB>1`: equal tokens are not merged |
| DoubletonMapper.WhitespaceNormalisationRecords | Week2/lab1extension/doubleton_mapper.py:9-18 | the line `"  a   b  c "` gives `(a,b)`, `(a,c)`, `(b,c)`, each followed by a tab and `1`, in that order |
| DoubletonMapper.TwoLines | Week2/lab1extension/doubleton_mapper.py:7-18 | any line of two tokens followed by any line of three tokens gives the first line's record, then the second line's three, in order |
| DoubletonMapper.TwoLinesExample | Week2/lab1extension/doubleton_mapper.py:7-18 | the lines `a b` and `c d e` give `(a,b)`, `(c,d)`, `(c,e)`, `(d,e)`, each followed by a tab and `1`, in that order |

## Left out

- Reading standard input and writing with `print` are not modelled. Input
  is a sequence of lines and output a sequence of records, one per `print`
  call. The trailing newline `print` adds is not part of a record.
- How standard input is cut into lines (newline translation, text encoding
  and decoding errors) is not modelled. Each line is given as a string.
  Its line terminator is whitespace, which `strip` removes.
- The `try`/`except` around the `print` (lines 16-20) is not modelled, and
  the model has no failure path. With string tokens and the integer 1, the
  `%` formatting cannot fail; only the write itself could (a closed pipe,
  say). The code would not skip a failed pair: `j += 1` sits inside the
  `try`, so after a failed `print` the `continue` retries the same `j`.
- The nested loop is modelled as two methods, `EmitPairs` for the outer
  `for i` loop and `EmitRow` for the inner `while j` loop, which it calls.
  This keeps each loop invariant small. The order of the records is the
  same.
- Python's `str` is modelled as a sequence of `char`. Surrogate code points
  and Unicode normalisation play no part in `strip` or `split`.
- The reducer that consumes these records is not part of this model.
  `ParseRecord` only shows what a reader of the record text can recover.
