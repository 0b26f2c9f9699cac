/** The text of one mapper record, `(a,b)<TAB>1`: the `'(%s,%s)\t%s'` format
    applied to two tokens and the count 1, and a parser for the same shape
    that shows what a downstream reducer can recover from it. */
module Records {

  datatype Option<T> = None | Some(value: T)

  /** The count every record carries. */
  const Count: string := "1"

  /** The text after the key: a closing parenthesis, a tab and the count. */
  const Tail: string := ")\t" + Count

  /** `'(%s,%s)\t%s' % (a, b, 1)`: `%s` of a string is the string itself. */
  function Record(a: string, b: string): string {
    "(" + a + "," + b + Tail
  }

  /** Index of the first comma of `s`, or `|s|` when there is none. */
  function CommaIndex(s: string): (k: nat)
    ensures k <= |s|
    ensures k < |s| ==> s[k] == ','
    ensures forall m | 0 <= m < k :: s[m] != ','
  {
    if s == [] || s[0] == ',' then 0 else 1 + CommaIndex(s[1..])
  }

  /** Reads a record back: the text between `(` and `)\t1`, cut at its first
      comma. `None` when `r` does not have the record shape. */
  function ParseRecord(r: string): Option<(string, string)> {
    if |r| >= 1 + |Tail| && r[0] == '(' && r[|r| - |Tail|..] == Tail then
      var key := r[1..|r| - |Tail|];
      var c := CommaIndex(key);
      if c < |key| then Some((key[..c], key[c + 1..])) else None
    else None
  }

  /** Reading a record back gives the two tokens it was built from, whenever
      the first token has no comma. */
  lemma ParseRecordOfRecord(a: string, b: string)
    requires ',' !in a
    ensures ParseRecord(Record(a, b)) == Some((a, b))
  {
    var r := Record(a, b);
    var key := a + "," + b;
    assert r == "(" + key + Tail;
    assert r[0] == '(';
    assert r[|r| - |Tail|..] == Tail;
    assert r[1..|r| - |Tail|] == key;
    var c := CommaIndex(key);
    assert key[|a|] == ',';
    assert c == |a|;
    assert key[..c] == a;
    assert key[c + 1..] == b;
  }

  /** Whatever the parser accepts is a record, built from the tokens it
      returns, and its first part has no comma. */
  lemma RecordOfParseRecord(r: string, a: string, b: string)
    requires ParseRecord(r) == Some((a, b))
    ensures ',' !in a
    ensures Record(a, b) == r
  {
    var key := r[1..|r| - |Tail|];
    var c := CommaIndex(key);
    assert a == key[..c] && b == key[c + 1..];
    assert key == a + "," + b;
    assert r == [r[0]] + key + r[|r| - |Tail|..];
  }

  /** Tokens may themselves contain commas, and then two different token pairs
      give the same record: `("p,q", "s")` and `("p", "q,s")` both print
      `(p,q,s)<TAB>1`, so the downstream reducer counts them under one key. */
  lemma CommaTokensShareARecord(a1: string, b1: string, a2: string, b2: string)
    requires a1 == "p,q" && b1 == "s" && a2 == "p" && b2 == "q,s"
    ensures (a1, b1) != (a2, b2)
    ensures Record(a1, b1) == Record(a2, b2)
  {
    assert |a1| != |a2|;
  }
}
