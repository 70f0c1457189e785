/** The parts of Go's built-in types and standard library that the provider's logic relies on. */
module GoTypes {

  /** Go's int64 (TTLs and zone serials); the model only copies such values, never computes with them. */
  newtype Int64 = x: int | -0x8000_0000_0000_0000 <= x < 0x8000_0000_0000_0000

  /** Number of occurrences of `c` in `s`. */
  function CountChar(s: string, c: char): nat
  {
    if s == [] then 0 else (if s[0] == c then 1 else 0) + CountChar(s[1..], c)
  }

  /** `strings.Split(s, string(sep))`: the maximal substrings between the occurrences of `sep`.
      There is always one part more than there are separators, so the empty string splits into [""]. */
  function Split(s: string, sep: char): (parts: seq<string>)
    ensures |parts| == CountChar(s, sep) + 1
    ensures forall k :: 0 <= k < |parts| ==> sep !in parts[k]
  {
    if s == [] then [""]
    else
      var rest := Split(s[1..], sep);
      if s[0] == sep then [""] + rest
      else [[s[0]] + rest[0]] + rest[1..]
  }

  /** A string without a separator is a single part. */
  lemma {:induction false} SplitNoSeparator(p: string, sep: char)
    requires sep !in p
    ensures Split(p, sep) == [p]
  {
    if p != [] {
      SplitNoSeparator(p[1..], sep);
      assert [p[0]] + p[1..] == p;
    }
  }

  /** A separator-free prefix followed by the separator is the first part, and splitting goes on
      with whatever follows. */
  lemma {:induction false} SplitAfterPart(p: string, sep: char, rest: string)
    requires sep !in p
    ensures Split(p + [sep] + rest, sep) == [p] + Split(rest, sep)
  {
    var s := p + [sep] + rest;
    if p == [] {
      assert s[1..] == rest;
    } else {
      assert s[1..] == p[1..] + [sep] + rest;
      SplitAfterPart(p[1..], sep, rest);
      assert [p[0]] + p[1..] == p;
    }
  }

  /** Joining separator-free parts with the separator and splitting again gives the parts back. */
  lemma SplitJoined3(a: string, b: string, c: string, sep: char)
    requires sep !in a && sep !in b && sep !in c
    ensures Split(a + [sep] + b + [sep] + c, sep) == [a, b, c]
  {
    SplitNoSeparator(c, sep);
    SplitAfterPart(b, sep, c);
    assert a + [sep] + b + [sep] + c == a + [sep] + (b + [sep] + c);
    SplitAfterPart(a, sep, b + [sep] + c);
  }

  /** The same for four parts. */
  lemma SplitJoined4(a: string, b: string, c: string, d: string, sep: char)
    requires sep !in a && sep !in b && sep !in c && sep !in d
    ensures Split(a + [sep] + b + [sep] + c + [sep] + d, sep) == [a, b, c, d]
  {
    var front := a + [sep] + b + [sep] + c;
    var back := b + [sep] + c + [sep] + d;
    assert front == a + [sep] + (b + [sep] + c);
    assert front + [sep] + d == a + [sep] + back;
    SplitJoined3(b, c, d, sep);
    SplitAfterPart(a, sep, back);
  }
}
