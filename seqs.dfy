/** Facts about concatenating sequences: the text successive writes produce, and where the
    pieces of a joined sequence sit. */
module Seqs {
  /** Concatenation of a sequence of strings, as successive `file.write` calls produce it. */
  function Concat(parts: seq<string>): (r: string)
    ensures parts == [] ==> r == []
  {
    if parts == [] then [] else Concat(parts[..|parts| - 1]) + parts[|parts| - 1]
  }

  lemma ConcatSnoc(parts: seq<string>, s: string)
    ensures Concat(parts + [s]) == Concat(parts) + s
  {
    assert (parts + [s])[..|parts|] == parts;
  }

  lemma Associative<T>(a: seq<T>, b: seq<T>, c: seq<T>)
    ensures a + b + c == a + (b + c)
  {
  }

  lemma ConcatSingle(s: string)
    ensures Concat([s]) == s
  {
    assert [s][..0] == [];
  }

  lemma {:induction false} ConcatAppend(a: seq<string>, b: seq<string>)
    ensures Concat(a + b) == Concat(a) + Concat(b)
    decreases |b|
  {
    if b == [] {
      assert a + b == a;
    } else {
      var b' := b[..|b| - 1];
      assert (a + b)[..|a + b| - 1] == a + b';
      ConcatAppend(a, b');
    }
  }

  /** Where each piece of `header + [x] + body` sits in the joined sequence. */
  lemma Layout<T>(header: seq<T>, x: T, body: seq<T>)
    ensures var joined := header + [x] + body;
      && |joined| == |header| + 1 + |body|
      && joined[..|header|] == header
      && joined[|header|] == x
      && (forall i :: 0 <= i < |body| ==> joined[|header| + 1 + i] == body[i])
  {
    var joined := header + [x] + body;
    assert joined[..|header|] == header;
  }
}
