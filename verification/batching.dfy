/** Concatenation and the fixed-size chunking both publishers use before submitting. */
module Batching {

  /** Concatenation of a sequence of sequences, in order. */
  function Flatten<T>(ss: seq<seq<T>>): seq<T>
    decreases |ss|
  {
    if ss == [] then [] else Flatten(ss[..|ss| - 1]) + ss[|ss| - 1]
  }

  /** Regrouping a concatenation; a step the solver does not always take unaided. */
  lemma AppendAssoc<T>(a: seq<T>, b: seq<T>, c: seq<T>)
    ensures (a + b) + c == a + (b + c)
  {
  }

  lemma {:induction false} FlattenCons<T>(s: seq<T>, ss: seq<seq<T>>)
    ensures Flatten([s] + ss) == s + Flatten(ss)
    decreases |ss|
  {
    if ss != [] {
      assert ([s] + ss)[..|ss|] == [s] + ss[..|ss| - 1];
      FlattenCons(s, ss[..|ss| - 1]);
    }
  }

  lemma {:induction false} FlattenAppend<T>(ss: seq<seq<T>>, tt: seq<seq<T>>)
    ensures Flatten(ss + tt) == Flatten(ss) + Flatten(tt)
    decreases |tt|
  {
    if tt == [] {
      assert ss + tt == ss;
    } else {
      assert (ss + tt)[..|ss + tt| - 1] == ss + tt[..|tt| - 1];
      FlattenAppend(ss, tt[..|tt| - 1]);
    }
  }

  /**
   * The chunks the publishing loop submits: while more than `size` items
   * remain it takes the first `size`, and it then takes whatever is left,
   * if anything. Every chunk holds 1..size items, every chunk but the last
   * exactly `size`, and there are ceil(|data| / size) of them.
   */
  function Batches<T>(data: seq<T>, size: nat): (bs: seq<seq<T>>)
    requires 0 < size
    ensures |bs| == 0 <==> |data| == 0
    ensures |bs| > 0 ==> (|bs| - 1) * size < |data| <= |bs| * size
    ensures forall i :: 0 <= i < |bs| ==> 1 <= |bs[i]| <= size
    ensures forall i :: 0 <= i < |bs| - 1 ==> |bs[i]| == size
    decreases |data|
  {
    if |data| > size then
      var rest := Batches(data[size..], size);
      assert (|rest| - 1) * size == |rest| * size - size;
      [data[..size]] + rest
    else if |data| > 0 then [data]
    else []
  }

  /** The chunks, put back together, are the input in its original order. */
  lemma {:induction false} BatchesCover<T>(data: seq<T>, size: nat)
    requires 0 < size
    ensures Flatten(Batches(data, size)) == data
    decreases |data|
  {
    if |data| > size {
      BatchesCover(data[size..], size);
      FlattenCons(data[..size], Batches(data[size..], size));
      assert data[..size] + data[size..] == data;
    } else if |data| > 0 {
      assert Flatten([data]) == Flatten([data][..0]) + data;
    }
  }

  /** The number of chunks is the ceiling of |data| / size. */
  lemma BatchesCount<T>(data: seq<T>, size: nat)
    requires 0 < size
    ensures |Batches(data, size)| == (|data| + size - 1) / size
  {
    var k := |Batches(data, size)|;
    if k > 0 {
      var r := |data| - 1 - (k - 1) * size;
      assert 0 <= r < size;
      assert |data| + size - 1 == k * size + r;
      DivideExactly(|data| + size - 1, size, k, r);
    }
  }

  lemma DivideExactly(a: int, d: nat, q: int, r: int)
    requires 0 < d && a == q * d + r && 0 <= r < d
    ensures a / d == q
  {
    var e := q - a / d;
    assert a == (a / d) * d + a % d;
    assert e * d == a % d - r;
  }
}
