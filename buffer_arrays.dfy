/**
 * Buffer arrays: a named vertex attribute holds a sequence of numeric tuples,
 * which the rendering library stores flattened together with the tuple arity.
 */
module BufferArrays {

  /** Buffer values and coordinates; the model uses integers for JavaScript numbers. */
  type Number = int
  type Tuple = seq<Number>
  type BufferArray = seq<Tuple>

  /** The message of the TypeError every rectangularity check throws. */
  const BufferShapeMessage := "Buffer array must contain arrays that are all the same length"

  /** The message of the ReferenceError thrown when appending to a buffer that does not exist. */
  function NoBufferMessage(id: string): (m: string) {
    "No buffer array with id \"" + id + "\""
  }

  /** The rectangularity invariant: all tuples of the array share one arity. */
  ghost predicate Rectangular(data: BufferArray) {
    forall i, j :: 0 <= i < |data| && 0 <= j < |data| ==> |data[i]| == |data[j]|
  }

  /** Every tuple has exactly `n` components. */
  ghost predicate AllOfArity(data: BufferArray, n: nat) {
    forall i :: 0 <= i < |data| ==> |data[i]| == n
  }

  /**
   * `Array.prototype.flat()`: the tuples' components, in order. The flat data
   * begins with the first tuple, keeps every component of every tuple, and is
   * empty exactly when every tuple is.
   */
  function Flatten(data: BufferArray): (r: seq<Number>)
    ensures data != [] ==> data[0] <= r
    ensures r == [] <==> forall i :: 0 <= i < |data| ==> data[i] == []
    ensures forall i, x :: 0 <= i < |data| && x in data[i] ==> x in r
  {
    if data == [] then [] else data[0] + Flatten(data[1..])
  }

  /** Flat data that splits into whole tuples of `n` components (any data when `n` is 0). */
  ghost predicate Chunked(d: seq<Number>, n: nat)
    decreases |d|
  {
    n == 0 || d == [] || (n <= |d| && Chunked(d[n..], n))
  }

  /** How the rendering library reads flat data back as tuples of `n` components. */
  ghost function Unflatten(d: seq<Number>, n: nat): (r: BufferArray)
    requires n > 0 && Chunked(d, n)
    ensures AllOfArity(r, n)
    decreases |d|
  {
    if d == [] then [] else [d[..n]] + Unflatten(d[n..], n)
  }

  /** Reading flat data back as tuples loses nothing: the tuples flatten to the same data. */
  lemma {:induction false} UnflattenFlattens(d: seq<Number>, n: nat)
    requires n > 0 && Chunked(d, n)
    ensures Flatten(Unflatten(d, n)) == d
    decreases |d|
  {
    if d != [] {
      var r := Unflatten(d, n);
      UnflattenFlattens(d[n..], n);
      assert r[0] == d[..n] && r[1..] == Unflatten(d[n..], n);
      assert d == d[..n] + d[n..];
    }
  }

  /** Flattening tuples of one arity is undone by reading the data back with that arity. */
  lemma {:induction false} FlattenRoundTrip(data: BufferArray, n: nat)
    requires n > 0 && AllOfArity(data, n)
    ensures Chunked(Flatten(data), n) && Unflatten(Flatten(data), n) == data
  {
    if data != [] {
      assert AllOfArity(data[1..], n) by {
        forall i | 0 <= i < |data[1..]| ensures |data[1..][i]| == n {
          assert data[1..][i] == data[i + 1];
        }
      }
      FlattenRoundTrip(data[1..], n);
      var f := Flatten(data);
      assert f[..n] == data[0];
      assert f[n..] == Flatten(data[1..]);
      assert data == [data[0]] + data[1..];
    }
  }

  /** Appending flat data of whole tuples to flat data of whole tuples gives whole tuples. */
  lemma {:induction false} ChunkedConcat(a: seq<Number>, b: seq<Number>, n: nat)
    requires Chunked(a, n) && Chunked(b, n)
    ensures Chunked(a + b, n)
    decreases |a|
  {
    if n > 0 {
      if a == [] {
        assert a + b == b;
      } else {
        assert (a + b)[n..] == a[n..] + b;
        ChunkedConcat(a[n..], b, n);
      }
    }
  }

  /** Appending flat data of whole tuples appends the tuples it reads back as. */
  lemma {:induction false} UnflattenConcat(a: seq<Number>, b: seq<Number>, n: nat)
    requires n > 0 && Chunked(a, n) && Chunked(b, n)
    ensures Chunked(a + b, n) && Unflatten(a + b, n) == Unflatten(a, n) + Unflatten(b, n)
    decreases |a|
  {
    ChunkedConcat(a, b, n);
    if a == [] {
      assert a + b == b;
    } else {
      var ab := a + b;
      assert ab[n..] == a[n..] + b;
      assert ab[..n] == a[..n];
      UnflattenConcat(a[n..], b, n);
      var tail := Unflatten(a[n..], n) + Unflatten(b, n);
      assert Unflatten(ab, n) == [a[..n]] + tail;
      assert Unflatten(a, n) == [a[..n]] + Unflatten(a[n..], n);
    }
  }
}
