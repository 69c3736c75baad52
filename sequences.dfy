/**
 * The "loop over the items, keep what passes, append in order" pattern
 * that both the bulk-text parser and the CSV import follow.
 */
module Sequences {
  import opened Wrappers

  /** The values `f` produces for the items of `xs`, in order, skipping `None`. */
  function FilterMap<A, B>(xs: seq<A>, f: A -> Option<B>): (ys: seq<B>)
    ensures |ys| <= |xs|
  {
    if xs == [] then [] else Emit(f(xs[0])) + FilterMap(xs[1..], f)
  }

  /** The zero or one value an item contributes. */
  function Emit<B>(o: Option<B>): (out: seq<B>)
    ensures |out| <= 1
  {
    match o
    case Some(y) => [y]
    case None => []
  }

  /** Appending items appends their outputs. */
  lemma {:induction false} FilterMapConcat<A, B>(xs: seq<A>, zs: seq<A>, f: A -> Option<B>)
    ensures FilterMap(xs + zs, f) == FilterMap(xs, f) + FilterMap(zs, f)
  {
    if xs == [] {
      assert xs + zs == zs;
    } else {
      var xz := xs + zs;
      assert xz[0] == xs[0];
      assert xz[1..] == xs[1..] + zs;
      FilterMapConcat(xs[1..], zs, f);
      calc {
        FilterMap(xz, f);
        Emit(f(xs[0])) + FilterMap(xs[1..] + zs, f);
        Emit(f(xs[0])) + (FilterMap(xs[1..], f) + FilterMap(zs, f));
        (Emit(f(xs[0])) + FilterMap(xs[1..], f)) + FilterMap(zs, f);
      }
    }
  }

  /** One more item at the end adds its output at the end: the step of an appending loop. */
  lemma FilterMapSnoc<A, B>(xs: seq<A>, i: nat, f: A -> Option<B>)
    requires i < |xs|
    ensures FilterMap(xs[..i + 1], f) == FilterMap(xs[..i], f) + Emit(f(xs[i]))
  {
    FilterMapConcat(xs[..i], [xs[i]], f);
    assert xs[..i + 1] == xs[..i] + [xs[i]];
    assert [xs[i]][1..] == [];
  }

  /** The positions in `xs` of the items that produce an output, in order. */
  function Sources<A, B>(xs: seq<A>, f: A -> Option<B>): (idx: seq<nat>)
    ensures |idx| == |FilterMap(xs, f)|
  {
    if xs == [] then []
    else (if f(xs[0]).Some? then [0] else []) + Shifted(Sources(xs[1..], f))
  }

  /** Every index one further on. */
  function Shifted(idx: seq<nat>): (r: seq<nat>)
    ensures |r| == |idx| && forall k :: 0 <= k < |idx| ==> r[k] == idx[k] + 1
  {
    seq(|idx|, k requires 0 <= k < |idx| => idx[k] + 1)
  }

  /** The k-th output is what `f` gives for the item at `Sources(xs, f)[k]`. */
  lemma {:induction false} SourcesProduce<A, B>(xs: seq<A>, f: A -> Option<B>)
    ensures forall k :: 0 <= k < |Sources(xs, f)| ==>
      Sources(xs, f)[k] < |xs| && f(xs[Sources(xs, f)[k]]) == Some(FilterMap(xs, f)[k])
  {
    if xs != [] {
      SourcesProduce(xs[1..], f);
      ProducePrepend(xs, f, Sources(xs[1..], f), FilterMap(xs[1..], f));
    }
  }

  /** The step of `SourcesProduce`: putting one item in front keeps positions and outputs matched. */
  lemma ProducePrepend<A, B>(xs: seq<A>, f: A -> Option<B>, rest: seq<nat>, tail: seq<B>)
    requires xs != [] && |rest| == |tail|
    requires forall k :: 0 <= k < |rest| ==> rest[k] < |xs| - 1 && f(xs[1..][rest[k]]) == Some(tail[k])
    ensures var idx := (if f(xs[0]).Some? then [0] else []) + Shifted(rest);
      var ys := Emit(f(xs[0])) + tail;
      |idx| == |ys| && forall k :: 0 <= k < |idx| ==> idx[k] < |xs| && f(xs[idx[k]]) == Some(ys[k])
  {
    var head: seq<nat> := if f(xs[0]).Some? then [0] else [];
    var idx := head + Shifted(rest);
    var ys := Emit(f(xs[0])) + tail;
    assert |head| == |Emit(f(xs[0]))|;
    forall k | 0 <= k < |idx| ensures idx[k] < |xs| && f(xs[idx[k]]) == Some(ys[k]) {
      if k < |head| {
        assert idx[k] == 0 && ys[k] == f(xs[0]).value;
      } else {
        var m := k - |head|;
        assert idx[k] == rest[m] + 1 && ys[k] == tail[m];
        assert xs[idx[k]] == xs[1..][rest[m]];
      }
    }
  }

  /** The source positions strictly increase: the output keeps the input order. */
  lemma {:induction false} SourcesIncrease<A, B>(xs: seq<A>, f: A -> Option<B>)
    ensures forall k, m :: 0 <= k < m < |Sources(xs, f)| ==> Sources(xs, f)[k] < Sources(xs, f)[m]
  {
    if xs != [] {
      SourcesIncrease(xs[1..], f);
    }
  }

  /** Every item that produces a value is represented: nothing is de-duplicated. */
  lemma {:induction false} SourcesComplete<A, B>(xs: seq<A>, f: A -> Option<B>)
    ensures forall j :: 0 <= j < |xs| && f(xs[j]).Some? ==> j in Sources(xs, f)
  {
    if xs != [] {
      SourcesComplete(xs[1..], f);
      var rest := Sources(xs[1..], f);
      forall j | 0 <= j < |xs| && f(xs[j]).Some? ensures j in Sources(xs, f) {
        if j > 0 {
          assert xs[1..][j - 1] == xs[j];
          var k :| 0 <= k < |rest| && rest[k] == j - 1;
          assert Shifted(rest)[k] == j;
        }
      }
    }
  }

  /** If every value `f` produces satisfies `P`, so does every output. */
  lemma {:induction false} FilterMapAll<A, B>(xs: seq<A>, f: A -> Option<B>, P: B -> bool)
    requires forall x :: f(x).Some? ==> P(f(x).value)
    ensures forall k :: 0 <= k < |FilterMap(xs, f)| ==> P(FilterMap(xs, f)[k])
  {
    if xs != [] {
      FilterMapAll(xs[1..], f, P);
      var e := Emit(f(xs[0]));
      var rest := FilterMap(xs[1..], f);
      forall k | 0 <= k < |e + rest| ensures P((e + rest)[k]) {
        if k >= |e| { assert (e + rest)[k] == rest[k - |e|]; }
      }
    }
  }
}
