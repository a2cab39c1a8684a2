/**
 * The two stream operators the saga steps apply to an already-ordered
 * sequence of items: the one-to-one `map`, and `concatMap` over a function
 * that yields at most one value per item (a `Mono`), which keeps the order
 * of the items and skips the ones that yield nothing.
 */
module Streams {
  import opened Wrappers

  /** `map`: exactly one output per input, in the same order. */
  function MapSeq<A, B>(f: A -> B, s: seq<A>): (r: seq<B>)
    ensures |r| == |s|
    ensures forall i :: 0 <= i < |s| ==> r[i] == f(s[i])
  {
    if s == [] then [] else MapSeq(f, s[..|s| - 1]) + [f(s[|s| - 1])]
  }

  /** `concatMap` over a `Mono`-returning function: the values of the non-empty results, in input order. */
  function ConcatMap<A, B>(f: A -> Option<B>, s: seq<A>): (r: seq<B>)
    ensures |r| <= |s|
    ensures (forall i :: 0 <= i < |s| ==> f(s[i]).Some?) ==>
              |r| == |s| && forall i :: 0 <= i < |s| ==> Some(r[i]) == f(s[i])
  {
    if s == [] then []
    else
      var last := s[|s| - 1];
      ConcatMap(f, s[..|s| - 1]) + (match f(last) case Some(b) => [b] case None => [])
  }

  /** A single item contributes its value, or nothing when its result is empty. */
  lemma ConcatMapOne<A, B>(f: A -> Option<B>, x: A)
    ensures ConcatMap(f, [x]) == match f(x) case Some(b) => [b] case None => []
  {
    assert [x][..0] == [];
  }

  /** The results of earlier items precede those of later items. */
  lemma {:induction false} ConcatMapAppend<A, B>(f: A -> Option<B>, s: seq<A>, t: seq<A>)
    ensures ConcatMap(f, s + t) == ConcatMap(f, s) + ConcatMap(f, t)
    decreases |t|
  {
    if t == [] {
      assert s + t == s;
    } else {
      var t' := t[..|t| - 1];
      assert (s + t)[..|s + t| - 1] == s + t';
      ConcatMapAppend(f, s, t');
    }
  }

  /** The one-to-one `map` commutes with concatenation. */
  lemma {:induction false} MapSeqAppend<A, B>(f: A -> B, s: seq<A>, t: seq<A>)
    ensures MapSeq(f, s + t) == MapSeq(f, s) + MapSeq(f, t)
  {
    var r, l := MapSeq(f, s + t), MapSeq(f, s) + MapSeq(f, t);
    assert |r| == |l|;
    forall i | 0 <= i < |r| ensures r[i] == l[i] {
      if i < |s| { assert (s + t)[i] == s[i]; } else { assert (s + t)[i] == t[i - |s|]; }
    }
  }
}
