/** A callable's signature as `inspect.Signature` (and i2's `Sig`) present
    it: an ordered list of parameters. */
module Signatures {
  import opened Results

  datatype Kind = PositionalOnly | PositionalOrKeyword | VarPositional | KeywordOnly | VarKeyword

  datatype Annotation = NoAnnotation | TypeName(name: string)

  /** A parameter; a default is kept as the text of its `repr`. */
  datatype Param = Param(name: string, kind: Kind, default: Option<string>, annotation: Annotation)

  /** `Sig(func).names` */
  function Names(sig: seq<Param>): (names: seq<string>)
    ensures |names| == |sig|
    ensures forall i :: 0 <= i < |sig| ==> names[i] == sig[i].name
  {
    if sig == [] then [] else [sig[0].name] + Names(sig[1..])
  }

  /** `a` is `b` with some elements left out, the rest in `b`'s order. */
  ghost predicate IsSubsequence(a: seq<string>, b: seq<string>)
  {
    if a == [] then true
    else if b == [] then false
    else if a[0] == b[0] then IsSubsequence(a[1..], b[1..])
    else IsSubsequence(a, b[1..])
  }

  /** Dropping the first element keeps a subsequence a subsequence. */
  lemma {:induction false} SubsequenceTail(a: seq<string>, b: seq<string>)
    requires a != [] && IsSubsequence(a, b)
    ensures IsSubsequence(a[1..], b)
    decreases |b|, 0
  {
    if b != [] && a[0] != b[0] {
      SubsequenceTail(a, b[1..]);
      SubsequencePrepend(a[1..], b[1..], b[0]);
    } else if b != [] {
      SubsequencePrepend(a[1..], b[1..], b[0]);
    }
  }

  /** An element put in front of the larger list keeps a subsequence one. */
  lemma {:induction false} SubsequencePrepend(a: seq<string>, b: seq<string>, x: string)
    requires IsSubsequence(a, b)
    ensures IsSubsequence(a, [x] + b)
    decreases |b|, 1
  {
    assert ([x] + b)[1..] == b;
    if a != [] && a[0] == x {
      SubsequenceTail(a, b);
    }
  }
}
