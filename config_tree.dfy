/** Nested configuration mappings of extrude/base.py: the mall, the light
    mall a service publishes, and the front-end's `config` dict. A node is
    either a plain value or a dict of nodes. Path access is what `glom` does
    on such dicts: `Lookup` for `glom.glom(target, path, default=...)` and
    `Assign` for `glom.assign(target, path, value, missing=dict)`. */
module ConfigTree {
  import opened Results
  import opened Dicts

  /** The plain values that occur in these mappings. */
  datatype Scalar =
    | NoneV
    | BoolV(b: bool)
    | IntV(i: int)
    | StrV(s: string)
    | StrList(items: seq<string>)
    | ClassRef(qualname: string)

  datatype Node = Leaf(v: Scalar) | Map(entries: Dict<Node>)

  // ---------------------------------------------------------------------
  // Paths

  /** The node at `path`, if every step goes through a dict that has the key. */
  function Lookup(n: Node, path: seq<string>): Option<Node>
    decreases path
  {
    if path == [] then Some(n)
    else
      match n
      case Leaf(_) => None
      case Map(es) => if HasKey(es, path[0]) then Lookup(Get(es, path[0]), path[1..]) else None
  }

  /** `glom.assign(n, path, v, missing=dict)`: missing dicts on the way are
      created; a plain value on the way makes the assignment fail. */
  function Assign(n: Node, path: seq<string>, v: Node): Result<Node, seq<string>>
    requires |path| > 0
    decreases path
  {
    match n
    case Leaf(_) => Err(path)
    case Map(es) =>
      if |path| == 1 then Ok(Map(Put(es, path[0], v)))
      else
        match Assign(GetOr(es, path[0], Map([])), path[1..], v)
        case Ok(child) => Ok(Map(Put(es, path[0], child)))
        case Err(e) => Err(e)
  }

  /** Neither path is a prefix of the other. */
  predicate Diverge(p: seq<string>, q: seq<string>)
  {
    |p| > 0 && |q| > 0 && (p[0] != q[0] || Diverge(p[1..], q[1..]))
  }

  /** The node at the empty dict's non-empty paths is absent. */
  lemma LookupEmpty(q: seq<string>)
    requires |q| > 0
    ensures Lookup(Map([]), q) == None
  {
  }

  /** After an assignment the path holds the assigned node. */
  lemma {:induction false} AssignLookupSame(n: Node, path: seq<string>, v: Node)
    requires |path| > 0 && Assign(n, path, v).Ok?
    ensures Lookup(Assign(n, path, v).value, path) == Some(v)
    decreases path
  {
    if |path| > 1 {
      var es := n.entries;
      AssignLookupSame(GetOr(es, path[0], Map([])), path[1..], v);
    }
  }

  /** An assignment leaves every path that diverges from its own untouched. */
  lemma {:induction false} AssignLookupDiverge(n: Node, path: seq<string>, v: Node, q: seq<string>)
    requires |path| > 0 && Assign(n, path, v).Ok? && Diverge(path, q)
    ensures Lookup(Assign(n, path, v).value, q) == Lookup(n, q)
    decreases path
  {
    var es := n.entries;
    if path[0] == q[0] && |path| > 1 {
      var child := GetOr(es, path[0], Map([]));
      AssignLookupDiverge(child, path[1..], v, q[1..]);
      if !HasKey(es, path[0]) {
        LookupEmpty(q[1..]);
      }
    }
  }

  /** The node at path `q` exists and is a plain value. */
  predicate LeadsToLeaf(n: Node, q: seq<string>)
  {
    Lookup(n, q).Some? && Lookup(n, q).value.Leaf?
  }

  /** The assignment fails exactly when some proper prefix of the path
      leads to a plain value. */
  lemma {:induction false} AssignFails(n: Node, path: seq<string>, v: Node)
    requires |path| > 0
    ensures Assign(n, path, v).Err? <==> exists k :: 0 <= k < |path| && LeadsToLeaf(n, path[..k])
    decreases path
  {
    match n
    case Leaf(_) =>
      assert LeadsToLeaf(n, path[..0]);
    case Map(es) =>
      if |path| == 1 {
        forall k | 0 <= k < |path| ensures !LeadsToLeaf(n, path[..k]) {
          assert path[..k] == [];
        }
      } else {
        var child := GetOr(es, path[0], Map([]));
        AssignFails(child, path[1..], v);
        LeafOnPathStep(es, path);
        if !HasKey(es, path[0]) {
          forall k | 0 <= k < |path[1..]| ensures !LeadsToLeaf(child, path[1..][..k]) {
            if k > 0 {
              LookupEmpty(path[1..][..k]);
            }
          }
        }
      }
  }

  /** Below the first step, a path leads through a leaf of a dict exactly
      when the first key is present and the rest of the path leads through
      a leaf of its value. */
  lemma LeafOnPathStep(es: Dict<Node>, path: seq<string>)
    requires |path| > 1
    ensures (exists k :: 0 <= k < |path| && LeadsToLeaf(Map(es), path[..k])) <==>
              HasKey(es, path[0]) && exists k :: 0 <= k < |path[1..]| && LeadsToLeaf(Get(es, path[0]), path[1..][..k])
  {
    assert !LeadsToLeaf(Map(es), path[..0]);
    forall k | 1 <= k < |path|
      ensures LeadsToLeaf(Map(es), path[..k]) <==> HasKey(es, path[0]) && LeadsToLeaf(Get(es, path[0]), path[1..][..k - 1])
    {
      assert path[..k][0] == path[0];
      assert path[..k][1..] == path[1..][..k - 1];
    }
    if HasKey(es, path[0]) {
      var child := Get(es, path[0]);
      if exists k :: 0 <= k < |path[1..]| && LeadsToLeaf(child, path[1..][..k]) {
        var k :| 0 <= k < |path[1..]| && LeadsToLeaf(child, path[1..][..k]);
        assert LeadsToLeaf(Map(es), path[..k + 1]);
      }
    }
  }

  // ---------------------------------------------------------------------
  // remove_values

  /** A value of a mapping with its contents erased: a dict is kept with
      its keys and its values erased, anything else becomes `None`. */
  function Erase(n: Node): Node
  {
    match n
    case Leaf(_) => Leaf(NoneV)
    case Map(es) => Map(seq(|es|, i requires 0 <= i < |es| => (es[i].0, Erase(es[i].1))))
  }

  /** `remove_values(mapping)` */
  function RemoveValues(mapping: Dict<Node>): Dict<Node>
  {
    Erase(Map(mapping)).entries
  }

  /** Every plain value in the tree is `None`. */
  ghost predicate AllLeavesNone(n: Node)
  {
    match n
    case Leaf(v) => v == NoneV
    case Map(es) => forall i :: 0 <= i < |es| ==> AllLeavesNone(es[i].1)
  }

  /** `remove_values` keeps the keys and their order, recurses into every
      dict value and turns every other value into `None`. */
  lemma RemoveValuesShape(mapping: Dict<Node>)
    ensures Keys(RemoveValues(mapping)) == Keys(mapping)
    ensures forall i :: 0 <= i < |mapping| ==>
              RemoveValues(mapping)[i].1 ==
                (if mapping[i].1.Map? then Map(RemoveValues(mapping[i].1.entries)) else Leaf(NoneV))
  {
    var r := RemoveValues(mapping);
    forall i | 0 <= i < |mapping|
      ensures r[i].0 == mapping[i].0
      ensures r[i].1 == (if mapping[i].1.Map? then Map(RemoveValues(mapping[i].1.entries)) else Leaf(NoneV))
    {
      assert r[i] == (mapping[i].0, Erase(mapping[i].1));
      if mapping[i].1.Map? {
        assert mapping[i].1 == Map(mapping[i].1.entries);
      }
    }
    assert Keys(r) == Keys(mapping);
  }

  /** Reading a key of an erased dict gives the erased value. */
  lemma {:induction false} EraseGet(es: Dict<Node>, k: string)
    ensures HasKey(Erase(Map(es)).entries, k) <==> HasKey(es, k)
    ensures HasKey(es, k) ==> Get(Erase(Map(es)).entries, k) == Erase(Get(es, k))
  {
    var er := Erase(Map(es)).entries;
    assert Keys(er) == Keys(es);
    if es != [] && es[0].0 != k {
      assert er[1..] == Erase(Map(es[1..])).entries;
      EraseGet(es[1..], k);
    }
  }

  /** Erasing keeps exactly the paths of the tree, at every nesting level,
      and what is found at a path is the erased original. */
  lemma {:induction false} ErasePaths(n: Node, q: seq<string>)
    ensures Lookup(Erase(n), q).Some? <==> Lookup(n, q).Some?
    ensures Lookup(n, q).Some? ==> Lookup(Erase(n), q) == Some(Erase(Lookup(n, q).value))
    decreases q
  {
    if q != [] && n.Map? {
      EraseGet(n.entries, q[0]);
      if HasKey(n.entries, q[0]) {
        ErasePaths(Get(n.entries, q[0]), q[1..]);
      }
    }
  }

  /** Every leaf of an erased tree is `None`. */
  lemma {:induction false} EraseLeavesNone(n: Node)
    ensures AllLeavesNone(Erase(n))
  {
    match n
    case Leaf(_) =>
    case Map(es) =>
      forall i | 0 <= i < |es| ensures AllLeavesNone(Erase(n).entries[i].1) {
        EraseLeavesNone(es[i].1);
      }
  }

  /** A tree whose leaves are all `None` is its own erasure. */
  lemma {:induction false} EraseNoneTree(n: Node)
    requires AllLeavesNone(n)
    ensures Erase(n) == n
  {
    match n
    case Leaf(_) =>
    case Map(es) =>
      forall i | 0 <= i < |es| ensures Erase(n).entries[i] == es[i] {
        EraseNoneTree(es[i].1);
      }
  }

  /** `remove_values` is idempotent. */
  lemma RemoveValuesIdempotent(mapping: Dict<Node>)
    ensures RemoveValues(RemoveValues(mapping)) == RemoveValues(mapping)
  {
    EraseLeavesNone(Map(mapping));
    EraseNoneTree(Erase(Map(mapping)));
  }
}
