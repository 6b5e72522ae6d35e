/** Small vocabulary shared by the models of the K8sWatch components. */
module Common {

  datatype Option<+T> = None | Some(value: T)

  /** A reading of the clock, in nanoseconds. */
  type Time = int

  /** How far a failure spreads, from one node to the whole cluster. */
  datatype BlastRadius = Node | Zone | Cluster

  function RadiusRank(r: BlastRadius): nat {
    match r case Node => 0 case Zone => 1 case Cluster => 2
  }

  function Min(a: int, b: int): int {
    if a <= b then a else b
  }

  function Max(a: int, b: int): int {
    if a <= b then b else a
  }

  /** Everything but the last element; the last element is the most recent. */
  function Front<T>(s: seq<T>): seq<T>
    requires s != []
  {
    s[..|s| - 1]
  }

  function Last<T>(s: seq<T>): T
    requires s != []
  {
    s[|s| - 1]
  }

  lemma RemoveOne<K, V>(m: map<K, V>, k: K)
    requires k in m
    ensures |m - {k}| == |m| - 1
  {
  }

  lemma {:induction false} SubsetSize<T>(a: set<T>, b: set<T>)
    requires a <= b
    ensures |a| <= |b| && (|a| == |b| <==> a == b)
    decreases a
  {
    if a != {} {
      var x :| x in a;
      SubsetSize(a - {x}, b - {x});
      assert a == a - {x} + {x} && b == b - {x} + {x};
    } else if b != {} {
      var x :| x in b;
      assert |b| == |b - {x}| + 1;
    }
  }

  /** A linear search, as the filters write it out. */
  method Contains<T(==)>(list: seq<T>, x: T) returns (found: bool)
    ensures found <==> x in list
  {
    for i := 0 to |list|
      invariant x !in list[..i]
    {
      if list[i] == x {
        return true;
      }
    }
    return false;
  }
}
