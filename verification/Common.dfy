/** Constants of the allocator and small definitions that several components need. */
module Common {

  const SBSIZE: nat := 65536
  const NLIST: nat := 160

  datatype Option<T> = None | Some(value: T)

  predicate Ascending(q: seq<nat>) {
    forall i, j :: 0 <= i < j < |q| ==> q[i] < q[j]
  }
}
