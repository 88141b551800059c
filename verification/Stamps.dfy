/** Stamps, transaction states and small helpers shared by the engine models. */
module Stamps {
  // A fat pointer as stored in `clsn` or `sstamp`: null, an in-flight XID, or a log offset.
  datatype Stamp = Null | Xid(t: nat) | Lsn(n: nat)

  // A version by record and position in the record's chain, oldest first.
  datatype Vid = Vid(o: nat, i: nat)

  datatype Status = Active | Committing | Cmmtd | Abrtd

  function Elems<T(==)>(q: seq<T>): set<T> {
    set x | x in q
  }

  ghost predicate NoDup<T>(q: seq<T>) {
    forall i, j :: 0 <= i < j < |q| ==> q[i] != q[j]
  }

  function Max(a: nat, b: nat): nat { if a < b then b else a }

  function Min(a: nat, b: nat): nat { if a < b then a else b }
}
