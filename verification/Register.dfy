/** A value that events overwrite or leave alone, and what it says about the events. */
module Register {

  datatype Write<+V> = Put(value: V) | Keep

  /** The register holds `vals[k]` before event `k` and `vals[k + 1]` after it. */
  ghost predicate Follows<V(!new)>(vals: seq<V>, evs: seq<Write<V>>) {
    && |vals| == |evs| + 1
    && forall k | 0 <= k < |evs| :: vals[k + 1] == (if evs[k].Put? then evs[k].value else vals[k])
  }

  /** Event `j` is the last write before point `n`. */
  predicate LastWrite<V>(evs: seq<Write<V>>, j: int, n: int) {
    && 0 <= j < n <= |evs|
    && evs[j].Put?
    && forall k | j < k < n :: evs[k].Keep?
  }

  /** Nothing is written before point `n`. */
  predicate Unwritten<V>(evs: seq<Write<V>>, n: int) {
    && 0 <= n <= |evs|
    && forall k | 0 <= k < n :: evs[k].Keep?
  }

  lemma {:induction false} WriteExists<V>(evs: seq<Write<V>>, n: nat)
    requires n <= |evs|
    ensures Unwritten(evs, n) || exists j :: LastWrite(evs, j, n)
  {
    if n > 0 {
      WriteExists(evs, n - 1);
      if evs[n - 1].Put? {
        assert LastWrite(evs, n - 1, n);
      } else if !Unwritten(evs, n - 1) {
        var j :| LastWrite(evs, j, n - 1);
        assert LastWrite(evs, j, n);
      }
    }
  }

  lemma {:induction false} KeptSince<V(!new)>(vals: seq<V>, evs: seq<Write<V>>, m: nat, n: nat)
    requires Follows(vals, evs) && m <= n <= |evs|
    requires forall k | m <= k < n :: evs[k].Keep?
    ensures vals[n] == vals[m]
    decreases n
  {
    if m < n {
      KeptSince(vals, evs, m, n - 1);
    }
  }

  /** A register holds its initial value or the value of its last write. */
  lemma Holds<V(!new)>(vals: seq<V>, evs: seq<Write<V>>, n: nat)
    requires Follows(vals, evs) && n <= |evs|
    ensures Unwritten(evs, n) || exists j :: LastWrite(evs, j, n)
    ensures Unwritten(evs, n) ==> vals[n] == vals[0]
    ensures forall j | LastWrite(evs, j, n) :: vals[n] == evs[j].value
  {
    WriteExists(evs, n);
    if Unwritten(evs, n) {
      KeptSince(vals, evs, 0, n);
    }
    forall j | LastWrite(evs, j, n)
      ensures vals[n] == evs[j].value
    {
      KeptSince(vals, evs, j + 1, n);
    }
  }
}
