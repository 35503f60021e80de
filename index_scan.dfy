/** `IDBIndex.getAll(value)` on an auto-increment store: the records whose
    index value equals the query, in ascending primary-key order (an index is
    ordered by index value, then by primary key). Keys are generated from 1,
    so the scan walks keys 1 .. hi-1, where hi is the store's next key. */
module IndexScan {

  function Scan<T>(m: map<int, T>, owner: T -> string, e: string, hi: int): (r: seq<T>)
    ensures forall i :: 0 <= i < |r| ==> owner(r[i]) == e
    decreases hi
  {
    if hi <= 1 then []
    else
      var last := if hi - 1 in m && owner(m[hi - 1]) == e then [m[hi - 1]] else [];
      Scan(m, owner, e, hi - 1) + last
  }

  /** The keys whose records the scan yields. */
  function MatchingKeys<T>(m: map<int, T>, owner: T -> string, e: string, hi: int): set<int> {
    set k | k in m && 1 <= k < hi && owner(m[k]) == e
  }

  /** The scan yields exactly the records with index value `e`, and nothing else. */
  lemma {:induction false} ScanMembers<T>(m: map<int, T>, owner: T -> string, e: string, hi: int, x: T)
    ensures x in Scan(m, owner, e, hi) <==> exists k :: k in MatchingKeys(m, owner, e, hi) && m[k] == x
    decreases hi
  {
    if hi > 1 {
      ScanMembers(m, owner, e, hi - 1, x);
      if hi - 1 in m && owner(m[hi - 1]) == e && m[hi - 1] == x {
        assert hi - 1 in MatchingKeys(m, owner, e, hi);
      }
      if x in Scan(m, owner, e, hi - 1) {
        var k :| k in MatchingKeys(m, owner, e, hi - 1) && m[k] == x;
        assert k in MatchingKeys(m, owner, e, hi);
      }
      if exists k :: k in MatchingKeys(m, owner, e, hi) && m[k] == x {
        var k :| k in MatchingKeys(m, owner, e, hi) && m[k] == x;
        if k < hi - 1 {
          assert k in MatchingKeys(m, owner, e, hi - 1);
        }
      }
    }
  }

  /** When every record carries its own key, the scan is strictly ascending
      in that key, every key lies in [1, hi), and every record yielded has
      index value `e`. */
  lemma {:induction false} ScanSorted<T>(m: map<int, T>, owner: T -> string, key: T -> int, e: string, hi: int)
    requires forall k :: k in m ==> key(m[k]) == k
    ensures forall i :: 0 <= i < |Scan(m, owner, e, hi)| ==>
      var x := Scan(m, owner, e, hi)[i];
      1 <= key(x) < hi && key(x) in m && m[key(x)] == x && owner(x) == e
    ensures forall i, j :: 0 <= i < j < |Scan(m, owner, e, hi)| ==>
      key(Scan(m, owner, e, hi)[i]) < key(Scan(m, owner, e, hi)[j])
    decreases hi
  {
    if hi > 1 {
      ScanSorted(m, owner, key, e, hi - 1);
    }
  }

  /** The scan has one entry per matching key, so its length is the number of
      matching records. */
  lemma {:induction false} ScanCount<T>(m: map<int, T>, owner: T -> string, e: string, hi: int)
    ensures |Scan(m, owner, e, hi)| == |MatchingKeys(m, owner, e, hi)|
    decreases hi
  {
    if hi > 1 {
      ScanCount(m, owner, e, hi - 1);
      var before := MatchingKeys(m, owner, e, hi - 1);
      if hi - 1 in m && owner(m[hi - 1]) == e {
        assert MatchingKeys(m, owner, e, hi) == before + {hi - 1};
      } else {
        assert MatchingKeys(m, owner, e, hi) == before;
      }
    } else {
      assert MatchingKeys(m, owner, e, hi) == {};
    }
  }

  /** The scan depends only on the records below `hi`. */
  lemma {:induction false} ScanFrame<T>(m1: map<int, T>, m2: map<int, T>, owner: T -> string, e: string, hi: int)
    requires forall k :: 1 <= k < hi ==> (k in m1 <==> k in m2)
    requires forall k :: 1 <= k < hi && k in m1 ==> m1[k] == m2[k]
    ensures Scan(m1, owner, e, hi) == Scan(m2, owner, e, hi)
    decreases hi
  {
    if hi > 1 {
      ScanFrame(m1, m2, owner, e, hi - 1);
    }
  }

  /** Scanning past the last key adds nothing. */
  lemma {:induction false} ScanBeyond<T>(m: map<int, T>, owner: T -> string, e: string, lo: int, hi: int)
    requires lo <= hi
    requires forall k :: k in m ==> k < lo
    ensures Scan(m, owner, e, hi) == Scan(m, owner, e, lo)
    decreases hi
  {
    if hi > lo && hi > 1 {
      ScanBeyond(m, owner, e, lo, hi - 1);
    }
  }

  /** Adding a record under a fresh key above every existing key appends it to
      the scan of its owner and leaves the scans of other owners alone. */
  lemma ScanAddLast<T>(m: map<int, T>, owner: T -> string, e: string, k: int, x: T)
    requires 1 <= k
    requires forall j :: j in m ==> j < k
    ensures Scan(m[k := x], owner, e, k + 1)
      == Scan(m, owner, e, k) + (if owner(x) == e then [x] else [])
  {
    ScanFrame(m[k := x], m, owner, e, k);
  }
}
