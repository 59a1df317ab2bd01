/**
  The relational vocabulary shared by every table of the local store: a table is a finite map
  from primary key to row, `ORDER BY id ASC` / `ORDER BY id DESC` listings, the REPLACE and
  ABORT conflict strategies, and the choice of a fresh autogenerated key.
 */
module Tables {

  /** A table whose every row is stored under its own primary key. */
  ghost predicate KeyedBy<T>(m: map<int, T>, key: T -> int) {
    forall k :: k in m ==> key(m[k]) == k
  }

  predicate StrictlyIncreasing(s: seq<int>) {
    forall i, j :: 0 <= i < j < |s| ==> s[i] < s[j]
  }

  predicate StrictlyDecreasing(s: seq<int>) {
    forall i, j :: 0 <= i < j < |s| ==> s[i] > s[j]
  }

  /** A non-empty set has a member. */
  lemma NonEmptyHasMember(s: set<int>)
    requires s != {}
    ensures exists x :: x in s
  {
    if forall x :: x !in s { assert false; }
  }

  lemma {:induction false} MinExists(ks: set<int>)
    requires ks != {}
    ensures exists m :: m in ks && forall k :: k in ks ==> m <= k
    decreases ks
  {
    NonEmptyHasMember(ks);
    var x :| x in ks;
    var rest := ks - {x};
    if rest == {} {
      assert ks == {x};
      assert forall k :: k in ks ==> x <= k;
    } else {
      MinExists(rest);
      var m :| m in rest && forall k :: k in rest ==> m <= k;
      if x < m {
        assert forall k :: k in ks ==> x <= k by {
          forall k | k in ks ensures x <= k { if k != x { assert k in rest; } }
        }
      } else {
        assert forall k :: k in ks ==> m <= k by {
          forall k | k in ks ensures m <= k { if k != x { assert k in rest; } }
        }
      }
    }
  }

  /** The least key of a non-empty key set. */
  function Min(ks: set<int>): (m: int)
    requires ks != {}
    ensures m in ks && forall k :: k in ks ==> m <= k
  {
    MinExists(ks);
    var m :| m in ks && forall k :: k in ks ==> m <= k;
    m
  }

  /** The keys of a table in `ORDER BY id ASC` order. */
  function Ascending(ks: set<int>): (r: seq<int>)
    ensures |r| == |ks|
    ensures forall k :: k in r <==> k in ks
    ensures StrictlyIncreasing(r)
    decreases ks
  {
    if ks == {} then []
    else
      var m := Min(ks);
      [m] + Ascending(ks - {m})
  }

  /** Any strictly increasing enumeration of a key set is its ascending listing. */
  lemma {:induction false} AscendingUnique(ks: set<int>, s: seq<int>)
    requires StrictlyIncreasing(s)
    requires forall k :: k in s <==> k in ks
    ensures Ascending(ks) == s
    decreases ks
  {
    if s == [] {
      if ks != {} { NonEmptyHasMember(ks); assert false; }
    } else {
      assert s[0] in s;
      var m := Min(ks);
      HeadIsMin(ks, s);
      var rest := s[1..];
      assert StrictlyIncreasing(rest);
      forall k ensures k in rest <==> k in ks - {m} {
        assert k in s <==> k == s[0] || k in rest by { assert s == [s[0]] + rest; }
        if k in rest {
          var i :| 0 <= i < |rest| && rest[i] == k;
          assert s[0] < s[i + 1];
        }
      }
      AscendingUnique(ks - {m}, rest);
      assert s == [m] + rest;
    }
  }

  lemma HeadIsMin(ks: set<int>, s: seq<int>)
    requires StrictlyIncreasing(s) && s != [] && ks != {}
    requires forall k :: k in s <==> k in ks
    ensures s[0] == Min(ks)
  {
    var m := Min(ks);
    assert m in s;
    var i :| 0 <= i < |s| && s[i] == m;
    assert s[0] in ks;
  }

  /** The rows stored under the given keys, in the order of the keys. */
  function RowsAt<T>(m: map<int, T>, ks: seq<int>): (r: seq<T>)
    requires forall i :: 0 <= i < |ks| ==> ks[i] in m
    ensures |r| == |ks| && forall i :: 0 <= i < |ks| ==> r[i] == m[ks[i]]
  {
    seq(|ks|, i requires 0 <= i < |ks| => m[ks[i]])
  }

  /** `SELECT * ... ORDER BY id ASC` over a whole table. */
  function RowsAscending<T(==,!new)>(m: map<int, T>, ghost key: T -> int): (r: seq<T>)
    requires KeyedBy(m, key)
    ensures |r| == |m|
    ensures forall x :: x in r <==> x in m.Values
    ensures forall i, j :: 0 <= i < j < |r| ==> key(r[i]) < key(r[j])
  {
    var ks := Ascending(m.Keys);
    var r := RowsAt(m, ks);
    assert forall x :: x in m.Values ==> x in r by {
      forall x | x in m.Values ensures x in r {
        var k :| k in m && m[k] == x;
        var i :| 0 <= i < |ks| && ks[i] == k;
        assert r[i] == x;
      }
    }
    r
  }

  /** A listing read back to front. */
  function Reverse<T>(s: seq<T>): (r: seq<T>)
    ensures |r| == |s| && forall i :: 0 <= i < |s| ==> r[i] == s[|s| - 1 - i]
  {
    seq(|s|, i requires 0 <= i < |s| => s[|s| - 1 - i])
  }

  lemma ReverseFlipsOrder<T>(up: seq<T>, key: T -> int)
    requires forall i, j :: 0 <= i < j < |up| ==> key(up[i]) < key(up[j])
    ensures forall x :: x in Reverse(up) <==> x in up
    ensures forall i, j :: 0 <= i < j < |up| ==> key(Reverse(up)[i]) > key(Reverse(up)[j])
  {
    var r := Reverse(up);
    var n := |up|;
    forall i, j | 0 <= i < j < n ensures key(r[i]) > key(r[j]) {
      assert r[i] == up[n - 1 - i] && r[j] == up[n - 1 - j];
    }
    forall x | x in up ensures x in r {
      var i :| 0 <= i < n && up[i] == x;
      assert r[n - 1 - i] == x;
    }
  }

  /** `SELECT * ... ORDER BY id DESC` over a whole table: the ascending listing reversed. */
  function RowsDescending<T(==,!new)>(m: map<int, T>, ghost key: T -> int): (r: seq<T>)
    requires KeyedBy(m, key)
    ensures |r| == |m|
    ensures forall x :: x in r <==> x in m.Values
    ensures forall i, j :: 0 <= i < j < |r| ==> key(r[i]) > key(r[j])
  {
    var up := RowsAscending(m, key);
    ReverseFlipsOrder(up, key);
    Reverse(up)
  }

  /** The rows of a table that satisfy a `WHERE` clause. */
  function Where<T>(m: map<int, T>, p: T -> bool): (w: map<int, T>)
    ensures w.Keys <= m.Keys
    ensures forall k :: k in w <==> k in m && p(m[k])
    ensures forall k :: k in w ==> w[k] == m[k]
  {
    map k | k in m && p(m[k]) :: m[k]
  }

  /**
    The map that a list of rows inserted one after another with the REPLACE strategy leaves
    behind.
   */
  function ByKey<T>(rows: seq<T>, key: T -> int): (m: map<int, T>)
    ensures KeyedBy(m, key)
  {
    if rows == [] then map[]
    else ByKey(rows[..|rows| - 1], key)[key(rows[|rows| - 1]) := rows[|rows| - 1]]
  }

  /** The keys of the map are exactly the keys of the given rows. */
  lemma {:induction false} ByKeyKeys<T>(rows: seq<T>, key: T -> int)
    ensures forall k :: k in ByKey(rows, key) <==> exists i :: 0 <= i < |rows| && key(rows[i]) == k
  {
    if rows != [] {
      var front := rows[..|rows| - 1];
      ByKeyKeys(front, key);
      forall k | k in ByKey(rows, key) ensures exists i :: 0 <= i < |rows| && key(rows[i]) == k {
        if k != key(rows[|rows| - 1]) {
          assert k in ByKey(front, key);
          var i :| 0 <= i < |front| && key(front[i]) == k;
          assert key(rows[i]) == k;
        }
      }
    }
  }

  /** Each key holds the LAST row given for it. */
  lemma {:induction false} ByKeyLastWins<T>(rows: seq<T>, key: T -> int, i: int)
    requires 0 <= i < |rows|
    requires forall j :: i < j < |rows| ==> key(rows[j]) != key(rows[i])
    ensures key(rows[i]) in ByKey(rows, key) && ByKey(rows, key)[key(rows[i])] == rows[i]
    decreases |rows|
  {
    if i < |rows| - 1 {
      ByKeyLastWins(rows[..|rows| - 1], key, i);
    }
  }

  /** Overwriting one key after a union is the union with the overwrite. */
  lemma UnionThenUpdate<T>(a: map<int, T>, b: map<int, T>, k: int, v: T)
    ensures (a + b)[k := v] == a + b[k := v]
  {
  }

  /** Inserting one more row overwrites its key and nothing else. */
  lemma ByKeySnoc<T>(rows: seq<T>, x: T, key: T -> int)
    ensures ByKey(rows + [x], key) == ByKey(rows, key)[key(x) := x]
  {
    assert (rows + [x])[..|rows|] == rows;
  }

  /** Four rows inserted one after another, written out. */
  lemma ByKeyOfFour<T>(a: T, b: T, c: T, d: T, key: T -> int)
    ensures ByKey([a, b, c, d], key) == map[key(a) := a][key(b) := b][key(c) := c][key(d) := d]
  {
    ByKeySnoc([], a, key);
    ByKeySnoc([a], b, key);
    ByKeySnoc([a, b], c, key);
    ByKeySnoc([a, b, c], d, key);
    assert [a, b, c, d] == [a, b, c] + [d] && [a, b, c] == [a, b] + [c] && [a, b] == [a] + [b] && [a] == [] + [a];
  }

  /** Two listings ordered strictly by key that hold the same rows are the same listing. */
  lemma {:induction false} OrderedListingUnique<T(!new)>(a: seq<T>, b: seq<T>, key: T -> int)
    requires forall i, j :: 0 <= i < j < |a| ==> key(a[i]) < key(a[j])
    requires forall i, j :: 0 <= i < j < |b| ==> key(b[i]) < key(b[j])
    requires forall x :: x in a <==> x in b
    ensures a == b
    decreases |a|
  {
    if a != [] {
      assert a[0] in a;
      assert b != [];
      assert b[0] in b;
      assert a[0] == b[0] by {
        var i :| 0 <= i < |b| && b[i] == a[0];
        var j :| 0 <= j < |a| && a[j] == b[0];
      }
      forall x ensures x in a[1..] <==> x in b[1..] {
        assert a == [a[0]] + a[1..] && b == [b[0]] + b[1..];
        if x in a[1..] {
          var i :| 0 <= i < |a[1..]| && a[1..][i] == x;
          assert key(a[0]) < key(a[i + 1]);
          assert x in b && x != b[0];
          var k :| 0 <= k < |b| && b[k] == x;
          assert b[1..][k - 1] == x;
        }
        if x in b[1..] {
          var i :| 0 <= i < |b[1..]| && b[1..][i] == x;
          assert key(b[0]) < key(b[i + 1]);
          assert x in a && x != a[0];
          var k :| 0 <= k < |a| && a[k] == x;
          assert a[1..][k - 1] == x;
        }
      }
      OrderedListingUnique(a[1..], b[1..], key);
      assert a == [a[0]] + a[1..] && b == [b[0]] + b[1..];
    }
  }

  lemma UnionAssociates<T>(a: map<int, T>, b: map<int, T>, c: map<int, T>)
    ensures a + (b + c) == (a + b) + c
  {
  }

  /** Inserting two lists one after the other leaves what inserting their concatenation does. */
  lemma {:induction false} ByKeyAppend<T>(a: seq<T>, b: seq<T>, key: T -> int)
    ensures ByKey(a + b, key) == ByKey(a, key) + ByKey(b, key)
    decreases |b|
  {
    if b == [] {
      assert a + b == a;
    } else {
      var front := b[..|b| - 1];
      var last := b[|b| - 1];
      assert (a + b)[..|a + b| - 1] == a + front;
      assert (a + b)[|a + b| - 1] == last;
      calc {
        ByKey(a + b, key);
        ByKey(a + front, key)[key(last) := last];
        { ByKeyAppend(a, front, key); }
        (ByKey(a, key) + ByKey(front, key))[key(last) := last];
        ByKey(a, key) + ByKey(front, key)[key(last) := last];
        ByKey(a, key) + ByKey(b, key);
      }
    }
  }

  /** A finite key set always leaves some positive key free: one above the largest. */
  lemma FreshKeyExists(ks: set<int>)
    ensures exists k :: k > 0 && k !in ks
  {
    if ks == {} {
      assert 1 !in ks;
    } else {
      var n := Ascending(ks);
      var top := if n[|n| - 1] < 0 then 1 else n[|n| - 1] + 1;
      assert forall i :: 0 <= i < |n| ==> n[i] < top;
      assert top !in ks;
    }
  }

  /**
    The key an insert stores its row under: the row's own id when it is set, otherwise an
    autogenerated positive key that the table does not use yet.
   */
  method AssignedKey<T>(m: map<int, T>, requested: int) returns (id: int)
    ensures requested != 0 ==> id == requested
    ensures requested == 0 ==> id > 0 && id !in m
  {
    if requested != 0 {
      id := requested;
    } else {
      FreshKeyExists(m.Keys);
      id :| id > 0 && id !in m.Keys;
    }
  }

  /**
    An insert with the REPLACE strategy on a table with a unique index: every row that clashes
    with the new one on the index is deleted, then the new row is stored under `id`,
    overwriting any row already stored there.
   */
  function ReplaceRow<T>(m: map<int, T>, id: int, row: T, clash: T -> bool): (r: map<int, T>)
    ensures id in r && r[id] == row
    ensures forall k :: k in r <==> k == id || (k in m && !clash(m[k]))
    ensures forall k :: k in r && k != id ==> r[k] == m[k]
  {
    Where(m, (x: T) => !clash(x))[id := row]
  }
}
