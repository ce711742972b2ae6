/** The server's `activeUsers`: a JavaScript `Map` from socket id to user.
    A `Map` remembers the order in which keys were first set; `values()`,
    `entries()` and `forEach` follow that order. It is modelled as a Dafny
    map together with the sequence of its keys in insertion order. */
module Registry {
  import opened ChatTypes

  predicate Distinct(ids: seq<SocketId>) {
    forall i, j :: 0 <= i < j < |ids| ==> ids[i] != ids[j]
  }

  /** The keys of `users`, each once, in insertion order. */
  predicate Ordered(users: map<SocketId, User>, order: seq<SocketId>) {
    Distinct(order)
    && users.Keys == set s | s in order
  }

  /** `order` without `k`, the others keeping their relative order. */
  function Without(order: seq<SocketId>, k: SocketId): (r: seq<SocketId>)
    ensures k !in r
    ensures forall s :: s in r <==> s in order && s != k
    ensures k !in order ==> r == order
    ensures |r| <= |order|
  {
    if order == [] then []
    else if order[0] == k then Without(order[1..], k)
    else [order[0]] + Without(order[1..], k)
  }

  /** Removing a key from a concatenation removes it from each part: the
      remaining keys keep their relative order. */
  lemma {:induction false} WithoutAppend(a: seq<SocketId>, b: seq<SocketId>, k: SocketId)
    ensures Without(a + b, k) == Without(a, k) + Without(b, k)
  {
    if a == [] {
      assert a + b == b;
    } else {
      assert (a + b)[0] == a[0] && (a + b)[1..] == a[1..] + b;
      WithoutAppend(a[1..], b, k);
    }
  }

  /** Removing a key keeps the keys distinct. */
  lemma {:induction false} WithoutDistinct(order: seq<SocketId>, k: SocketId)
    requires Distinct(order)
    ensures Distinct(Without(order, k))
  {
    if order != [] {
      var t := order[1..];
      assert Distinct(t) by {
        forall i, j | 0 <= i < j < |t| ensures t[i] != t[j] { assert t[i] == order[i + 1] && t[j] == order[j + 1]; }
      }
      WithoutDistinct(t, k);
      assert order[0] !in t;
      if order[0] != k {
        var w := Without(t, k);
        var r := [order[0]] + w;
        assert Distinct(w);
        assert r[0] == order[0] && order[0] !in w;
        forall i, j | 0 <= i < j < |r| ensures r[i] != r[j] {
          if i == 0 { assert r[j] == w[j - 1] && r[j] in w; } else { assert r[i] == w[i - 1] && r[j] == w[j - 1]; }
        }
      }
    }
  }

  /** Distinct keys are as many as the positions they occupy. */
  lemma {:induction false} DistinctCard(order: seq<SocketId>)
    requires Distinct(order)
    ensures |set s | s in order| == |order|
  {
    if order != [] {
      var t := order[..|order| - 1];
      var last := order[|order| - 1];
      assert Distinct(t) by {
        forall i, j | 0 <= i < j < |t| ensures t[i] != t[j] { assert t[i] == order[i] && t[j] == order[j]; }
      }
      DistinctCard(t);
      assert last !in t;
      assert (set s | s in order) == (set s | s in t) + {last};
    }
  }

  /** `map.set(k, v)`: a new key goes to the end, a present one keeps its place. */
  function OrderAfterSet(order: seq<SocketId>, k: SocketId): (r: seq<SocketId>)
    ensures k in order ==> r == order
    ensures k !in order ==> r == order + [k]
  {
    if k in order then order else order + [k]
  }

  /** `Array.from(map.values())`: the users in insertion order. */
  function Roster(users: map<SocketId, User>, order: seq<SocketId>): (r: seq<User>)
    requires forall s :: s in order ==> s in users
    ensures |r| == |order|
    ensures forall i :: 0 <= i < |order| ==> r[i] == users[order[i]]
  {
    seq(|order|, i requires 0 <= i < |order| => users[order[i]])
  }

  /** `Array.from(map.entries()).find(([_, u]) => u.username === name)`:
      the socket of the first user, in insertion order, with that name. */
  function FindByName(users: map<SocketId, User>, order: seq<SocketId>, name: string): (r: Option<SocketId>)
    requires forall s :: s in order ==> s in users
    ensures r.None? <==> forall i :: 0 <= i < |order| ==> users[order[i]].username != name
    ensures r.Some? ==> r.value in order && users[r.value].username == name
    ensures r.Some? ==> exists i :: 0 <= i < |order| && order[i] == r.value
                          && forall j :: 0 <= j < i ==> users[order[j]].username != name
  {
    if order == [] then None
    else if users[order[0]].username == name then Some(order[0])
    else
      var rest := order[1..];
      var r := FindByName(users, rest, name);
      assert forall i :: 0 <= i < |rest| ==> rest[i] == order[i + 1];
      if r.Some? then
        var i :| 0 <= i < |rest| && rest[i] == r.value
                 && forall j :: 0 <= j < i ==> users[rest[j]].username != name;
        assert order[i + 1] == r.value;
        assert forall j :: 0 <= j < i + 1 ==> users[order[j]].username != name by {
          forall j | 0 <= j < i + 1 ensures users[order[j]].username != name {
            if j > 0 { assert order[j] == rest[j - 1]; }
          }
        }
        r
      else
        assert forall j :: 0 <= j < |order| ==> users[order[j]].username != name by {
          forall j | 0 <= j < |order| ensures users[order[j]].username != name {
            if j > 0 { assert order[j] == rest[j - 1]; }
          }
        }
        r
  }

  /** `map.set(k, v)` keeps the key order a faithful listing of the keys. */
  lemma OrderedAfterSet(users: map<SocketId, User>, order: seq<SocketId>, k: SocketId, v: User)
    requires Ordered(users, order)
    ensures Ordered(users[k := v], OrderAfterSet(order, k))
  {
    if k !in order {
      var r := order + [k];
      forall i, j | 0 <= i < j < |r| ensures r[i] != r[j] {
        if j == |order| { assert r[i] in order; }
      }
      assert (set s | s in r) == (set s | s in order) + {k};
    }
  }

  /** `map.delete(k)` likewise. */
  lemma OrderedAfterDelete(users: map<SocketId, User>, order: seq<SocketId>, k: SocketId)
    requires Ordered(users, order)
    ensures Ordered(users - {k}, Without(order, k))
  {
    WithoutDistinct(order, k);
    assert (set s | s in Without(order, k)) == (set s | s in order) - {k};
  }

  /** Every listed key's value appears in the roster. */
  lemma RosterHas(users: map<SocketId, User>, order: seq<SocketId>, k: SocketId)
    requires forall s :: s in order ==> s in users
    requires k in order
    ensures users[k] in Roster(users, order)
  {
    var i :| 0 <= i < |order| && order[i] == k;
    assert Roster(users, order)[i] == users[k];
  }

  /** `Array.from(map.values())` lists every user of the map, one entry per
      key: the roster is exactly as long as the map has keys. */
  lemma RosterCoversUsers(users: map<SocketId, User>, order: seq<SocketId>)
    requires Ordered(users, order)
    ensures |Roster(users, order)| == |users|
    ensures forall s :: s in users ==> users[s] in Roster(users, order)
  {
    DistinctCard(order);
    assert users.Keys == set s | s in order;
    forall s | s in users ensures users[s] in Roster(users, order) {
      RosterHas(users, order, s);
    }
  }
}
