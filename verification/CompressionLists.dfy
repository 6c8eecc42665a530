/** The lists of pods that the loops of the compression simulator build up and take down. */
module CompressionLists {
  import opened Kube
  import opened NodeFilters
  import opened Compression
  import opened CompressionInvariant

  /** The movable pods of a list, in its order. */
  function MovableOf(ps: seq<Pod>): seq<Pod> {
    if ps == [] then []
    else MovableOf(ps[..|ps| - 1]) + (if Movable(ps[|ps| - 1]) then [ps[|ps| - 1]] else [])
  }

  lemma {:induction false} MovableOfMembers(ps: seq<Pod>)
    ensures forall p :: p in MovableOf(ps) <==> p in ps && Movable(p)
  {
    if ps == [] {
    } else {
      assert ps == ps[..|ps| - 1] + [ps[|ps| - 1]];
      MovableOfMembers(ps[..|ps| - 1]);
    }
  }

  lemma {:induction false} MovableOfDistinct(ps: seq<Pod>)
    requires DistinctKeys(ps)
    ensures DistinctKeys(MovableOf(ps))
  {
    if ps == [] {
    } else {
      var front := ps[..|ps| - 1];
      MovableOfDistinct(front);
      MovableOfMembers(front);
      forall i | 0 <= i < |MovableOf(front)| ensures KeyOf(MovableOf(front)[i]) != KeyOf(ps[|ps| - 1]) {
        assert MovableOf(front)[i] in front;
      }
    }
  }

  lemma MovableOfLists(ps: seq<Pod>, pods: map<Key, Pod>, node: string)
    requires ListsPodsOn(ps, pods, node)
    ensures ListsMovable(MovableOf(ps), pods, node)
  {
    MovableOfMembers(ps);
    MovableOfDistinct(ps);
    var ms := MovableOf(ps);
    forall i | 0 <= i < |ms| ensures On(pods, KeyOf(ms[i]), node) && pods[KeyOf(ms[i])] == ms[i] && Movable(ms[i]) {
      assert ms[i] in ms;
      var j :| 0 <= j < |ps| && ps[j] == ms[i];
    }
    forall k | On(pods, k, node) && Movable(pods[k]) ensures k in KeysOf(ms) {
      var p :| p in ps && KeyOf(p) == k;
      assert p in ms;
    }
  }

  lemma FirstIsFresh(created: seq<Pod>, pods: map<Key, Pod>, node: string)
    requires ListsMovable(created, pods, node) && |created| > 0
    requires forall k :: k in pods ==> KeyOf(pods[k]) == k && k.namespace != ""
    ensures created[0].namespace != "" && KeyOf(created[0]) !in pods - KeysOf(created)
  {
  }

  lemma MovableOfFresh(ps: seq<Pod>, i: nat)
    requires DistinctKeys(ps) && i < |ps|
    ensures KeyOf(ps[i]) !in KeysOf(MovableOf(ps[..i]))
  {
    MovableOfMembers(ps[..i]);
  }

  lemma DeleteOne(pods: map<Key, Pod>, gone: seq<Pod>, p: Pod)
    ensures KeysOf(gone + [p]) == KeysOf(gone) + {KeyOf(p)}
    ensures pods - KeysOf(gone) - {KeyOf(p)} == pods - KeysOf(gone + [p])
  {
  }

  lemma DeleteBackwards(pods: map<Key, Pod>, created: seq<Pod>, index: nat, end: nat)
    requires DistinctKeys(created) && index < end <= |created|
    ensures var rest := pods - KeysOf(created[index + 1..end]);
      && rest - {KeyOf(created[index])} == pods - KeysOf(created[index..end])
      && (KeyOf(created[index]) in rest <==> KeyOf(created[index]) in pods)
  {
  }

  lemma PrefixFresh(ps: seq<Pod>, end: nat, i: nat)
    requires DistinctKeys(ps) && end <= i < |ps|
    ensures KeyOf(ps[i]) !in KeysOf(ps[..end])
  {
  }

  lemma CreateForwards(pods: map<Key, Pod>, created: seq<Pod>, end: nat, i: nat)
    requires DistinctKeys(created) && end <= |created| && i < |created|
    ensures var now := (pods - KeysOf(created[..end])) + AsMap(created[..i]);
      && now[KeyOf(created[i]) := created[i]] == (pods - KeysOf(created[..end])) + AsMap(created[..i + 1])
      && (KeyOf(created[i]) in now <==> i >= end && KeyOf(created[i]) in pods)
  {
    assert created[..i + 1][..i] == created[..i];
    AsMapOf(created[..i]);
    PrefixFresh(created, i, i);
    if i < end {
      assert created[..end][i] == created[i];
    } else {
      PrefixFresh(created, end, i);
    }
  }
}
