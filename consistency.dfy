/**
  The cross-document invariant of the referral collection: every ancestor link
  `(n, k, a)` is mirrored by a copy of `n` in `a`'s level-k list, every copy
  belongs to a live descendant at that distance and carries its payload, and no
  list holds two copies of one id. `createReferral` and `updateReferralPayload`
  keep it; `removeReferral`, which unsets whole levels, does not.
 */
module Consistency {
  import opened Documents
  import opened Referrals
  import opened ReferralProperties

  /** The level-k ancestor of `n` is a stored document whose level-k list holds a copy of `n`. */
  ghost predicate CopiedUp(s: Store, n: string, k: int)
    requires n in s && k in s[n].parents
  {
    var a := s[n].parents[k];
    a != "" && a in s && Contains(Level(s[a], k), n)
  }

  ghost predicate Mirrored(s: Store) {
    forall n, k :: n in s && k in s[n].parents ==> CopiedUp(s, n, k)
  }

  /** The copy `c` in `a`'s level-k list belongs to a stored node whose level-k ancestor is `a`, and holds its payload. */
  ghost predicate EntryBacked(s: Store, a: string, k: int, c: Child) {
    c.id in s && k in s[c.id].parents && s[c.id].parents[k] == a && c.payload == s[c.id].payload
  }

  ghost predicate Backed(s: Store) {
    forall a, k, i :: a in s && 0 <= i < |Level(s[a], k)| ==> EntryBacked(s, a, k, Level(s[a], k)[i])
  }

  ghost predicate Unique(s: Store) {
    forall a, k :: a in s ==> Distinct(Level(s[a], k))
  }

  ghost predicate Consistent(s: Store) {
    Mirrored(s) && Backed(s) && Unique(s)
  }

  /** In a backed store no list holds a copy of an id that is not stored. */
  lemma FreshNowhere(s: Store, id: string, a: string, k: int)
    requires Backed(s) && id !in s && a in s
    ensures !Contains(Level(s[a], k), id)
  {
    forall i | 0 <= i < |Level(s[a], k)| ensures Level(s[a], k)[i].id != id {
      assert EntryBacked(s, a, k, Level(s[a], k)[i]);
    }
  }

  /** The ancestors derived for a child of a stored parent are stored, non-empty ids. */
  lemma DerivedStored(s: Store, p: string, levels: int)
    requires Mirrored(s) && p != "" && p in s
    ensures var ps := ChildParents(p, s[p].parents, levels);
      forall k :: k in ps ==> ps[k] != "" && ps[k] in s
  {
    var ps := ChildParents(p, s[p].parents, levels);
    forall k | k in ps ensures ps[k] != "" && ps[k] in s {
      if k != 1 {
        InheritedStored(s, p, levels, k);
      }
    }
  }

  /** An ancestor the new node inherits from its parent is a stored document. */
  lemma InheritedStored(s: Store, p: string, levels: int, k: int)
    requires Mirrored(s) && p in s && k != 1 && k in ChildParents(p, s[p].parents, levels)
    ensures ChildParents(p, s[p].parents, levels)[k] in s
  {
    ChildParentsExact(p, s[p].parents, levels);
    assert CopiedUp(s, p, k - 1);
  }

  /** The levels at which `n` is an ancestor in the ancestor map `ps`. */
  ghost function AncestorLevels(ps: map<int, string>, n: string): set<int> {
    set k | k in ps && ps[k] == n
  }

  /** A document receives the new copy at exactly the levels where it is the new node's ancestor. */
  lemma CreateTargetsExact(p: string, pp: map<int, string>, n: string, levels: int)
    ensures var ps := ChildParents(p, pp, levels);
      CreateTargets(ps, p, n, levels) == AncestorLevels(ps, n)
  {
    var ps := ChildParents(p, pp, levels);
    forall k ensures k in CreateTargets(ps, p, n, levels) <==> k in AncestorLevels(ps, n) {
    }
  }

  /** One old document after `createReferral`: it gains the new copy at level k exactly when it is the level-k ancestor. */
  lemma CreatedLevel(s: Store, id: string, payload: string, p: string, levels: int, n: string, k: int)
    requires p != "" && p in s && id !in s && n in s
    ensures var r, ps := Created(s, id, payload, Some(p), levels), ChildParents(p, s[p].parents, levels);
      && n in r && r[n].payload == s[n].payload && r[n].parents == s[n].parents
      && Level(r[n], k) == Level(s[n], k) + (if k in ps && ps[k] == n then [Child(id, payload)] else [])
      && r[n].childrens.Keys == s[n].childrens.Keys + AncestorLevels(ps, n)
  {
    var ps := ChildParents(p, s[p].parents, levels);
    CreatedAt(s, id, payload, p, levels);
    ChildParentsExact(p, s[p].parents, levels);
    var targets := CreateTargets(ps, p, n, levels);
    CreateTargetsExact(p, s[p].parents, n, levels);
    PushAppends(s[n], targets, Child(id, payload), k);
  }

  /** The new document after `createReferral` under a stored parent: the derived ancestors and no children. */
  lemma CreatedNode(s: Store, id: string, payload: string, p: string, levels: int)
    requires Mirrored(s) && p != "" && p in s && id !in s
    ensures var r, ps := Created(s, id, payload, Some(p), levels), ChildParents(p, s[p].parents, levels);
      && r.Keys == s.Keys + {id}
      && r[id] == Doc(payload, ps, map[])
      && (forall k :: k in ps ==> ps[k] != "" && ps[k] in s)
  {
    var ps := ChildParents(p, s[p].parents, levels);
    CreatedAt(s, id, payload, p, levels);
    DerivedStored(s, p, levels);
    assert FanOutLevels(ps, id, levels) == {};
    PushNothing(Doc(payload, ps, map[]), Child(id, payload));
  }

  /**
    `r` is `s` with a new node `id` whose ancestor map is `ps`: the new document
    has no children, and every old document gains the copy `{id, payload}` at
    exactly the levels where it is the new node's ancestor.
   */
  ghost predicate Grown(s: Store, r: Store, id: string, payload: string, ps: map<int, string>) {
    && r.Keys == s.Keys + {id}
    && r[id] == Doc(payload, ps, map[])
    && (forall k :: k in ps ==> ps[k] != "" && ps[k] in s)
    && (forall n :: n in s ==> r[n].payload == s[n].payload && r[n].parents == s[n].parents)
    && (forall n :: n in s ==> r[n].childrens.Keys == s[n].childrens.Keys + AncestorLevels(ps, n))
    && forall n, k :: n in s ==>
         Level(r[n], k) == Level(s[n], k) + if k in ps && ps[k] == n then [Child(id, payload)] else []
  }

  /** One list after growth: the level-k ancestor's list gains the copy at its end, every other list is as it was. */
  lemma GrownAt(s: Store, r: Store, id: string, payload: string, ps: map<int, string>, n: string, k: int)
    requires Grown(s, r, id, payload, ps) && n in s
    ensures n in r
    ensures Level(r[n], k) == if k in ps && ps[k] == n then Level(s[n], k) + [Child(id, payload)] else Level(s[n], k)
  {
    assert Level(s[n], k) + [] == Level(s[n], k);
  }

  /** `createReferral` under a parent in a store where every link is mirrored grows the store by the new node. */
  lemma CreatedShape(s: Store, id: string, payload: string, p: string, levels: int)
    requires Mirrored(s) && p != "" && p in s && id !in s
    ensures Grown(s, Created(s, id, payload, Some(p), levels), id, payload, ChildParents(p, s[p].parents, levels))
  {
    CreatedNode(s, id, payload, p, levels);
    forall n | n in s
      ensures var r, ps := Created(s, id, payload, Some(p), levels), ChildParents(p, s[p].parents, levels);
        && r[n].payload == s[n].payload && r[n].parents == s[n].parents
        && r[n].childrens.Keys == s[n].childrens.Keys + AncestorLevels(ps, n)
    {
      CreatedLevel(s, id, payload, p, levels, n, 1);
    }
    forall n, k | n in s
      ensures var r, ps := Created(s, id, payload, Some(p), levels), ChildParents(p, s[p].parents, levels);
        Level(r[n], k) == Level(s[n], k) + if k in ps && ps[k] == n then [Child(id, payload)] else []
    {
      CreatedLevel(s, id, payload, p, levels, n, k);
    }
  }

  /** Creating a root keeps the store consistent. */
  lemma CreateRootPreservesConsistency(s: Store, id: string, payload: string, parent: Option<string>, levels: int)
    requires Consistent(s) && id !in s && !HasParent(parent)
    ensures Consistent(Created(s, id, payload, parent, levels))
  {
    var r := Created(s, id, payload, parent, levels);
    forall a, k, i | a in r && 0 <= i < |Level(r[a], k)| ensures EntryBacked(r, a, k, Level(r[a], k)[i]) {
      assert EntryBacked(s, a, k, Level(s[a], k)[i]);
    }
  }

  /** One link after growth: the new node's links are mirrored by the new copies, the old links by the old ones. */
  lemma GrownLinkCopied(s: Store, r: Store, id: string, payload: string, ps: map<int, string>, n: string, k: int)
    requires id !in s && Grown(s, r, id, payload, ps)
    requires n in r && k in r[n].parents
    requires n != id ==> CopiedUp(s, n, k)
    ensures CopiedUp(r, n, k)
  {
    var c := Child(id, payload);
    if n == id {
      var a := ps[k];
      assert Level(r[a], k) == Level(s[a], k) + [c];
      ContainsAppend(Level(s[a], k), c, id);
    } else {
      var a := s[n].parents[k];
      if k in ps && ps[k] == a {
        assert Level(r[a], k) == Level(s[a], k) + [c];
        ContainsAppend(Level(s[a], k), c, n);
      } else {
        assert Level(r[a], k) == Level(s[a], k);
      }
    }
  }

  lemma GrownKeepsMirrored(s: Store, r: Store, id: string, payload: string, ps: map<int, string>)
    requires Mirrored(s) && id !in s && Grown(s, r, id, payload, ps)
    ensures Mirrored(r)
  {
    forall n, k | n in r && k in r[n].parents ensures CopiedUp(r, n, k) {
      if n != id {
        assert CopiedUp(s, n, k);
      }
      GrownLinkCopied(s, r, id, payload, ps, n, k);
    }
  }

  lemma GrownKeepsBacked(s: Store, r: Store, id: string, payload: string, ps: map<int, string>)
    requires Backed(s) && id !in s && Grown(s, r, id, payload, ps)
    ensures Backed(r)
  {
    forall a, k, i | a in r && 0 <= i < |Level(r[a], k)| ensures EntryBacked(r, a, k, Level(r[a], k)[i]) {
      if a != id {
        GrownAt(s, r, id, payload, ps, a, k);
        if i < |Level(s[a], k)| {
          assert Level(r[a], k)[i] == Level(s[a], k)[i];
          assert EntryBacked(s, a, k, Level(s[a], k)[i]);
        } else {
          assert k in ps && ps[k] == a;
        }
      }
    }
  }

  lemma GrownKeepsUnique(s: Store, r: Store, id: string, payload: string, ps: map<int, string>)
    requires Backed(s) && Unique(s) && id !in s && Grown(s, r, id, payload, ps)
    ensures Unique(r)
  {
    forall a, k | a in r ensures Distinct(Level(r[a], k)) {
      if a != id && k in ps && ps[k] == a {
        FreshNowhere(s, id, a, k);
        DistinctAppend(Level(s[a], k), Child(id, payload));
      } else if a != id {
        assert Distinct(Level(s[a], k));
      }
    }
  }

  /** Creating a node under a stored parent, with a fresh id, keeps the store consistent. */
  lemma CreatePreservesConsistency(s: Store, id: string, payload: string, p: string, levels: int)
    requires Consistent(s) && p != "" && p in s && id !in s
    ensures Consistent(Created(s, id, payload, Some(p), levels))
  {
    var r, ps := Created(s, id, payload, Some(p), levels), ChildParents(p, s[p].parents, levels);
    CreatedShape(s, id, payload, p, levels);
    GrownKeepsMirrored(s, r, id, payload, ps);
    GrownKeepsBacked(s, r, id, payload, ps);
    GrownKeepsUnique(s, r, id, payload, ps);
  }

  /**
    `updateReferralPayload` in a consistent store, list by list: every copy of
    the node takes the new payload and every other copy stays as it was.
   */
  lemma UpdatedLevel(s: Store, id: string, payload: string, a: string, k: int)
    requires Consistent(s) && id in s && a in s
    ensures var r, before := PayloadUpdated(s, id, payload), Level(s[a], k);
      && a in r && |Level(r[a], k)| == |before|
      && forall i :: 0 <= i < |before| ==>
           Level(r[a], k)[i] == if before[i].id == id then Child(id, payload) else before[i]
  {
    var r, before, ps := PayloadUpdated(s, id, payload), Level(s[a], k), s[id].parents;
    var own := s[id := s[id].(payload := payload)];
    assert own[a].childrens == s[a].childrens;
    if k in ps && ps[k] == a && k in s[a].childrens {
      assert k in UpdateLevels(ps, a, ps.Keys);
      assert Level(r[a], k) == SetFirstPayload(before, id, payload);
      SetFirstPayloadEffect(before, id, payload);
      forall i | 0 <= i < |before| && before[i].id == id ensures i == IndexOf(before, id) {
        assert Contains(before, id);
      }
    } else {
      assert Level(r[a], k) == before;
      forall i | 0 <= i < |before| ensures before[i].id != id {
        assert EntryBacked(s, a, k, before[i]);
      }
    }
  }

  /** Updating a node's payload keeps the store consistent. */
  lemma UpdatePreservesConsistency(s: Store, id: string, payload: string)
    requires Consistent(s) && id in s
    ensures Consistent(PayloadUpdated(s, id, payload))
  {
    var r := PayloadUpdated(s, id, payload);
    UpdateOwnFields(s, id, payload);
    forall n, k | n in r && k in r[n].parents ensures CopiedUp(r, n, k) {
      var a := s[n].parents[k];
      assert CopiedUp(s, n, k);
      UpdatedLevel(s, id, payload, a, k);
      var i :| 0 <= i < |Level(s[a], k)| && Level(s[a], k)[i].id == n;
      assert Level(r[a], k)[i].id == n;
    }
    forall a, k, i | a in r && 0 <= i < |Level(r[a], k)| ensures EntryBacked(r, a, k, Level(r[a], k)[i]) {
      UpdatedLevel(s, id, payload, a, k);
      assert EntryBacked(s, a, k, Level(s[a], k)[i]);
    }
    forall a, k | a in r ensures Distinct(Level(r[a], k)) {
      UpdatedLevel(s, id, payload, a, k);
      assert Distinct(Level(s[a], k));
    }
  }

  /**
    `removeReferral` in a consistent store, list by list: the level-k list of
    the node's level-k ancestor is emptied (its key unset), siblings included;
    every other list stays as it was.
   */
  lemma RemovedLevel(s: Store, id: string, a: string, k: int)
    requires Consistent(s) && id in s && a in s && a != id
    ensures var r, ps := Removed(s, id), s[id].parents;
      && a in r
      && Level(r[a], k) == if k in ps && ps[k] == a then [] else Level(s[a], k)
  {
    var ps := s[id].parents;
    if k in ps && ps[k] == a {
      assert CopiedUp(s, id, k);
    }
  }

  /** After a removal no list holds a copy of the removed node, and every remaining copy is still backed. */
  lemma RemoveLeavesNoCopy(s: Store, id: string)
    requires Consistent(s) && id in s
    ensures var r := Removed(s, id);
      && (forall a, k :: a in r ==> !Contains(Level(r[a], k), id))
      && Backed(r) && Unique(r)
  {
    var r, ps := Removed(s, id), s[id].parents;
    forall a, k | a in r ensures !Contains(Level(r[a], k), id) && Distinct(Level(r[a], k)) {
      RemovedLevel(s, id, a, k);
      forall i | 0 <= i < |Level(r[a], k)| ensures Level(r[a], k)[i].id != id {
        assert EntryBacked(s, a, k, Level(s[a], k)[i]);
      }
      assert Distinct(Level(s[a], k));
    }
    forall a, k, i | a in r && 0 <= i < |Level(r[a], k)| ensures EntryBacked(r, a, k, Level(r[a], k)[i]) {
      RemovedLevel(s, id, a, k);
      assert EntryBacked(s, a, k, Level(s[a], k)[i]);
      assert Level(s[a], k)[i].id != id;
    }
  }

  /**
    Which links survive a removal: a remaining node keeps its copy at level k
    exactly when its level-k ancestor is neither the removed node nor the
    removed node's own level-k ancestor. Siblings at a level lose their copies.
   */
  lemma RemoveMirrorsExactly(s: Store, id: string)
    requires Consistent(s) && id in s
    ensures var r, ps := Removed(s, id), s[id].parents;
      forall n, k :: n in r && k in r[n].parents ==>
        (CopiedUp(r, n, k) <==> s[n].parents[k] != id && !(k in ps && ps[k] == s[n].parents[k]))
  {
    var r := Removed(s, id);
    forall n, k | n in r && k in r[n].parents
      ensures CopiedUp(r, n, k) <==> s[n].parents[k] != id && !(k in s[id].parents && s[id].parents[k] == s[n].parents[k])
    {
      var a := s[n].parents[k];
      assert CopiedUp(s, n, k);
      if a != id {
        RemovedLevel(s, id, a, k);
      }
    }
  }

  /**
    Two stored siblings `a` and `b` under the same level-k ancestor: once `a`
    is removed, `b` is still stored with that ancestor recorded, but the
    ancestor has lost its whole level-k list, `b`'s copy with it, so the
    mirror invariant fails.
   */
  lemma RemoveDropsSiblings(s: Store, a: string, b: string, k: int)
    requires Consistent(s) && a in s && b in s && a != b
    requires k in s[a].parents && k in s[b].parents && s[a].parents[k] == s[b].parents[k] != a
    ensures var r, x := Removed(s, a), s[a].parents[k];
      && b in r && r[b].parents == s[b].parents
      && x in r && k !in r[x].childrens
      && !Mirrored(r)
  {
    var r, x := Removed(s, a), s[a].parents[k];
    assert CopiedUp(s, a, k);
    assert CopiedUp(s, b, k);
    RemovedLevel(s, a, x, k);
    RemoveMirrorsExactly(s, a);
    assert !CopiedUp(r, b, k);
  }

  /**
    The mirror invariant read directly: in a consistent store, the level-k
    ancestor of every stored node is stored and its level-k list holds the
    copy `{_id, payload}` of that node with the node's current payload.
   */
  lemma MirroredWithPayload(s: Store, n: string, k: int)
    requires Consistent(s) && n in s && k in s[n].parents
    ensures var a := s[n].parents[k];
      a in s && exists i :: 0 <= i < |Level(s[a], k)| && Level(s[a], k)[i] == Child(n, s[n].payload)
  {
    var a := s[n].parents[k];
    assert CopiedUp(s, n, k);
    var i :| 0 <= i < |Level(s[a], k)| && Level(s[a], k)[i].id == n;
    assert EntryBacked(s, a, k, Level(s[a], k)[i]);
  }
}
