/**
  What each operation of the referral engine does to the store, stated
  document by document about the specification functions that the methods of
  `Referrals.Referrals` are proved to follow.
 */
module ReferralProperties {
  import opened Documents
  import opened Referrals

  /** The levels at which document `n` receives the new node's copy: 1 on the parent, then the fan-out levels. */
  function CreateTargets(ps: map<int, string>, p: string, n: string, levels: int): set<int> {
    (if n == p then {1} else {}) + FanOutLevels(ps, n, levels)
  }

  /** The ancestor map of a new node: the parent at level 1, the parent's ancestors one level down, nothing past the bound. */
  lemma ChildParentsExact(parent: string, pp: map<int, string>, levels: int)
    ensures var ps := ChildParents(parent, pp, levels);
      && 1 in ps && ps[1] == parent
      && (forall k :: 1 <= k < levels && k in pp && pp[k] != "" ==> k + 1 in ps && ps[k + 1] == pp[k])
      && (forall j :: j in ps && j != 1 ==> 2 <= j <= levels && j - 1 in pp && pp[j - 1] != "" && ps[j] == pp[j - 1])
      && (levels >= 1 ==> forall j :: j in ps ==> 1 <= j <= levels)
  {
    var ps := ChildParents(parent, pp, levels);
    assert 1 <= 1 <= Top(levels);
    forall k | 1 <= k < levels && k in pp && pp[k] != "" ensures k + 1 in ps && ps[k + 1] == pp[k] {
      assert Inherited(pp, k + 1);
    }
  }

  /** With three levels, the derivation keeps the parent and the parent's first two ancestors. */
  lemma ChildParentsThree(parent: string, pp: map<int, string>)
    ensures ChildParents(parent, pp, 3) ==
      map[1 := parent]
      + (if Inherited(pp, 2) then map[2 := pp[1]] else map[])
      + (if Inherited(pp, 3) then map[3 := pp[2]] else map[])
  {
    ChildParentsBase(parent, pp);
    ChildParentsGrow(parent, pp, 1);
    ChildParentsGrow(parent, pp, 2);
  }

  /**
    A chain with three levels: a child of a root records only the root; a
    grandchild records its parent and the root; a great-grandchild records
    all three; one generation further the root is dropped.
   */
  lemma ChildParentsChain(p: string, a: string, b: string, c: string)
    requires a != "" && b != "" && c != ""
    ensures ChildParents(p, map[], 3) == map[1 := p]
    ensures ChildParents(p, map[1 := a], 3) == map[1 := p, 2 := a]
    ensures ChildParents(p, map[1 := a, 2 := b], 3) == map[1 := p, 2 := a, 3 := b]
    ensures ChildParents(p, map[1 := a, 2 := b, 3 := c], 3) == map[1 := p, 2 := a, 3 := b]
  {
    ChildParentsThree(p, map[]);
    assert !Inherited(map[], 2) && !Inherited(map[], 3);
    ChildParentsThree(p, map[1 := a]);
    assert Inherited(map[1 := a], 2) && !Inherited(map[1 := a], 3);
    assert map[1 := p] + map[2 := a] == map[1 := p, 2 := a];
    ChildParentsThree(p, map[1 := a, 2 := b]);
    assert Inherited(map[1 := a, 2 := b], 2) && Inherited(map[1 := a, 2 := b], 3);
    assert map[1 := p] + map[2 := a] + map[3 := b] == map[1 := p, 2 := a, 3 := b];
    ChildParentsThree(p, map[1 := a, 2 := b, 3 := c]);
    assert Inherited(map[1 := a, 2 := b, 3 := c], 2) && Inherited(map[1 := a, 2 := b, 3 := c], 3);
  }

  /** A root: the store gains exactly `{id, payload}`, with no ancestors and no children; nothing else changes. */
  lemma CreateRoot(s: Store, id: string, payload: string, parent: Option<string>, levels: int)
    requires !HasParent(parent)
    ensures var r := Created(s, id, payload, parent, levels);
      && r.Keys == s.Keys + {id}
      && r[id] == Doc(payload, map[], map[])
      && forall n :: n in s && n != id ==> r[n] == s[n]
  {
  }

  /** `createReferral` under a parent, document by document. */
  lemma CreatedAt(s: Store, id: string, payload: string, p: string, levels: int)
    requires p != "" && p in s && id !in s
    ensures var r, ps := Created(s, id, payload, Some(p), levels), ChildParents(p, s[p].parents, levels);
      && r.Keys == s.Keys + {id}
      && r[id] == Push(Doc(payload, ps, map[]), FanOutLevels(ps, id, levels), Child(id, payload))
      && forall n :: n in s ==> r[n] == Push(s[n], CreateTargets(ps, p, n, levels), Child(id, payload))
  {
    var c := Child(id, payload);
    var linked := s[p := Push(s[p], {1}, c)];
    PushAppends(s[p], {1}, c, 1);
    var ps := ChildParents(p, s[p].parents, levels);
    var inserted := linked[id := Doc(payload, ps, map[])];
    FannedOutAt(inserted, ps, c, levels);
    forall n | n in s
      ensures Created(s, id, payload, Some(p), levels)[n] == Push(s[n], CreateTargets(ps, p, n, levels), c)
    {
      if n == p {
        PushTwice(s[p], {1}, FanOutLevels(ps, p, levels), c);
      } else {
        assert CreateTargets(ps, p, n, levels) == FanOutLevels(ps, n, levels);
      }
    }
  }

  /**
    The parent gets `{id, payload}` as the last element of its level-1 list,
    creating the list when absent, exactly once; its payload, its ancestors and
    its other levels stay as they were (unless it is itself a higher ancestor).
   */
  lemma CreateLinksParent(s: Store, id: string, payload: string, p: string, levels: int)
    requires p != "" && p in s && id !in s
    ensures var r, ps := Created(s, id, payload, Some(p), levels), ChildParents(p, s[p].parents, levels);
      && p in r && 1 in r[p].childrens
      && r[p].childrens[1] == Level(s[p], 1) + [Child(id, payload)]
      && r[p].payload == s[p].payload && r[p].parents == s[p].parents
      && forall k :: k != 1 && k !in FanOutLevels(ps, p, levels) ==> Level(r[p], k) == Level(s[p], k)
  {
    var c, ps := Child(id, payload), ChildParents(p, s[p].parents, levels);
    CreatedAt(s, id, payload, p, levels);
    var targets := CreateTargets(ps, p, p, levels);
    PushAppends(s[p], targets, c, 1);
    forall k | k != 1 && k !in FanOutLevels(ps, p, levels)
      ensures Level(Created(s, id, payload, Some(p), levels)[p], k) == Level(s[p], k)
    {
      PushAppends(s[p], targets, c, k);
    }
  }

  /** The new document holds the payload and the derived ancestors, and no children of its own. */
  lemma CreateStoresNode(s: Store, id: string, payload: string, p: string, levels: int)
    requires p != "" && p in s && id !in s
    ensures var r, ps := Created(s, id, payload, Some(p), levels), ChildParents(p, s[p].parents, levels);
      && id in r && r[id].payload == payload && r[id].parents == ps
      && ((forall k :: k in ps ==> ps[k] != id) ==> r[id].childrens == map[])
  {
    var c, ps := Child(id, payload), ChildParents(p, s[p].parents, levels);
    CreatedAt(s, id, payload, p, levels);
    PushAppends(Doc(payload, ps, map[]), FanOutLevels(ps, id, levels), c, 1);
    if forall k :: k in ps ==> ps[k] != id {
      assert FanOutLevels(ps, id, levels) == {};
      PushNothing(Doc(payload, ps, map[]), c);
    }
  }

  /**
    Fan-out: every stored ancestor of level 2..levels gets `{id, payload}` as the
    last element of its list at that level; ancestors not in the store are skipped.
   */
  lemma CreateFansOut(s: Store, id: string, payload: string, p: string, levels: int)
    requires p != "" && p in s && id !in s
    ensures var r, ps := Created(s, id, payload, Some(p), levels), ChildParents(p, s[p].parents, levels);
      && r.Keys == s.Keys + {id}
      && forall k :: 2 <= k <= levels && k in ps && ps[k] in s ==>
           k in r[ps[k]].childrens && r[ps[k]].childrens[k] == Level(s[ps[k]], k) + [Child(id, payload)]
  {
    var c, ps := Child(id, payload), ChildParents(p, s[p].parents, levels);
    CreatedAt(s, id, payload, p, levels);
    ChildParentsExact(p, s[p].parents, levels);
    forall k | 2 <= k <= levels && k in ps && ps[k] in s
      ensures var r := Created(s, id, payload, Some(p), levels);
        k in r[ps[k]].childrens && r[ps[k]].childrens[k] == Level(s[ps[k]], k) + [c]
    {
      var a := ps[k];
      assert k in FanOutLevels(ps, a, levels);
      PushAppends(s[a], CreateTargets(ps, p, a, levels), c, k);
    }
  }

  /** No document changes at a level past the bound (level 1 counts as in bound). */
  lemma CreateBounded(s: Store, id: string, payload: string, p: string, levels: int)
    requires p != "" && p in s && id !in s
    ensures var r := Created(s, id, payload, Some(p), levels);
      && r.Keys == s.Keys + {id}
      && forall n, k :: n in s && k > Top(levels) ==> Level(r[n], k) == Level(s[n], k)
  {
    var c, ps := Child(id, payload), ChildParents(p, s[p].parents, levels);
    CreatedAt(s, id, payload, p, levels);
    var r := Created(s, id, payload, Some(p), levels);
    forall n, k | n in s && k > Top(levels) ensures Level(r[n], k) == Level(s[n], k) {
      var targets := CreateTargets(ps, p, n, levels);
      assert k !in targets;
      PushAppends(s[n], targets, c, k);
    }
  }

  /** Documents that are neither the parent nor one of the new node's ancestors are unchanged. */
  lemma CreateLeavesOthers(s: Store, id: string, payload: string, p: string, levels: int)
    requires p != "" && p in s && id !in s
    ensures var r, ps := Created(s, id, payload, Some(p), levels), ChildParents(p, s[p].parents, levels);
      && r.Keys == s.Keys + {id}
      && forall n :: n in s && n != p && (forall k :: k in ps ==> ps[k] != n) ==> r[n] == s[n]
  {
    var c, ps := Child(id, payload), ChildParents(p, s[p].parents, levels);
    CreatedAt(s, id, payload, p, levels);
    forall n | n in s && n != p && (forall k :: k in ps ==> ps[k] != n)
      ensures Created(s, id, payload, Some(p), levels)[n] == s[n]
    {
      assert CreateTargets(ps, p, n, levels) == {};
      PushNothing(s[n], c);
    }
  }

  /** The node's payload becomes the new value; keys, ancestor maps, level keys and other payloads stay. */
  lemma UpdateOwnFields(s: Store, id: string, payload: string)
    requires id in s
    ensures var r := PayloadUpdated(s, id, payload);
      && r.Keys == s.Keys && r[id].payload == payload
      && forall n :: n in s ==>
           && r[n].parents == s[n].parents
           && r[n].childrens.Keys == s[n].childrens.Keys
           && (n != id ==> r[n].payload == s[n].payload)
  {
  }

  /**
    At each ancestor level, only the first copy carrying the id takes the new
    payload; every other element, and a list without such a copy, is unchanged.
   */
  lemma UpdateRewritesFirstCopy(s: Store, id: string, payload: string, k: int)
    requires id in s && k in s[id].parents
    requires s[id].parents[k] in s && k in s[s[id].parents[k]].childrens
    ensures var r, a := PayloadUpdated(s, id, payload), s[id].parents[k];
      var before := s[a].childrens[k];
      && |r[a].childrens[k]| == |before|
      && forall i :: 0 <= i < |before| ==>
           r[a].childrens[k][i] == if i == IndexOf(before, id) then Child(id, payload) else before[i]
  {
    var a := s[id].parents[k];
    var before := s[a].childrens[k];
    SetFirstPayloadEffect(before, id, payload);
    assert PayloadUpdated(s, id, payload)[a].childrens[k] == SetFirstPayload(before, id, payload);
  }

  /** Lists at levels where the document is not the node's ancestor are unchanged. */
  lemma UpdateLeavesOtherLevels(s: Store, id: string, payload: string)
    requires id in s
    ensures var r, ps := PayloadUpdated(s, id, payload), s[id].parents;
      forall n, k :: n in s && k in s[n].childrens && !(k in ps && ps[k] == n) ==>
        r[n].childrens[k] == s[n].childrens[k]
  {
  }

  /** Updating a root changes only its own payload. */
  lemma UpdateRoot(s: Store, id: string, payload: string)
    requires id in s && s[id].parents == map[]
    ensures PayloadUpdated(s, id, payload) == s[id := s[id].(payload := payload)]
  {
    var own := s[id := s[id].(payload := payload)];
    forall n | n in own ensures PayloadUpdated(s, id, payload)[n] == own[n] {
      assert UpdateLevels(map[], n, {}) == {};
      SetPayloadNothing(own[n], id, payload);
    }
  }

  /**
    Removal: the node's document is gone; an ancestor loses its whole level-k
    key exactly when it is the node's level-k ancestor and that list holds the
    node, siblings included; nothing else changes, descendants' ancestor maps
    included.
   */
  lemma RemoveEffect(s: Store, id: string)
    requires id in s
    ensures var r, ps := Removed(s, id), s[id].parents;
      && r.Keys == s.Keys - {id}
      && (forall n :: n in r ==> r[n].payload == s[n].payload && r[n].parents == s[n].parents)
      && (forall n, k :: n in r && k in r[n].childrens ==> k in s[n].childrens && r[n].childrens[k] == s[n].childrens[k])
      && (forall n, k :: n in r && k in s[n].childrens ==>
            (k !in r[n].childrens <==> k in ps && ps[k] == n && Contains(s[n].childrens[k], id)))
  {
  }

  /** Lookup after creating a root: `{payload}` with no ancestors. */
  lemma LookupCreatedRoot(s: Store, id: string, payload: string, parent: Option<string>, levels: int)
    requires !HasParent(parent)
    ensures Lookup(Created(s, id, payload, parent, levels), id) == Some(Doc(payload, map[], map[]))
  {
  }

  /** Lookup finds nothing once a node is removed. */
  lemma LookupRemoved(s: Store, id: string)
    requires id in s
    ensures Lookup(Removed(s, id), id) == None
  {
  }
}
