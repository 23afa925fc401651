/**
  The life of one referral chain, as the engine's own test suite walks it: a
  root `r`, a child `u1`, a grandchild `u2` and a great-grandchild `u3` with
  three levels; then `u3`'s payload is changed and `u3` is removed.
 */
module Scenario {
  import opened Documents
  import opened Referrals
  import opened ReferralProperties
  import opened Consistency

  /** The root. */
  lemma ChainRoot(r: string, pr: string, levels: int)
    ensures var s1 := Created(map[], r, pr, None, levels);
      Consistent(s1) && s1 == map[r := Doc(pr, map[], map[])]
  {
    CreateRootPreservesConsistency(map[], r, pr, None, levels);
  }

  /** `u1` under the root: level 1 of the root lists it. */
  lemma ChainChild(s1: Store, s2: Store, r: string, u1: string, u2: string, pr: string, p1: string)
    requires r != u1 && r != u2 && u1 != u2 && s1 == map[r := Doc(pr, map[], map[])]
    requires Grown(s1, s2, u1, p1, map[1 := r])
    ensures && s2.Keys == {r, u1} && u2 !in s2
      && s2[r].parents == map[] && s2[u1].parents == map[1 := r]
      && Level(s2[r], 1) == [Child(u1, p1)] && Level(s2[r], 2) == [] && Level(s2[r], 3) == []
      && s2[r].childrens.Keys == {1} && s2[u1].childrens == map[]
  {
    assert AncestorLevels(map[1 := r], r) == {1};
    GrownAt(s1, s2, u1, p1, map[1 := r], r, 1);
    GrownAt(s1, s2, u1, p1, map[1 := r], r, 2);
    GrownAt(s1, s2, u1, p1, map[1 := r], r, 3);
  }

  /** `u2` under `u1`: it records `u1` and the root, and both list it. */
  lemma ChainGrandchild(s2: Store, s3: Store, r: string, u1: string, u2: string, u3: string, p1: string, p2: string)
    requires r != u2 && u1 != u2 && r != u1 && r != u3 && u1 != u3 && u2 != u3
    requires s2.Keys == {r, u1}
    requires s2[r].parents == map[] && s2[u1].parents == map[1 := r]
    requires Level(s2[r], 1) == [Child(u1, p1)] && Level(s2[r], 2) == [] && Level(s2[r], 3) == []
    requires s2[r].childrens.Keys == {1} && s2[u1].childrens == map[]
    requires Grown(s2, s3, u2, p2, map[1 := u1, 2 := r])
    ensures && s3.Keys == {r, u1, u2} && u3 !in s3
      && s3[r].parents == map[] && s3[u1].parents == map[1 := r] && s3[u2].parents == map[1 := u1, 2 := r]
      && Level(s3[r], 1) == [Child(u1, p1)] && Level(s3[r], 2) == [Child(u2, p2)] && Level(s3[r], 3) == []
      && Level(s3[u1], 1) == [Child(u2, p2)] && Level(s3[u1], 2) == []
      && s3[r].childrens.Keys == {1, 2} && s3[u2].childrens == map[]
  {
    var ps := map[1 := u1, 2 := r];
    assert AncestorLevels(ps, r) == {2};
    GrownAt(s2, s3, u2, p2, ps, r, 1);
    GrownAt(s2, s3, u2, p2, ps, r, 2);
    GrownAt(s2, s3, u2, p2, ps, r, 3);
    GrownAt(s2, s3, u2, p2, ps, u1, 1);
    GrownAt(s2, s3, u2, p2, ps, u1, 2);
  }

  /** `u3` under `u2`: it records `u2`, `u1` and the root, and each lists it at its distance. */
  lemma ChainGreatGrandchild(s3: Store, s4: Store, r: string, u1: string, u2: string, u3: string, p1: string, p2: string, p3: string)
    requires r != u3 && u1 != u3 && u2 != u3 && r != u1 && r != u2 && u1 != u2
    requires s3.Keys == {r, u1, u2}
    requires s3[r].parents == map[] && s3[u1].parents == map[1 := r] && s3[u2].parents == map[1 := u1, 2 := r]
    requires Level(s3[r], 1) == [Child(u1, p1)] && Level(s3[r], 2) == [Child(u2, p2)] && Level(s3[r], 3) == []
    requires Level(s3[u1], 1) == [Child(u2, p2)] && Level(s3[u1], 2) == []
    requires s3[r].childrens.Keys == {1, 2} && s3[u2].childrens == map[]
    requires Grown(s3, s4, u3, p3, map[1 := u2, 2 := u1, 3 := r])
    ensures && s4.Keys == {r, u1, u2, u3}
      && s4[r].parents == map[] && s4[u3].parents == map[1 := u2, 2 := u1, 3 := r]
      && Level(s4[r], 1) == [Child(u1, p1)] && Level(s4[r], 2) == [Child(u2, p2)] && Level(s4[r], 3) == [Child(u3, p3)]
      && Level(s4[u1], 2) == [Child(u3, p3)] && Level(s4[u2], 1) == [Child(u3, p3)]
      && s4[r].childrens.Keys == {1, 2, 3}
  {
    var ps := map[1 := u2, 2 := u1, 3 := r];
    assert AncestorLevels(ps, r) == {3};
    GrownAt(s3, s4, u3, p3, ps, r, 1);
    GrownAt(s3, s4, u3, p3, ps, r, 2);
    GrownAt(s3, s4, u3, p3, ps, r, 3);
    GrownAt(s3, s4, u3, p3, ps, u1, 2);
    GrownAt(s3, s4, u3, p3, ps, u2, 1);
  }

  /** Changing the payload of `u3`: its copies at its three ancestors carry the new payload. */
  lemma ChainUpdate(s4: Store, r: string, u1: string, u2: string, u3: string, p3: string, np: string)
    requires Consistent(s4) && s4.Keys == {r, u1, u2, u3} && s4[u3].parents == map[1 := u2, 2 := u1, 3 := r]
    requires Level(s4[r], 3) == [Child(u3, p3)] && Level(s4[u1], 2) == [Child(u3, p3)] && Level(s4[u2], 1) == [Child(u3, p3)]
    ensures var t := PayloadUpdated(s4, u3, np);
      && t[u3].payload == np
      && Level(t[u2], 1) == [Child(u3, np)] && Level(t[u1], 2) == [Child(u3, np)] && Level(t[r], 3) == [Child(u3, np)]
  {
    UpdateOwnFields(s4, u3, np);
    UpdatedLevel(s4, u3, np, u2, 1);
    UpdatedLevel(s4, u3, np, u1, 2);
    UpdatedLevel(s4, u3, np, r, 3);
  }

  /** Removing `u3`: its document is gone and no list of the three remaining documents holds it. */
  lemma ChainRemove(s4: Store, r: string, u1: string, u2: string, u3: string)
    requires Consistent(s4) && s4.Keys == {r, u1, u2, u3} && r != u3 && u1 != u3 && u2 != u3
    ensures var e := Removed(s4, u3);
      && e.Keys == {r, u1, u2}
      && forall a, k :: a in e ==> !Contains(Level(e[a], k), u3)
  {
    RemoveEffect(s4, u3);
    RemoveLeavesNoCopy(s4, u3);
  }

  /**
    The chain r, u1, u2, u3 with three levels, then an update and a removal of
    `u3`: the root has no ancestors and lists its descendants at levels 1, 2
    and 3 and at no other level; after the update every copy of `u3` holds the
    new payload; after the removal `u3` is gone and no list holds it.
   */
  lemma ChainScenario(r: string, u1: string, u2: string, u3: string, pr: string, p1: string, p2: string, p3: string, np: string, levels: int)
    requires levels == DefaultLevels
    requires r != "" && u1 != "" && u2 != ""
    requires r != u1 && r != u2 && r != u3 && u1 != u2 && u1 != u3 && u2 != u3
    ensures var s4 := Created(Created(Created(Created(map[], r, pr, None, levels), u1, p1, Some(r), levels), u2, p2, Some(u1), levels), u3, p3, Some(u2), levels);
      && Consistent(s4)
      && s4.Keys == {r, u1, u2, u3}
      && s4[u3].parents == map[1 := u2, 2 := u1, 3 := r]
      && Lookup(s4, r) == Some(s4[r]) && s4[r].parents == map[]
      && s4[r].childrens.Keys == {1, 2, 3}
      && Level(s4[r], 1) == [Child(u1, p1)] && Level(s4[r], 2) == [Child(u2, p2)] && Level(s4[r], 3) == [Child(u3, p3)]
      && (var t := PayloadUpdated(s4, u3, np);
          && t[u3].payload == np
          && Level(t[u2], 1) == [Child(u3, np)] && Level(t[u1], 2) == [Child(u3, np)] && Level(t[r], 3) == [Child(u3, np)])
      && (var e := Removed(s4, u3);
          && e.Keys == {r, u1, u2}
          && forall a, k :: a in e ==> !Contains(Level(e[a], k), u3))
  {
    var s1 := Created(map[], r, pr, None, levels);
    ChainRoot(r, pr, levels);
    var s2 := Created(s1, u1, p1, Some(r), levels);
    assert && Consistent(s2) && s2.Keys == {r, u1} && u2 !in s2
      && s2[r].parents == map[] && s2[u1].parents == map[1 := r]
      && Level(s2[r], 1) == [Child(u1, p1)] && Level(s2[r], 2) == [] && Level(s2[r], 3) == []
      && s2[r].childrens.Keys == {1} && s2[u1].childrens == map[]
    by {
      ChildParentsChain(r, u1, r, r);
      CreatedShape(s1, u1, p1, r, levels);
      CreatePreservesConsistency(s1, u1, p1, r, levels);
      ChainChild(s1, s2, r, u1, u2, pr, p1);
    }
    var s3 := Created(s2, u2, p2, Some(u1), levels);
    assert && Consistent(s3) && s3.Keys == {r, u1, u2} && u3 !in s3
      && s3[r].parents == map[] && s3[u1].parents == map[1 := r] && s3[u2].parents == map[1 := u1, 2 := r]
      && Level(s3[r], 1) == [Child(u1, p1)] && Level(s3[r], 2) == [Child(u2, p2)] && Level(s3[r], 3) == []
      && Level(s3[u1], 1) == [Child(u2, p2)] && Level(s3[u1], 2) == []
      && s3[r].childrens.Keys == {1, 2} && s3[u2].childrens == map[]
    by {
      ChildParentsChain(u1, r, r, r);
      CreatedShape(s2, u2, p2, u1, levels);
      CreatePreservesConsistency(s2, u2, p2, u1, levels);
      ChainGrandchild(s2, s3, r, u1, u2, u3, p1, p2);
    }
    var s4 := Created(s3, u3, p3, Some(u2), levels);
    assert && Consistent(s4) && s4.Keys == {r, u1, u2, u3}
      && s4[r].parents == map[] && s4[u3].parents == map[1 := u2, 2 := u1, 3 := r]
      && Level(s4[r], 1) == [Child(u1, p1)] && Level(s4[r], 2) == [Child(u2, p2)] && Level(s4[r], 3) == [Child(u3, p3)]
      && Level(s4[u1], 2) == [Child(u3, p3)] && Level(s4[u2], 1) == [Child(u3, p3)]
      && s4[r].childrens.Keys == {1, 2, 3}
    by {
      ChildParentsChain(u2, u1, r, r);
      CreatedShape(s3, u3, p3, u2, levels);
      CreatePreservesConsistency(s3, u3, p3, u2, levels);
      ChainGreatGrandchild(s3, s4, r, u1, u2, u3, p1, p2, p3);
    }
    ChainUpdate(s4, r, u1, u2, u3, p3, np);
    ChainRemove(s4, r, u1, u2, u3);
  }
}
