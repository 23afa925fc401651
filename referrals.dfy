/**
  The referral engine: a bounded-depth referral tree kept as one document per
  user in a keyed store. The specification functions below say, document by
  document, what each operation leaves in the store; the class `Referrals`
  performs the same operations step by step, as the engine issues its writes,
  and is proved to reach exactly those stores.
 */
module Referrals {
  import opened Documents

  type Store = map<string, Doc>

  /** The number of levels tracked when the caller gives none. */
  const DefaultLevels := 3

  /** JavaScript truthiness of the optional `parent` argument: absent or empty means a root. */
  predicate HasParent(parent: Option<string>): (b: bool)
    ensures b <==> parent != None && parent != Some("")
  {
    parent.Some? && parent.value != ""
  }

  /** The highest level the ancestor derivation can produce: level 1 is always there. */
  function Top(levels: int): (t: int)
    ensures t >= 1 && t >= levels && (levels >= 1 ==> t == levels)
  {
    if levels < 1 then 1 else levels
  }

  /**
    The ancestor map of a node created under `parent`, whose own ancestor map is
    `pp`: the parent at level 1, and each non-empty ancestor of the parent at
    level k < levels moved to level k + 1; whatever would land past `levels` is
    dropped.
   */
  function ChildParents(parent: string, pp: map<int, string>, levels: int): (ps: map<int, string>)
    ensures 1 in ps && ps[1] == parent
    ensures forall j :: j in ps ==> 1 <= j <= Top(levels) && (j == 1 || ps[j] != "")
  {
    var ps := map j | 1 <= j <= Top(levels) && (j == 1 || Inherited(pp, j)) :: if j == 1 then parent else pp[j - 1];
    assert 1 <= 1 <= Top(levels);
    ps
  }

  /** Level `j` of the child inherits the parent's non-empty ancestor of level `j - 1`. */
  predicate Inherited(pp: map<int, string>, j: int) {
    j - 1 in pp && pp[j - 1] != ""
  }

  /** The fan-out levels 2..upto at which document `n` is the (non-empty) ancestor in `ps`. */
  function FanOutLevels(ps: map<int, string>, n: string, upto: int): set<int> {
    set k | k in ps && 2 <= k <= upto && ps[k] != "" && ps[k] == n
  }

  /** Push `c` onto level `k` of the ancestor `ps[k]`, when that id is non-empty; an id not stored is skipped. */
  function PushToAncestor(s: Store, ps: map<int, string>, k: int, c: Child): (r: Store)
    ensures r.Keys == s.Keys
    ensures forall n :: n in s && !(k in ps && ps[k] == n) ==> r[n] == s[n]
  {
    if k in ps && ps[k] != "" && ps[k] in s then s[ps[k] := Push(s[ps[k]], {k}, c)] else s
  }

  /** The store after the fan-out of `c` to the ancestors of levels 2..upto, taken in ascending order. */
  function FannedOut(s: Store, ps: map<int, string>, c: Child, upto: int): (r: Store)
    ensures r.Keys == s.Keys
    ensures forall n :: n in s ==> r[n].payload == s[n].payload && r[n].parents == s[n].parents
    decreases upto
  {
    if upto < 2 then s else PushToAncestor(FannedOut(s, ps, c, upto - 1), ps, upto, c)
  }

  /** The store after `createReferral(id, payload, parent)`. */
  function Created(s: Store, id: string, payload: string, parent: Option<string>, levels: int): (r: Store)
    requires HasParent(parent) ==> parent.value in s
    ensures r.Keys == s.Keys + {id}
    ensures forall n :: n in s && n != id ==> r[n].payload == s[n].payload && r[n].parents == s[n].parents
  {
    if !HasParent(parent) then
      s[id := Doc(payload, map[], map[])]
    else
      var p, c := parent.value, Child(id, payload);
      var linked := s[p := Push(s[p], {1}, c)];
      var ps := ChildParents(p, linked[p].parents, levels);
      FannedOut(linked[id := Doc(payload, ps, map[])], ps, c, levels)
  }

  /** The levels of document `n` at which the lists among `done` get the positional update. */
  function UpdateLevels(ps: map<int, string>, n: string, done: set<int>): set<int> {
    set k | k in ps && k in done && ps[k] == n
  }

  /** The store after the payload copies for the ancestor levels in `done` have been rewritten. */
  function PayloadSpread(s: Store, id: string, payload: string, ps: map<int, string>, done: set<int>): (r: Store)
    ensures r.Keys == s.Keys
    ensures forall n :: n in s ==> r[n].payload == s[n].payload && r[n].parents == s[n].parents
  {
    map n | n in s :: SetPayloadAt(s[n], UpdateLevels(ps, n, done), id, payload)
  }

  /** The store after `updateReferralPayload(id, payload)`. */
  function PayloadUpdated(s: Store, id: string, payload: string): (r: Store)
    requires id in s
    ensures r.Keys == s.Keys
    ensures r[id].payload == payload && r[id].parents == s[id].parents
    ensures forall n :: n in s && n != id ==> r[n].payload == s[n].payload && r[n].parents == s[n].parents
  {
    var ps := s[id].parents;
    PayloadSpread(s[id := s[id].(payload := payload)], id, payload, ps, ps.Keys)
  }

  /** The levels among `done` that document `n` loses because its list there holds `id`. */
  function UnsetLevels(s: Store, id: string, ps: map<int, string>, n: string, done: set<int>): set<int>
    requires n in s
  {
    set k | k in ps && k in done && ps[k] == n && Matches(s[n], k, id)
  }

  /** The store after the level keys holding `id` have been unset for the ancestor levels in `done`. */
  function Unlinked(s: Store, id: string, ps: map<int, string>, done: set<int>): (r: Store)
    ensures r.Keys == s.Keys
    ensures forall n :: n in s ==> r[n].payload == s[n].payload && r[n].parents == s[n].parents
  {
    map n | n in s :: Unset(s[n], UnsetLevels(s, id, ps, n, done))
  }

  /** The store after `removeReferral(id)`. */
  function Removed(s: Store, id: string): (r: Store)
    requires id in s
    ensures r.Keys == s.Keys - {id}
    ensures forall n :: n in r ==> r[n].payload == s[n].payload && r[n].parents == s[n].parents
  {
    var ps := s[id].parents;
    Unlinked(s - {id}, id, ps, ps.Keys)
  }

  /** `findOne` by key: the document without its `_id`, or nothing. */
  function Lookup(s: Store, id: string): (r: Option<Doc>)
    ensures r.Some? <==> id in s
    ensures r.Some? ==> r.value == s[id]
  {
    if id in s then Some(s[id]) else None
  }

  lemma ChildParentsBase(parent: string, pp: map<int, string>)
    ensures ChildParents(parent, pp, 1) == map[1 := parent]
  {
    var first := ChildParents(parent, pp, 1);
    assert 1 <= 1 <= Top(1);
    assert 1 in first;
    assert first.Keys == {1};
  }

  /** Allowing one more level adds at most that level, inherited from the parent's level below it. */
  lemma ChildParentsGrow(parent: string, pp: map<int, string>, k: int)
    requires k >= 1
    ensures ChildParents(parent, pp, k + 1) ==
      if Inherited(pp, k + 1) then ChildParents(parent, pp, k)[k + 1 := pp[k]] else ChildParents(parent, pp, k)
  {
    var small, large := ChildParents(parent, pp, k), ChildParents(parent, pp, k + 1);
    var grown := if Inherited(pp, k + 1) then small[k + 1 := pp[k]] else small;
    forall j ensures j in large <==> j in grown {
      if j == k + 1 {
        assert j in large <==> Inherited(pp, j) || k == 0;
      }
    }
    assert large.Keys == grown.Keys;
  }

  lemma FanOutLevelsStep(ps: map<int, string>, n: string, k: int)
    requires k >= 2
    ensures FanOutLevels(ps, n, k) ==
      if k in ps && ps[k] != "" && ps[k] == n then FanOutLevels(ps, n, k - 1) + {k} else FanOutLevels(ps, n, k - 1)
  {
  }

  /**
    The fan-out, document by document: every stored document receives `c` at
    exactly the levels 2..upto whose ancestor it is, and no document is added.
   */
  lemma {:induction false} FannedOutAt(s: Store, ps: map<int, string>, c: Child, upto: int)
    ensures FannedOut(s, ps, c, upto).Keys == s.Keys
    ensures forall n :: n in s ==> FannedOut(s, ps, c, upto)[n] == Push(s[n], FanOutLevels(ps, n, upto), c)
    decreases upto
  {
    if upto < 2 {
      forall n | n in s ensures s[n] == Push(s[n], FanOutLevels(ps, n, upto), c) {
        assert FanOutLevels(ps, n, upto) == {};
        PushNothing(s[n], c);
      }
    } else {
      FannedOutAt(s, ps, c, upto - 1);
      forall n | n in s ensures FannedOut(s, ps, c, upto)[n] == Push(s[n], FanOutLevels(ps, n, upto), c) {
        FanOutLevelsStep(ps, n, upto);
        if upto in ps && ps[upto] != "" && ps[upto] == n {
          PushTwice(s[n], FanOutLevels(ps, n, upto - 1), {upto}, c);
        }
      }
    }
  }

  lemma PayloadSpreadNone(s: Store, id: string, payload: string, ps: map<int, string>)
    ensures PayloadSpread(s, id, payload, ps, {}) == s
  {
    forall n | n in s ensures PayloadSpread(s, id, payload, ps, {})[n] == s[n] {
      assert UpdateLevels(ps, n, {}) == {};
      SetPayloadNothing(s[n], id, payload);
    }
  }

  /** Handling one more ancestor level rewrites at most the first copy in that ancestor's list. */
  lemma PayloadSpreadStep(s: Store, id: string, payload: string, ps: map<int, string>, done: set<int>, k: int)
    requires k in ps && k !in done
    ensures var before := PayloadSpread(s, id, payload, ps, done);
      PayloadSpread(s, id, payload, ps, done + {k}) ==
        if ps[k] in before && Matches(before[ps[k]], k, id)
        then before[ps[k] := SetPayloadAt(before[ps[k]], {k}, id, payload)]
        else before
  {
    var before, after := PayloadSpread(s, id, payload, ps, done), PayloadSpread(s, id, payload, ps, done + {k});
    forall n | n in s
      ensures after[n] == if ps[k] == n then SetPayloadAt(before[n], {k}, id, payload) else before[n]
    {
      if ps[k] == n {
        assert UpdateLevels(ps, n, done + {k}) == UpdateLevels(ps, n, done) + {k};
        SetPayloadTwice(s[n], UpdateLevels(ps, n, done), k, id, payload);
      } else {
        assert UpdateLevels(ps, n, done + {k}) == UpdateLevels(ps, n, done);
      }
    }
    if ps[k] in before && !Matches(before[ps[k]], k, id) {
      SetPayloadNoMatch(before[ps[k]], k, id, payload);
    }
  }

  lemma UnlinkedNone(s: Store, id: string, ps: map<int, string>)
    ensures Unlinked(s, id, ps, {}) == s
  {
    forall n | n in s ensures Unlinked(s, id, ps, {})[n] == s[n] {
      assert UnsetLevels(s, id, ps, n, {}) == {};
      assert Unset(s[n], {}).childrens == s[n].childrens;
    }
  }

  /** Handling one more ancestor level unsets that level of the ancestor when its list holds `id`. */
  lemma UnlinkedStep(s: Store, id: string, ps: map<int, string>, done: set<int>, k: int)
    requires k in ps && k !in done
    ensures var before := Unlinked(s, id, ps, done);
      Unlinked(s, id, ps, done + {k}) ==
        if ps[k] in before && Matches(before[ps[k]], k, id)
        then before[ps[k] := Unset(before[ps[k]], {k})]
        else before
  {
    var before, after := Unlinked(s, id, ps, done), Unlinked(s, id, ps, done + {k});
    forall n | n in s
      ensures after[n] == if ps[k] == n && Matches(before[n], k, id) then Unset(before[n], {k}) else before[n]
    {
      var prior := UnsetLevels(s, id, ps, n, done);
      assert Matches(before[n], k, id) == Matches(s[n], k, id);
      if ps[k] == n && Matches(s[n], k, id) {
        assert UnsetLevels(s, id, ps, n, done + {k}) == prior + {k};
        assert Unset(Unset(s[n], prior), {k}).childrens == Unset(s[n], prior + {k}).childrens;
      } else {
        assert UnsetLevels(s, id, ps, n, done + {k}) == prior;
      }
    }
  }

  /** Some level of a non-empty set; the iteration order over an ancestor map is left open. */
  method AnyLevel(pending: set<int>) returns (k: int)
    requires pending != {}
    ensures k in pending
  {
    if forall j :: j !in pending {
      assert false;
    }
    k :| k in pending;
  }

  /**
    The engine over one referral collection. `store` stands for the collection's
    documents keyed by `_id`; `levels` is the configured `referralLevels`.
   */
  class Referrals {
    const levels: int
    var store: Store

    /** Binds the engine to a collection holding `docs`, tracking `levels` levels. */
    constructor (docs: Store, levels: int := DefaultLevels)
      ensures this.levels == levels && store == docs
    {
      this.levels := levels;
      store := docs;
    }

    /** `findOneAndUpdate` with `$push` onto one level, returning the document after the update. */
    method PushChild(name: string, level: int, c: Child) returns (updated: Option<Doc>)
      modifies this
      ensures store == if name in old(store) then old(store)[name := Push(old(store)[name], {level}, c)] else old(store)
      ensures updated == Lookup(store, name)
    {
      if name in store {
        store := store[name := Push(store[name], {level}, c)];
        updated := Some(store[name]);
      } else {
        updated := None;
      }
    }

    /** `insertOne`: the key must be fresh, or the store refuses it. */
    method InsertReferral(id: string, doc: Doc)
      requires id !in store
      modifies this
      ensures store == old(store)[id := doc]
    {
      store := store[id := doc];
    }

    /**
      `findOneAndUpdate` with the filter `{_id: a, 'childrens.<k>': {$elemMatch: {_id: id}}}`
      and `$set` of the matched element's payload.
     */
    method SetCopyPayload(a: string, k: int, id: string, payload: string)
      modifies this
      ensures store == if a in old(store) && Matches(old(store)[a], k, id)
        then old(store)[a := SetPayloadAt(old(store)[a], {k}, id, payload)] else old(store)
    {
      if a in store && Matches(store[a], k, id) {
        store := store[a := SetPayloadAt(store[a], {k}, id, payload)];
      }
    }

    /** `findOneAndUpdate` with the same filter and `$unset` of the whole level key. */
    method UnsetCopies(a: string, k: int, id: string)
      modifies this
      ensures store == if a in old(store) && Matches(old(store)[a], k, id)
        then old(store)[a := Unset(old(store)[a], {k})] else old(store)
    {
      if a in store && Matches(store[a], k, id) {
        store := store[a := Unset(store[a], {k})];
      }
    }

    /** The loop that builds `childrenParents` from the parent's ancestor map. */
    method DeriveParents(parent: string, pp: map<int, string>) returns (ps: map<int, string>)
      ensures ps == ChildParents(parent, pp, levels)
    {
      ps := map[1 := parent];
      ChildParentsBase(parent, pp);
      // A root's missing `parents` is the empty map here, for which the loop adds nothing.
      var k := 1;
      while k < levels
        invariant 1 <= k <= Top(levels)
        invariant ps == ChildParents(parent, pp, k)
      {
        ChildParentsGrow(parent, pp, k);
        if k in pp && pp[k] != "" {
          ps := ps[k + 1 := pp[k]];
        }
        k := k + 1;
      }
    }

    /** The loop that pushes `c` to the ancestors `ps` of levels 2..levels (`parentsForUpdate`). */
    method FanOut(ps: map<int, string>, c: Child)
      modifies this
      ensures store == FannedOut(old(store), ps, c, levels)
    {
      ghost var inserted := store;
      var k := 2;
      while k <= levels
        invariant 2 <= k && (k <= levels + 1 || k == 2)
        invariant store == FannedOut(inserted, ps, c, k - 1)
      {
        var parentId := if k in ps then ps[k] else "";
        if parentId != "" {
          var _ := PushChild(parentId, k, c);
        }
        k := k + 1;
      }
    }

    /**
      `createReferral(id, payload, parent)`: push to the parent's level 1, store
      the new document with its derived ancestors, then fan out to the ancestors
      of levels 2..levels. Returns the document inserted.
     */
    method CreateReferral(id: string, payload: string, parent: Option<string>) returns (doc: Doc)
      requires id !in store
      requires HasParent(parent) ==> parent.value in store
      modifies this
      ensures store == Created(old(store), id, payload, parent, levels)
      ensures doc == Doc(payload, if HasParent(parent) then ChildParents(parent.value, old(store)[parent.value].parents, levels) else map[], map[])
    {
      if HasParent(parent) {
        var p, c := parent.value, Child(id, payload);
        var user := PushChild(p, 1, c);
        var ps := DeriveParents(p, user.value.parents);
        doc := Doc(payload, ps, map[]);
        InsertReferral(id, doc);
        FanOut(ps, c);
      } else {
        doc := Doc(payload, map[], map[]);
        InsertReferral(id, doc);
      }
    }

    /**
      `updateReferralPayload(id, payload)`: set the node's own payload, then, for
      each ancestor level, rewrite the first copy of the node in that ancestor's
      list when there is one. The ancestor levels are taken in any order.
      Returns the node's document after its own write.
     */
    method UpdateReferralPayload(id: string, payload: string) returns (updated: Doc)
      requires id in store
      modifies this
      ensures store == PayloadUpdated(old(store), id, payload)
      ensures updated == old(store)[id].(payload := payload)
    {
      var ps := store[id].parents;
      store := store[id := store[id].(payload := payload)];
      updated := store[id];
      ghost var own := store;
      PayloadSpreadNone(own, id, payload, ps);
      var pending := ps.Keys;
      assert ps.Keys - pending == {};
      while pending != {}
        invariant pending <= ps.Keys
        invariant store == PayloadSpread(own, id, payload, ps, ps.Keys - pending)
        decreases pending
      {
        var k := AnyLevel(pending);
        PayloadSpreadStep(own, id, payload, ps, ps.Keys - pending, k);
        assert ps.Keys - pending + {k} == ps.Keys - (pending - {k});
        SetCopyPayload(ps[k], k, id, payload);
        pending := pending - {k};
      }
      assert ps.Keys - pending == ps.Keys;
    }

    /**
      `removeReferral(id)`: delete the node's document, then, for each ancestor
      level, unset that whole level of the ancestor when its list holds the
      node. The ancestor levels are taken in any order. Returns the document
      deleted.
     */
    method RemoveReferral(id: string) returns (removed: Doc)
      requires id in store
      modifies this
      ensures store == Removed(old(store), id)
      ensures removed == old(store)[id]
    {
      var ps := store[id].parents;
      removed := store[id];
      store := store - {id};
      ghost var rest := store;
      UnlinkedNone(rest, id, ps);
      var pending := ps.Keys;
      assert ps.Keys - pending == {};
      while pending != {}
        invariant pending <= ps.Keys
        invariant store == Unlinked(rest, id, ps, ps.Keys - pending)
        decreases pending
      {
        var k := AnyLevel(pending);
        UnlinkedStep(rest, id, ps, ps.Keys - pending, k);
        assert ps.Keys - pending + {k} == ps.Keys - (pending - {k});
        UnsetCopies(ps[k], k, id);
        pending := pending - {k};
      }
      assert ps.Keys - pending == ps.Keys;
    }

    /** `getReferrals(id)`: the stored document without its `_id`, or nothing when the id is unknown. */
    function GetReferrals(id: string): (r: Option<Doc>)
      reads this
      ensures r.Some? <==> id in store
      ensures r.Some? ==> r.value == store[id]
    {
      Lookup(store, id)
    }
  }
}
