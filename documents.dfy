/**
  The documents of the referral collection and the single-document edits the
  keyed store applies to them: `$push` onto a per-level list, `$set` of the
  payload of the first element matched by a filter (the positional `$`), and
  `$unset` of a per-level key.
 */
module Documents {

  datatype Option<T> = None | Some(value: T)

  /** A denormalised copy `{_id, payload}` of a descendant, kept in an ancestor's list. */
  datatype Child = Child(id: string, payload: string)

  /**
    One stored referral document; its `_id` is the key it is stored under.
    `parents` maps a level to the id of the ancestor that many hops up (empty,
    i.e. absent, for a root); `childrens` maps a level to the copies of the
    descendants at that distance, in append order.
   */
  datatype Doc = Doc(payload: string, parents: map<int, string>, childrens: map<int, seq<Child>>)

  /** The list stored under `level`, empty when the key is absent. */
  function Level(d: Doc, level: int): seq<Child> {
    if level in d.childrens then d.childrens[level] else []
  }

  predicate Contains(cs: seq<Child>, id: string) {
    exists i :: 0 <= i < |cs| && cs[i].id == id
  }

  /** No two copies in `cs` carry the same id. */
  predicate Distinct(cs: seq<Child>) {
    forall i, j :: 0 <= i < j < |cs| ==> cs[i].id != cs[j].id
  }

  /** The filter `{'childrens.<level>': {$elemMatch: {_id: id}}}`. */
  predicate Matches(d: Doc, level: int, id: string): (b: bool)
    ensures b <==> Contains(Level(d, level), id)
  {
    level in d.childrens && Contains(d.childrens[level], id)
  }

  /** `$push` of `c` onto the list of every level in `levels`; an absent list is created. */
  function Push(d: Doc, levels: set<int>, c: Child): (r: Doc)
    ensures r.payload == d.payload && r.parents == d.parents
    ensures r.childrens.Keys == d.childrens.Keys + levels
  {
    d.(childrens := map k | k in d.childrens.Keys + levels :: Level(d, k) + if k in levels then [c] else [])
  }

  /** Position of the first element carrying `id`, or `|cs|` when there is none. */
  function IndexOf(cs: seq<Child>, id: string): (i: nat)
    ensures i <= |cs|
    ensures i < |cs| ==> cs[i].id == id
    ensures forall j :: 0 <= j < i ==> cs[j].id != id
  {
    if cs == [] then 0
    else if cs[0].id == id then 0
    else 1 + IndexOf(cs[1..], id)
  }

  /** `$set: {'childrens.<level>.$.payload': payload}` on one list: only the first element with `id` changes. */
  function SetFirstPayload(cs: seq<Child>, id: string, payload: string): (r: seq<Child>)
    ensures |r| == |cs|
    ensures forall i :: 0 <= i < |cs| ==> r[i].id == cs[i].id
  {
    var i := IndexOf(cs, id);
    if i < |cs| then cs[i := Child(id, payload)] else cs
  }

  /** The positional payload update applied to each present level in `levels`. */
  function SetPayloadAt(d: Doc, levels: set<int>, id: string, payload: string): (r: Doc)
    ensures r.payload == d.payload && r.parents == d.parents
    ensures r.childrens.Keys == d.childrens.Keys
  {
    d.(childrens := map k | k in d.childrens :: if k in levels then SetFirstPayload(d.childrens[k], id, payload) else d.childrens[k])
  }

  /** `$unset` of the level keys in `levels`, with every element they hold. */
  function Unset(d: Doc, levels: set<int>): (r: Doc)
    ensures r.payload == d.payload && r.parents == d.parents
    ensures forall k :: Level(r, k) == if k in levels then [] else Level(d, k)
  {
    d.(childrens := d.childrens - levels)
  }

  /** `$push` appends `c` as the last element of each targeted level and leaves every other field alone. */
  lemma PushAppends(d: Doc, levels: set<int>, c: Child, k: int)
    ensures Push(d, levels, c).payload == d.payload && Push(d, levels, c).parents == d.parents
    ensures k in Push(d, levels, c).childrens <==> k in d.childrens || k in levels
    ensures Level(Push(d, levels, c), k) == if k in levels then Level(d, k) + [c] else Level(d, k)
  {
  }

  /** Pushing onto no level leaves the document as it was. */
  lemma PushNothing(d: Doc, c: Child)
    ensures Push(d, {}, c) == d
  {
    var r := Push(d, {}, c).childrens;
    assert r.Keys == d.childrens.Keys;
    forall k | k in r ensures r[k] == d.childrens[k] {
      assert Level(d, k) + [] == Level(d, k);
    }
    assert r == d.childrens;
  }

  /** Two pushes of the same entry onto disjoint level sets are one push onto their union. */
  lemma PushTwice(d: Doc, first: set<int>, second: set<int>, c: Child)
    requires first !! second
    ensures Push(Push(d, first, c), second, c) == Push(d, first + second, c)
  {
    var lhs, rhs := Push(Push(d, first, c), second, c).childrens, Push(d, first + second, c).childrens;
    assert lhs.Keys == rhs.Keys;
    forall j | j in lhs ensures lhs[j] == rhs[j] {
      PushAppends(d, first, c, j);
      PushAppends(Push(d, first, c), second, c, j);
      PushAppends(d, first + second, c, j);
    }
    assert lhs == rhs;
  }

  /** A list with one more copy holds the ids it held and the new one. */
  lemma ContainsAppend(cs: seq<Child>, c: Child, id: string)
    ensures Contains(cs + [c], id) <==> Contains(cs, id) || c.id == id
  {
    if Contains(cs, id) {
      var i :| 0 <= i < |cs| && cs[i].id == id;
      assert (cs + [c])[i].id == id;
    }
    if c.id == id {
      assert (cs + [c])[|cs|].id == id;
    }
    if Contains(cs + [c], id) {
      var i :| 0 <= i < |cs + [c]| && (cs + [c])[i].id == id;
      if i < |cs| {
        assert cs[i].id == id;
      }
    }
  }

  /** Appending a copy whose id the list lacks keeps the ids distinct. */
  lemma DistinctAppend(cs: seq<Child>, c: Child)
    requires Distinct(cs) && !Contains(cs, c.id)
    ensures Distinct(cs + [c])
  {
    forall i, j | 0 <= i < j < |cs + [c]| ensures (cs + [c])[i].id != (cs + [c])[j].id {
      if j == |cs| {
        assert cs[i].id != c.id;
      }
    }
  }

  /**
    The positional update keeps the length and every id; when `id` occurs, the
    first occurrence alone takes the new payload; otherwise nothing changes.
   */
  lemma {:induction false} SetFirstPayloadEffect(cs: seq<Child>, id: string, payload: string)
    ensures |SetFirstPayload(cs, id, payload)| == |cs|
    ensures forall i :: 0 <= i < |cs| ==> SetFirstPayload(cs, id, payload)[i].id == cs[i].id
    ensures Contains(cs, id) <==> IndexOf(cs, id) < |cs|
    ensures Contains(cs, id) ==> SetFirstPayload(cs, id, payload)[IndexOf(cs, id)] == Child(id, payload)
    ensures forall i :: 0 <= i < |cs| && i != IndexOf(cs, id) ==> SetFirstPayload(cs, id, payload)[i] == cs[i]
    ensures !Contains(cs, id) ==> SetFirstPayload(cs, id, payload) == cs
  {
    var i := IndexOf(cs, id);
    if Contains(cs, id) {
      var j :| 0 <= j < |cs| && cs[j].id == id;
      assert i <= j;
    }
  }

  /** Updating a set of levels and then one more level is one update of their union. */
  lemma SetPayloadTwice(d: Doc, levels: set<int>, k: int, id: string, payload: string)
    requires k !in levels
    ensures SetPayloadAt(SetPayloadAt(d, levels, id, payload), {k}, id, payload) == SetPayloadAt(d, levels + {k}, id, payload)
  {
    assert SetPayloadAt(SetPayloadAt(d, levels, id, payload), {k}, id, payload).childrens
        == SetPayloadAt(d, levels + {k}, id, payload).childrens;
  }

  /** Where the filter does not match, the positional update of that level changes nothing. */
  lemma SetPayloadNoMatch(d: Doc, k: int, id: string, payload: string)
    requires !Matches(d, k, id)
    ensures SetPayloadAt(d, {k}, id, payload) == d
  {
    if k in d.childrens {
      SetFirstPayloadEffect(d.childrens[k], id, payload);
    }
    assert SetPayloadAt(d, {k}, id, payload).childrens == d.childrens;
  }

  lemma SetPayloadNothing(d: Doc, id: string, payload: string)
    ensures SetPayloadAt(d, {}, id, payload) == d
  {
    assert SetPayloadAt(d, {}, id, payload).childrens == d.childrens;
  }
}
