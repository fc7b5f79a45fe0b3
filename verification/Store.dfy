/**
 One collection of the embedded document store with its secondary indexes
 (internal/platform/store/store.go:178-263, 329-446). The store keeps these maps
 per collection name and every operation touches one collection.
 */
module Stores {

  type Id = string

  /** A document, as extractField sees it: its fields that hold strings. */
  type Doc = map<string, string>

  type Forward = map<string, map<string, seq<Id>>>  // field -> value -> ids
  type Reverse = map<Id, map<string, string>>       // id -> field -> value

  // ---------------------------------------------------------------- the invariant

  /** The forward index lists `id` under value `v` of field `f`. */
  predicate Hits(idx: Forward, f: string, v: string, id: Id)
  {
    f in idx && v in idx[f] && id in idx[f][v]
  }

  /** The reverse index remembers value `v` of field `f` for `id`. */
  predicate Remembers(byId: Reverse, f: string, v: string, id: Id)
  {
    id in byId && f in byId[id] && byId[id][f] == v
  }

  /** The stored document has the non-empty value `v` in field `f`. */
  predicate Matches(docs: map<Id, Doc>, f: string, v: string, id: Id)
  {
    id in docs && f in docs[id] && docs[id][f] == v && v != ""
  }

  predicate NoDuplicates(s: seq<Id>)
  {
    forall i, j :: 0 <= i < j < |s| ==> s[i] != s[j]
  }

  /** No empty and no duplicated id lists. */
  predicate ListOk(idx: Forward, f: string, v: string)
  {
    f in idx && v in idx[f] ==> idx[f][v] != [] && NoDuplicates(idx[f][v])
  }

  ghost predicate Shaped(idx: Forward)
  {
    forall f, v :: ListOk(idx, f, v)
  }

  /** Forward and reverse index are mutually inverse. */
  ghost predicate Mirrors(idx: Forward, byId: Reverse)
  {
    forall f, v, id :: Hits(idx, f, v, id) <==> Remembers(byId, f, v, id)
  }

  /** Through a registered field the index finds exactly what a scan would. */
  ghost predicate Indexes(idx: Forward, docs: map<Id, Doc>)
  {
    forall f, v, id :: f in idx ==> (Hits(idx, f, v, id) <==> Matches(docs, f, v, id))
  }

  lemma {:induction false} SpliceMembers(s: seq<Id>, i: nat)
    requires i < |s| && NoDuplicates(s)
    ensures var r := s[..i] + s[i + 1..];
            NoDuplicates(r) && forall x :: x in r <==> x in s && x != s[i]
  {
    var r := s[..i] + s[i + 1..];
    forall x ensures x in r <==> x in s && x != s[i] {
      if x in s && x != s[i] {
        var k :| 0 <= k < |s| && s[k] == x;
        if k < i { assert r[k] == x; } else { assert r[k - 1] == x; }
      }
    }
  }

  lemma {:induction false} HasMember(s: seq<Id>)
    ensures s == [] || exists x :: x in s
  {
    if s != [] { assert s[0] in s; }
  }

  class Collection {
    var docs: map<Id, Doc>
    var fields: seq<string>
    var idx: Forward
    var byId: Reverse

    ghost predicate Valid()
      reads this
    {
      && (forall f :: f in idx <==> f in fields)
      && (forall i, j :: 0 <= i < j < |fields| ==> fields[i] != fields[j])
      && Shaped(idx) && Mirrors(idx, byId) && Indexes(idx, docs)
    }

    constructor ()
      ensures Valid() && docs == map[] && fields == []
    {
      docs, fields, idx, byId := map[], [], map[], map[];
    }

    /** indexDocLocked: add `id` under the document's value of one registered field. */
    method IndexDoc(id: Id, field: string, doc: Doc)
      requires field in idx && Shaped(idx) && Mirrors(idx, byId)
      requires forall v :: !Hits(idx, field, v, id)
      modifies this`idx, this`byId
      ensures Shaped(idx) && Mirrors(idx, byId) && idx.Keys == old(idx.Keys)
      ensures forall f, v, x :: Hits(idx, f, v, x) <==>
                Hits(old(idx), f, v, x) || (f == field && x == id && field in doc && doc[field] == v && v != "")
    {
      if field !in doc || doc[field] == "" { return; }
      var val := doc[field];
      var ids := if val in idx[field] then idx[field][val] else [];
      assert !Hits(idx, field, val, id);
      assert ListOk(idx, field, val);
      idx := idx[field := idx[field][val := ids + [id]]];
      var mine := if id in byId then byId[id] else map[];
      byId := byId[id := mine[field := val]];
      forall f, v ensures ListOk(idx, f, v) { assert ListOk(old(idx), f, v); }
      forall f, v, x ensures Hits(idx, f, v, x) <==> Hits(old(idx), f, v, x) || (f == field && x == id && v == val) { }
      forall f, v, x ensures Hits(idx, f, v, x) <==> Remembers(byId, f, v, x) {
        assert Hits(old(idx), f, v, x) <==> Remembers(old(byId), f, v, x);
        if f == field && x == id && v != val { assert !Hits(old(idx), field, v, id); }
      }
    }

    /** Takes `id` out of one id list, dropping the list when it becomes empty. */
    method Unlist(field: string, val: string, id: Id)
      requires Shaped(idx) && Hits(idx, field, val, id)
      modifies this`idx
      ensures Shaped(idx) && idx.Keys == old(idx.Keys)
      ensures forall f, v, x :: Hits(idx, f, v, x) <==> Hits(old(idx), f, v, x) && !(f == field && v == val && x == id)
    {
      var ids := idx[field][val];
      assert ListOk(idx, field, val);
      var i := 0;
      while ids[i] != id
        invariant 0 <= i < |ids| && id in ids[i..]
        decreases |ids| - i
      {
        i := i + 1;
      }
      SpliceMembers(ids, i);
      var rest := ids[..i] + ids[i + 1..];
      idx := idx[field := if rest == [] then idx[field] - {val} else idx[field][val := rest]];
      forall f, v ensures ListOk(idx, f, v) { assert ListOk(old(idx), f, v); }
      forall f, v, x ensures Hits(idx, f, v, x) <==> Hits(old(idx), f, v, x) && !(f == field && v == val && x == id) {
        if f == field && v == val { assert Hits(idx, f, v, x) <==> x in rest; }
      }
    }

    /** deindexLocked: remove `id` from every index of the collection. */
    method Deindex(id: Id)
      requires Shaped(idx) && Mirrors(idx, byId)
      modifies this`idx, this`byId
      ensures Shaped(idx) && Mirrors(idx, byId) && idx.Keys == old(idx.Keys)
      ensures forall f, v, x :: Hits(idx, f, v, x) <==> Hits(old(idx), f, v, x) && x != id
    {
      var mine := if id in byId then byId[id] else map[];
      var todo := mine.Keys;
      while todo != {}
        invariant Shaped(idx) && idx.Keys == old(idx.Keys) && byId == old(byId) && todo <= mine.Keys
        invariant forall f, v, x :: Hits(idx, f, v, x) <==> Hits(old(idx), f, v, x) && (x != id || f in todo)
        decreases |todo|
      {
        var field :| field in todo;
        assert Remembers(byId, field, mine[field], id);
        assert Hits(old(idx), field, mine[field], id);
        label Before:
        Unlist(field, mine[field], id);
        todo := todo - {field};
        forall f, v, x ensures Hits(idx, f, v, x) <==> Hits(old(idx), f, v, x) && (x != id || f in todo) {
          assert Hits(old(idx), f, v, x) <==> Remembers(old(byId), f, v, x);
          assert Hits(old@Before(idx), f, v, x) <==> Hits(old(idx), f, v, x) && (x != id || f in todo + {field});
        }
      }
      byId := byId - {id};
      forall f, v, x ensures Hits(idx, f, v, x) <==> Hits(old(idx), f, v, x) && x != id {
        assert Hits(old(idx), f, v, x) <==> Remembers(old(byId), f, v, x);
      }
      forall f, v, x ensures Hits(idx, f, v, x) <==> Remembers(byId, f, v, x) {
        assert Hits(old(idx), f, v, x) <==> Remembers(old(byId), f, v, x);
      }
    }

    /** reindexLocked: refresh every registered index after a write. */
    method Reindex(id: Id, doc: Doc)
      requires (forall f :: f in idx <==> f in fields) && Shaped(idx) && Mirrors(idx, byId)
      requires forall i, j :: 0 <= i < j < |fields| ==> fields[i] != fields[j]
      modifies this`idx, this`byId
      ensures Shaped(idx) && Mirrors(idx, byId) && idx.Keys == old(idx.Keys)
      ensures forall f, v, x :: Hits(idx, f, v, x) <==>
                if x == id then f in fields && f in doc && doc[f] == v && v != "" else Hits(old(idx), f, v, x)
    {
      if |fields| == 0 { return; }
      Deindex(id);
      for i := 0 to |fields|
        invariant Shaped(idx) && Mirrors(idx, byId) && idx.Keys == old(idx.Keys)
        invariant forall f, v, x :: Hits(idx, f, v, x) <==>
                    if x == id then f in fields[..i] && f in doc && doc[f] == v && v != "" else Hits(old(idx), f, v, x)
      {
        assert fields[i] in fields && fields[i] !in fields[..i];
        assert forall v :: !Hits(idx, fields[i], v, id);
        assert forall f :: f in fields[..i + 1] <==> f in fields[..i] || f == fields[i];
        IndexDoc(id, fields[i], doc);
      }
      assert fields[..|fields|] == fields;
    }

    method Put(id: Id, doc: Doc)
      requires Valid()
      modifies this
      ensures Valid() && docs == old(docs)[id := doc] && fields == old(fields)
    {
      docs := docs[id := doc];
      Reindex(id, doc);
      forall f, v, x | f in idx ensures Hits(idx, f, v, x) <==> Matches(docs, f, v, x) {
        assert x != id ==> (Hits(old(idx), f, v, x) <==> Matches(old(docs), f, v, x));
      }
    }

    /** PutIfAbsent: the claim primitive; a used id is left alone. */
    method PutIfAbsent(id: Id, doc: Doc) returns (won: bool)
      requires Valid()
      modifies this
      ensures Valid() && fields == old(fields) && won == (id !in old(docs))
      ensures docs == if won then old(docs)[id := doc] else old(docs)
    {
      if id in docs { return false; }
      Put(id, doc);
      won := true;
    }

    method Delete(id: Id) returns (found: bool)
      requires Valid()
      modifies this
      ensures Valid() && fields == old(fields) && found == (id in old(docs)) && docs == old(docs) - {id}
    {
      if id !in docs {
        assert docs - {id} == docs;
        return false;
      }
      docs := docs - {id};
      Deindex(id);
      forall f, v, x | f in idx ensures Hits(idx, f, v, x) <==> Matches(docs, f, v, x) {
        assert Hits(old(idx), f, v, x) <==> Matches(old(docs), f, v, x);
      }
      found := true;
    }

    /** RegisterIndex: idempotent; documents already stored are indexed once. */
    method RegisterIndex(field: string)
      requires Valid()
      modifies this`fields, this`idx, this`byId
      ensures Valid() && fields == if field in old(fields) then old(fields) else old(fields) + [field]
    {
      if field in fields { return; }
      fields := fields + [field];
      idx := idx[field := map[]];
      forall f, v ensures ListOk(idx, f, v) { assert ListOk(old(idx), f, v); }
      forall f, v, x ensures Hits(idx, f, v, x) <==> Hits(old(idx), f, v, x) { }
      forall f, v, x ensures Hits(idx, f, v, x) <==> Remembers(byId, f, v, x) {
        assert Hits(old(idx), f, v, x) <==> Remembers(byId, f, v, x);
      }
      label Opened:
      Backfill(field);
      forall f, v, x | f in idx ensures Hits(idx, f, v, x) <==> Matches(docs, f, v, x) {
        assert Hits(old@Opened(idx), f, v, x) <==> Hits(old(idx), f, v, x);
        assert f != field ==> (Hits(old(idx), f, v, x) <==> Matches(docs, f, v, x));
      }
    }

    /** Indexes one field of every stored document. */
    method Backfill(field: string)
      requires field in idx && Shaped(idx) && Mirrors(idx, byId) && forall v, x :: !Hits(idx, field, v, x)
      modifies this`idx, this`byId
      ensures Shaped(idx) && Mirrors(idx, byId) && idx.Keys == old(idx.Keys)
      ensures forall f, v, x :: Hits(idx, f, v, x) <==> Hits(old(idx), f, v, x) || (f == field && Matches(docs, f, v, x))
    {
      var todo := docs.Keys;
      while todo != {}
        invariant Shaped(idx) && Mirrors(idx, byId) && idx.Keys == old(idx.Keys) && todo <= docs.Keys
        invariant forall f, v, x :: Hits(idx, f, v, x) <==>
                    Hits(old(idx), f, v, x) || (f == field && x !in todo && Matches(docs, f, v, x))
        decreases |todo|
      {
        var id :| id in todo;
        assert forall v :: !Hits(idx, field, v, id);
        label Before:
        IndexDoc(id, field, docs[id]);
        todo := todo - {id};
        forall f, v, x ensures Hits(idx, f, v, x) <==>
                 Hits(old(idx), f, v, x) || (f == field && x !in todo && Matches(docs, f, v, x)) {
          assert Hits(old@Before(idx), f, v, x) <==>
                   Hits(old(idx), f, v, x) || (f == field && x !in todo + {id} && Matches(docs, f, v, x));
        }
      }
    }

    /**
     ListWhere: through the index when the field is registered, else by a scan.
     For every non-empty value both give exactly the matching documents, each
     once; a registered field never finds the empty value.
     */
    method ListWhere(field: string, value: string) returns (ids: seq<Id>, out: seq<Doc>)
      requires Valid()
      ensures NoDuplicates(ids) && |out| == |ids|
      ensures forall i :: 0 <= i < |ids| ==> ids[i] in docs && out[i] == docs[ids[i]]
      ensures value != "" ==> forall id :: id in ids <==> Matches(docs, field, value, id)
      ensures value == "" && field in fields ==> ids == []
      ensures value == "" && field !in fields ==> forall id :: id in ids <==> id in docs && field in docs[id] && docs[id][field] == ""
    {
      if field in idx {
        ids := if value in idx[field] then idx[field][value] else [];
        assert ListOk(idx, field, value);
        forall id ensures id in ids <==> Matches(docs, field, value, id) {
          assert Hits(idx, field, value, id) <==> Matches(docs, field, value, id);
        }
        forall i | 0 <= i < |ids| ensures ids[i] in docs { assert ids[i] in ids; }
        HasMember(ids);
        out := Fetch(ids);
      } else {
        ids, out := Scan(field, value);
      }
    }

    method Fetch(ids: seq<Id>) returns (out: seq<Doc>)
      requires forall i :: 0 <= i < |ids| ==> ids[i] in docs
      ensures |out| == |ids| && forall i :: 0 <= i < |ids| ==> out[i] == docs[ids[i]]
    {
      out := [];
      for i := 0 to |ids|
        invariant |out| == i && forall k :: 0 <= k < i ==> out[k] == docs[ids[k]]
      {
        out := out + [docs[ids[i]]];
      }
    }

    method Scan(field: string, value: string) returns (ids: seq<Id>, out: seq<Doc>)
      ensures NoDuplicates(ids) && |out| == |ids|
      ensures forall i :: 0 <= i < |ids| ==> ids[i] in docs && out[i] == docs[ids[i]]
      ensures forall id :: id in ids <==> id in docs && field in docs[id] && docs[id][field] == value
    {
      ids, out := [], [];
      var todo := docs.Keys;
      while todo != {}
        invariant todo <= docs.Keys && NoDuplicates(ids) && |out| == |ids|
        invariant forall i :: 0 <= i < |ids| ==> ids[i] in docs && out[i] == docs[ids[i]]
        invariant forall id :: id in ids <==> id in docs && id !in todo && field in docs[id] && docs[id][field] == value
        decreases |todo|
      {
        var id :| id in todo;
        if field in docs[id] && docs[id][field] == value {
          assert id !in ids;
          ids, out := ids + [id], out + [docs[id]];
        }
        todo := todo - {id};
      }
    }
  }
}
