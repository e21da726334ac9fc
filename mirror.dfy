/** The list transforms every entity hook applies to its local copy of the server's records
    (its mirror): append, prepend, shallow merge into the record with a given id, and removal
    by one id or by a list of ids. A record is an object value; its id is the field `idKey`. */
module Mirror {
  import opened Js
  import opened Seqs

  function IdOf(rec: Value, idKey: string): Value {
    Get(rec, idKey)
  }

  /** The axios response of a backend call that answers with the `{success, data}` envelope. */
  function Enveloped(payload: Value): Value {
    Obj(map["data" := Obj(map["success" := Bool(true), "data" := payload])])
  }

  /** The axios response of a call that answers with the payload itself. */
  function Bare(payload: Value): Value {
    Obj(map["data" := payload])
  }

  /** The answer carries the `{success, data}` envelope with a truthy payload. */
  predicate IsEnveloped(response: Value) {
    var data := Get(response, "data");
    Truthy(data) && Truthy(Get(data, "success")) && Truthy(Get(data, "data"))
  }

  /** The record a create, update or single fetch keeps from its answer: the envelope's
      payload, otherwise the raw `data` when it is truthy, otherwise nothing (undefined). */
  function Unwrap(response: Value): Value {
    if IsEnveloped(response) then Get(Get(response, "data"), "data")
    else if Truthy(Get(response, "data")) then Get(response, "data")
    else Undefined
  }

  /** The list a fetch keeps from its answer: the envelope's payload, otherwise a bare array,
      otherwise the empty list. */
  function UnwrapList(response: Value): seq<Value> {
    var data := Get(response, "data");
    if IsEnveloped(response) then Items(Get(data, "data"))
    else if data.Arr? then data.items
    else []
  }

  /** An answer yields a record exactly when its `data` is truthy. */
  lemma UnwrapTruthy(response: Value)
    ensures Truthy(Unwrap(response)) <==> Truthy(Get(response, "data"))
    ensures !Truthy(Unwrap(response)) ==> Unwrap(response) == Undefined
  {
  }

  /** The two shapes give the same record and the same list: the envelope around a payload,
      and the bare payload (when that payload does not itself look like an envelope). */
  lemma UnwrapShapes(rec: Value)
    ensures Truthy(rec) ==> Unwrap(Enveloped(rec)) == rec
    ensures Truthy(rec) && !Truthy(Get(rec, "success")) ==> Unwrap(Bare(rec)) == rec
    ensures rec.Arr? ==> UnwrapList(Enveloped(rec)) == rec.items && UnwrapList(Bare(rec)) == rec.items
  {
    assert Get(Enveloped(rec), "data") == Obj(map["success" := Bool(true), "data" := rec]);
    assert Get(Bare(rec), "data") == rec;
  }

  /** `list.map(x => x[idKey] === id ? {...x, ...patch} : x)`. */
  function PatchWhere(list: seq<Value>, idKey: string, id: Value, patch: Value): (r: seq<Value>)
    ensures |r| == |list|
  {
    if list == [] then []
    else [if StrictEquals(IdOf(list[0], idKey), id) then Merge(list[0], patch) else list[0]]
         + PatchWhere(list[1..], idKey, id, patch)
  }

  /** `list.filter(x => x[idKey] !== id)`. */
  function RemoveWhere(list: seq<Value>, idKey: string, id: Value): (r: seq<Value>)
    ensures |r| <= |list|
  {
    if list == [] then []
    else (if StrictEquals(IdOf(list[0], idKey), id) then [] else [list[0]])
         + RemoveWhere(list[1..], idKey, id)
  }

  /** `list.filter(x => !ids.includes(x[idKey]))`. */
  function RemoveIds(list: seq<Value>, idKey: string, ids: seq<Value>): (r: seq<Value>)
    ensures |r| <= |list|
  {
    if list == [] then []
    else (if Contains(ids, IdOf(list[0], idKey)) then [] else [list[0]])
         + RemoveIds(list[1..], idKey, ids)
  }

  /** The number of records whose id is `=== id`. */
  function CountWhere(list: seq<Value>, idKey: string, id: Value): nat {
    if list == [] then 0
    else (if StrictEquals(IdOf(list[0], idKey), id) then 1 else 0) + CountWhere(list[1..], idKey, id)
  }

  /** The patched list, position by position: a record with a matching id is merged with the
      patch (the patch's fields win), every other record is left as it was. */
  lemma {:induction false} PatchWhereAt(list: seq<Value>, idKey: string, id: Value, patch: Value, i: nat)
    requires i < |list|
    ensures StrictEquals(IdOf(list[i], idKey), id) ==>
              PatchWhere(list, idKey, id, patch)[i] == Merge(list[i], patch)
    ensures !StrictEquals(IdOf(list[i], idKey), id) ==>
              PatchWhere(list, idKey, id, patch)[i] == list[i]
  {
    if i > 0 {
      PatchWhereAt(list[1..], idKey, id, patch, i - 1);
    }
  }

  /** A patch that does not carry the id, or carries the same one, keeps every record's id,
      so applying it again patches the same records. */
  lemma {:induction false} PatchWhereKeepsIds(list: seq<Value>, idKey: string, id: Value, patch: Value)
    requires idKey !in Spread(patch) || Spread(patch)[idKey] == id
    requires !AllDigits(idKey)
    ensures forall i :: 0 <= i < |list| ==>
              StrictEquals(IdOf(PatchWhere(list, idKey, id, patch)[i], idKey), id)
              == StrictEquals(IdOf(list[i], idKey), id)
  {
    forall i | 0 <= i < |list|
      ensures StrictEquals(IdOf(PatchWhere(list, idKey, id, patch)[i], idKey), id)
              == StrictEquals(IdOf(list[i], idKey), id)
    {
      PatchWhereAt(list, idKey, id, patch, i);
    }
  }

  /** Patching without a match changes nothing. */
  lemma {:induction false} PatchWhereNoMatch(list: seq<Value>, idKey: string, id: Value, patch: Value)
    requires CountWhere(list, idKey, id) == 0
    ensures PatchWhere(list, idKey, id, patch) == list
  {
    if list != [] {
      PatchWhereNoMatch(list[1..], idKey, id, patch);
    }
  }

  /** Removal keeps exactly the records whose id is not `=== id`, in their order, and removes
      as many records as match. */
  lemma {:induction false} RemoveWhereSpec(list: seq<Value>, idKey: string, id: Value)
    ensures forall x :: x in RemoveWhere(list, idKey, id) ==> x in list && !StrictEquals(IdOf(x, idKey), id)
    ensures forall x :: x in list && !StrictEquals(IdOf(x, idKey), id) ==> x in RemoveWhere(list, idKey, id)
    ensures |RemoveWhere(list, idKey, id)| == |list| - CountWhere(list, idKey, id)
  {
    if list != [] {
      RemoveWhereSpec(list[1..], idKey, id);
    }
  }

  /** Removal distributes over concatenation: each record is kept or dropped on its own. */
  lemma {:induction false} RemoveWhereConcat(a: seq<Value>, b: seq<Value>, idKey: string, id: Value)
    ensures RemoveWhere(a + b, idKey, id) == RemoveWhere(a, idKey, id) + RemoveWhere(b, idKey, id)
  {
    if a == [] {
      assert a + b == b;
    } else {
      var h := if StrictEquals(IdOf(a[0], idKey), id) then [] else [a[0]];
      ConcatFront(a, b);
      calc {
        RemoveWhere(a + b, idKey, id);
        h + RemoveWhere(a[1..] + b, idKey, id);
        { RemoveWhereConcat(a[1..], b, idKey, id); }
        h + (RemoveWhere(a[1..], idKey, id) + RemoveWhere(b, idKey, id));
        { ConcatAssoc(h, RemoveWhere(a[1..], idKey, id), RemoveWhere(b, idKey, id)); }
        (h + RemoveWhere(a[1..], idKey, id)) + RemoveWhere(b, idKey, id);
      }
    }
  }

  /** A list without a matching record is unchanged by removal. */
  lemma {:induction false} RemoveWhereNoMatch(list: seq<Value>, idKey: string, id: Value)
    requires CountWhere(list, idKey, id) == 0
    ensures RemoveWhere(list, idKey, id) == list
  {
    if list != [] {
      RemoveWhereNoMatch(list[1..], idKey, id);
    }
  }

  /** Removing twice is removing once. */
  lemma {:induction false} RemoveWhereIdempotent(list: seq<Value>, idKey: string, id: Value)
    ensures RemoveWhere(RemoveWhere(list, idKey, id), idKey, id) == RemoveWhere(list, idKey, id)
  {
    if list != [] {
      RemoveWhereIdempotent(list[1..], idKey, id);
      var head := if StrictEquals(IdOf(list[0], idKey), id) then [] else [list[0]];
      RemoveWhereConcat(head, RemoveWhere(list[1..], idKey, id), idKey, id);
      assert RemoveWhere(head, idKey, id) == head by {
        if head != [] { assert head[1..] == []; }
      }
    }
  }

  /** Create then delete: deleting the id of a record just added to a list that held no record
      with that id gives the list back, whether the record went at the end or at the front. */
  lemma AddThenRemove(list: seq<Value>, idKey: string, rec: Value)
    requires StrictEquals(IdOf(rec, idKey), IdOf(rec, idKey))
    requires CountWhere(list, idKey, IdOf(rec, idKey)) == 0
    ensures RemoveWhere(list + [rec], idKey, IdOf(rec, idKey)) == list
    ensures RemoveWhere([rec] + list, idKey, IdOf(rec, idKey)) == list
  {
    var id := IdOf(rec, idKey);
    RemoveWhereConcat(list, [rec], idKey, id);
    RemoveWhereConcat([rec], list, idKey, id);
    RemoveWhereNoMatch(list, idKey, id);
    assert [rec][1..] == [];
  }

  /** Bulk removal keeps exactly the records whose id is not listed, in their order. */
  lemma {:induction false} RemoveIdsSpec(list: seq<Value>, idKey: string, ids: seq<Value>)
    ensures forall x :: x in RemoveIds(list, idKey, ids) ==> x in list && !Contains(ids, IdOf(x, idKey))
    ensures forall x :: x in list && !Contains(ids, IdOf(x, idKey)) ==> x in RemoveIds(list, idKey, ids)
  {
    if list != [] {
      RemoveIdsSpec(list[1..], idKey, ids);
    }
  }

  /** Removing a list of ids is removing them one after the other. */
  lemma {:induction false} RemoveIdsStepwise(list: seq<Value>, idKey: string, id: Value, ids: seq<Value>)
    requires id != NaN
    ensures RemoveIds(list, idKey, [id] + ids) == RemoveIds(RemoveWhere(list, idKey, id), idKey, ids)
  {
    if list != [] {
      RemoveIdsStepwise(list[1..], idKey, id, ids);
      var x := list[0];
      var hit := StrictEquals(IdOf(x, idKey), id);
      assert Contains([id] + ids, IdOf(x, idKey)) <==> hit || Contains(ids, IdOf(x, idKey)) by {
        if Contains([id] + ids, IdOf(x, idKey)) && !hit {
          var i :| 0 <= i < |[id] + ids| && SameValueZero(([id] + ids)[i], IdOf(x, idKey));
          assert i > 0 && ([id] + ids)[i] == ids[i - 1];
        }
        if Contains(ids, IdOf(x, idKey)) {
          var i :| 0 <= i < |ids| && SameValueZero(ids[i], IdOf(x, idKey));
          assert ([id] + ids)[i + 1] == ids[i];
        }
        if hit {
          assert ([id] + ids)[0] == id;
        }
      }
      var rest := RemoveWhere(list[1..], idKey, id);
      if hit {
        assert RemoveWhere(list, idKey, id) == rest;
      } else {
        assert RemoveWhere(list, idKey, id) == [x] + rest;
        assert ([x] + rest)[0] == x && ([x] + rest)[1..] == rest;
        assert RemoveIds([x] + rest, idKey, ids)
            == (if Contains(ids, IdOf(x, idKey)) then [] else [x]) + RemoveIds(rest, idKey, ids);
      }
    }
  }

  /** With a single id, bulk removal is the single removal. */
  lemma RemoveIdsSingle(list: seq<Value>, idKey: string, id: Value)
    requires id != NaN
    ensures RemoveIds(list, idKey, [id]) == RemoveWhere(list, idKey, id)
  {
    RemoveIdsStepwise(list, idKey, id, []);
    RemoveIdsNone(RemoveWhere(list, idKey, id), idKey);
    assert [id] + [] == [id];
  }

  /** Removing no ids changes nothing. */
  lemma {:induction false} RemoveIdsNone(list: seq<Value>, idKey: string)
    ensures RemoveIds(list, idKey, []) == list
  {
    if list != [] {
      RemoveIdsNone(list[1..], idKey);
    }
  }
}
