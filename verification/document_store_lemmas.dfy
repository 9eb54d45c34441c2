/**
 Properties of the simulated MongoDB collection that relate several calls, or
 a call to an independent description of its effect.
 */
module DocumentStoreLemmas {
  import opened Options
  import opened Json
  import opened DocumentStore

  // ---------------------------------------------------------------------------
  // Matching
  // ---------------------------------------------------------------------------

  /** The empty query matches every document, so `findOne({})` is the first document. */
  lemma EmptyQueryFindsFirst(slot: Slot)
    ensures |GetData(slot)| > 0 ==> FindOne(slot, map[]) == Some(GetData(slot)[0])
    ensures |GetData(slot)| == 0 ==> FindOne(slot, map[]) == None
  {
    if |GetData(slot)| > 0 {
      assert Matches(GetData(slot)[0], map[]);
    }
  }

  /**
   A query naming an array or object value compares by reference against a
   freshly deserialised field, so it matches nothing: `findOne` yields `null`
   and `updateOne` writes nothing.
   */
  lemma NonPrimitiveQueryMatchesNothing(slot: Slot, q: Query, key: string, u: Update)
    requires key in q && !IsPrimitive(q[key])
    ensures FindOne(slot, q) == None
    ensures UpdateOne(slot, q, u) == Written(NoMatch, slot)
  {
    forall j | 0 <= j < |GetData(slot)|
      ensures !Matches(GetData(slot)[j], q)
    {
      assert !FieldMatches(GetData(slot)[j], q, key);
    }
  }

  /** Appending a document leaves earlier first matches in place and can only add one at the end. */
  lemma {:induction false} FirstMatchAppend(items: seq<Doc>, doc: Doc, q: Query)
    ensures FirstMatch(items + [doc], q)
            == if FirstMatch(items, q) != -1 then FirstMatch(items, q)
               else if Matches(doc, q) then |items| else -1
  {
    if |items| == 0 {
      assert items + [doc] == [doc];
    } else {
      assert (items + [doc])[1..] == items[1..] + [doc];
      FirstMatchAppend(items[1..], doc, q);
    }
  }

  /**
   `insertOne` followed by `findOne` on a fresh load: the earlier first match
   if there was one, else the inserted document itself when it matches.
   */
  lemma InsertThenFind(slot: Slot, doc: Doc, q: Query)
    ensures FindOne(InsertOne(slot, doc).slot, q)
            == if FindOne(slot, q).Some? then FindOne(slot, q)
               else if Matches(doc, q) then Some(doc) else None
  {
    var items := GetData(slot);
    assert GetData(InsertOne(slot, doc).slot) == items + [doc];
    FirstMatchAppend(items, doc, q);
  }

  /**
   The round trip from insertion to lookup: a query the new document matches,
   and no earlier document does, finds a document equal to the one inserted.
   */
  lemma InsertThenFindRoundTrip(slot: Slot, doc: Doc, q: Query)
    requires forall key :: key in q ==> key in doc && IsPrimitive(q[key]) && doc[key] == q[key]
    requires forall j :: 0 <= j < |GetData(slot)| ==> !Matches(GetData(slot)[j], q)
    ensures FindOne(InsertOne(slot, doc).slot, q) == Some(doc)
  {
    assert Matches(doc, q) by {
      forall key | key in q
        ensures FieldMatches(doc, q, key)
      {
      }
    }
    InsertThenFind(slot, doc, q);
  }

  // ---------------------------------------------------------------------------
  // Update operators
  // ---------------------------------------------------------------------------

  /**
   `$set` runs before `$push`: an array written by `$set` is the one the pushed
   value is appended to.
   */
  lemma SetThenPush(doc: Doc, u: Update, key: string, a: seq<Value>)
    requires u.assign.Some? && key in u.assign.value && u.assign.value[key] == Arr(a)
    requires u.push.Some? && key in u.push.value
    requires u.pull.None?
    ensures ApplyUpdate(doc, u).Some?
    ensures key in ApplyUpdate(doc, u).value
    ensures ApplyUpdate(doc, u).value[key] == Arr(a + [u.push.value[key]])
  {
    var afterSet := ApplySet(doc, u.assign);
    var afterPush := ApplyPush(afterSet, u.push);
    assert afterPush[key] == Arr(a + [u.push.value[key]]);
  }

  /**
   `$push` runs before `$pull`: the pushed value is already in the array the
   pull filters, so pulling its own id takes it out again.
   */
  lemma PushThenPull(doc: Doc, u: Update, key: string, a: seq<Value>, x: Value)
    requires key in doc && doc[key] == Arr(a)
    requires u.assign.None? || key !in u.assign.value
    requires u.push.Some? && key in u.push.value
    requires u.pull.Some? && key in u.pull.value && IdField(u.pull.value[key]) == Some(x) && Truthy(x)
    requires Null !in a + [u.push.value[key]]
    ensures u.pull.value.Keys == {key} ==> ApplyUpdate(doc, u).Some?
    ensures ApplyUpdate(doc, u).Some? ==>
              key in ApplyUpdate(doc, u).value
              && ApplyUpdate(doc, u).value[key] == Arr(PullById(a + [u.push.value[key]], x).value)
  {
  }

  /**
   `$set` runs before `$pull`: an array written by `$set` is the one the pull
   filters, whatever the field held before.
   */
  lemma SetThenPull(doc: Doc, u: Update, key: string, a: seq<Value>, x: Value)
    requires u.assign.Some? && key in u.assign.value && u.assign.value[key] == Arr(a)
    requires u.push.None? || key !in u.push.value
    requires u.pull.Some? && key in u.pull.value && IdField(u.pull.value[key]) == Some(x) && Truthy(x)
    requires Null !in a
    ensures u.pull.value.Keys == {key} ==> ApplyUpdate(doc, u).Some?
    ensures ApplyUpdate(doc, u).Some? ==>
              key in ApplyUpdate(doc, u).value
              && ApplyUpdate(doc, u).value[key] == Arr(PullById(a, x).value)
  {
  }

  /** A key's value once `$set` has run; `None` when the key is still absent. */
  function AfterSet(doc: Doc, u: Update, key: string): Option<Value> {
    if u.assign.Some? && key in u.assign.value then Some(u.assign.value[key])
    else if key in doc then Some(doc[key])
    else None
  }

  /** A key's value once `$push` has run, given its value after `$set`. */
  function AfterPush(v: Value, u: Update, key: string): Value {
    if u.push.Some? && key in u.push.value then PushField(v, u.push.value[key]) else v
  }

  /** The `$pull` of some named key throws on that key's value after `$set` and `$push`. */
  predicate SomePullThrows(doc: Doc, u: Update) {
    u.pull.Some? &&
    exists key :: key in u.pull.value && AfterSet(doc, u, key).Some? &&
                  PullField(AfterPush(AfterSet(doc, u, key).value, u, key), u.pull.value[key]).None?
  }

  /**
   An update, key by key: it throws exactly when some pulled key throws on its
   value after `$set` and `$push`; otherwise each key present after `$set` is
   present in the result and holds its `$set` value, then pushed onto, then
   pulled from, each step only where the operator names the key.
   */
  lemma UpdatePerKey(doc: Doc, u: Update, key: string)
    ensures ApplyUpdate(doc, u).None? <==> SomePullThrows(doc, u)
    ensures ApplyUpdate(doc, u).Some? ==> (key in ApplyUpdate(doc, u).value <==> AfterSet(doc, u, key).Some?)
    ensures ApplyUpdate(doc, u).Some? && AfterSet(doc, u, key).Some? && u.pull.Some? && key in u.pull.value ==>
              PullField(AfterPush(AfterSet(doc, u, key).value, u, key), u.pull.value[key])
              == Some(ApplyUpdate(doc, u).value[key])
    ensures ApplyUpdate(doc, u).Some? && AfterSet(doc, u, key).Some? && (u.pull.None? || key !in u.pull.value) ==>
              ApplyUpdate(doc, u).value[key] == AfterPush(AfterSet(doc, u, key).value, u, key)
  {
  }

  /** `$push` never creates a field and leaves a non-array field alone. */
  lemma PushIgnoresNonArrays(doc: Doc, push: map<string, Value>, key: string)
    requires key in push
    requires key !in doc || !doc[key].Arr?
    ensures key in ApplyPush(doc, Some(push)) <==> key in doc
    ensures key in doc ==> ApplyPush(doc, Some(push))[key] == doc[key]
  {
  }

  /** Combines the results of filtering two halves of an array. */
  function JoinPulls(a: Option<seq<Value>>, b: Option<seq<Value>>): Option<seq<Value>> {
    if a.Some? && b.Some? then Some(a.value + b.value) else None
  }

  /** One step of the filter, on an array written as its head and its rest. */
  lemma PullByIdCons(x: Value, rest: seq<Value>, id: Value)
    ensures PullById([x] + rest, id)
            == if x.Null? then None
               else JoinPulls(Some(if Pulled(x, id) then [] else [x]), PullById(rest, id))
  {
    assert ([x] + rest)[0] == x;
    assert ([x] + rest)[1..] == rest;
    if !x.Null? && PullById(rest, id).Some? && Pulled(x, id) {
      assert [] + PullById(rest, id).value == PullById(rest, id).value;
    }
  }

  lemma JoinPullsAssoc(a: Option<seq<Value>>, b: Option<seq<Value>>, c: Option<seq<Value>>)
    ensures JoinPulls(a, JoinPulls(b, c)) == JoinPulls(JoinPulls(a, b), c)
  {
    if a.Some? && b.Some? && c.Some? {
      assert a.value + (b.value + c.value) == (a.value + b.value) + c.value;
    }
  }

  /**
   Filtering by id distributes over concatenation, so the kept elements stay in
   their original relative order.
   */
  lemma {:induction false} PullByIdConcat(a: seq<Value>, b: seq<Value>, id: Value)
    ensures PullById(a + b, id) == JoinPulls(PullById(a, id), PullById(b, id))
    decreases |a|
  {
    if |a| == 0 {
      assert a + b == b;
      if PullById(b, id).Some? {
        assert [] + PullById(b, id).value == PullById(b, id).value;
      }
    } else {
      var x, rest := a[0], a[1..];
      assert a == [x] + rest;
      assert a + b == [x] + (rest + b);
      PullByIdCons(x, rest + b, id);
      PullByIdCons(x, rest, id);
      PullByIdConcat(rest, b, id);
      if !x.Null? {
        var h := Some(if Pulled(x, id) then [] else [x]);
        var ta, tb, tab := PullById(rest, id), PullById(b, id), PullById(rest + b, id);
        assert tab == JoinPulls(ta, tb);
        assert PullById(a + b, id) == JoinPulls(h, tab);
        assert PullById(a, id) == JoinPulls(h, ta);
        JoinPullsAssoc(h, ta, tb);
      }
    }
  }

  /** Pulling the same id twice removes nothing more. */
  lemma {:induction false} PullByIdIdempotent(elems: seq<Value>, id: Value)
    requires PullById(elems, id).Some?
    ensures PullById(PullById(elems, id).value, id) == PullById(elems, id)
  {
    if |elems| > 0 {
      PullByIdIdempotent(elems[1..], id);
      var rest := PullById(elems[1..], id).value;
      if !Pulled(elems[0], id) {
        assert ([elems[0]] + rest)[1..] == rest;
      }
    }
  }

  /** An array none of whose elements carries the pulled id comes back unchanged. */
  lemma {:induction false} PullByIdKeepsUnmatched(elems: seq<Value>, id: Value)
    requires Null !in elems
    requires forall j :: 0 <= j < |elems| ==> !Pulled(elems[j], id)
    ensures PullById(elems, id) == Some(elems)
  {
    if |elems| > 0 {
      PullByIdKeepsUnmatched(elems[1..], id);
      assert [elems[0]] + elems[1..] == elems;
    }
  }

  /**
   A condition whose `id` is missing or falsy (`0`, `""`, `false`, `null`)
   leaves an array field as it was.
   */
  lemma FalsyConditionKeepsField(field: Value, condition: Value)
    requires !condition.Null?
    requires IdField(condition).None? || !Truthy(IdField(condition).value)
    ensures PullField(field, condition) == Some(field)
  {
  }

  /** `$set {name: "x"}` and `$push {tags: "b"}` compose on `{id: 1, tags: ["a"]}`. */
  lemma OperatorCompositionExample()
    ensures ApplyUpdate(map["id" := Int(1), "tags" := Arr([Str("a")])],
                        Update(Some(map["name" := Str("x")]), Some(map["tags" := Str("b")]), None))
            == Some(map["id" := Int(1), "tags" := Arr([Str("a"), Str("b")]), "name" := Str("x")])
  {
    var d := map["id" := Int(1), "tags" := Arr([Str("a")])];
    var afterSet := ApplySet(d, Some(map["name" := Str("x")]));
    var afterPush := ApplyPush(afterSet, Some(map["tags" := Str("b")]));
    assert afterSet == map["id" := Int(1), "tags" := Arr([Str("a")]), "name" := Str("x")];
    assert afterPush.Keys == afterSet.Keys;
    assert afterPush["tags"] == Arr([Str("a")] + [Str("b")]);
    assert [Str("a")] + [Str("b")] == [Str("a"), Str("b")];
    assert afterPush == map["id" := Int(1), "tags" := Arr([Str("a"), Str("b")]), "name" := Str("x")];
  }

  /** `$pull {tags: {id: "a"}}` on `tags: [{id: "a"}, {id: "b"}]` removes the first tag object. */
  lemma PullExample()
    ensures ApplyUpdate(map["tags" := Arr([Obj(map["id" := Str("a")]), Obj(map["id" := Str("b")])])],
                        Update(None, None, Some(map["tags" := Obj(map["id" := Str("a")])])))
            == Some(map["tags" := Arr([Obj(map["id" := Str("b")])])])
  {
    var a := Obj(map["id" := Str("a")]);
    var b := Obj(map["id" := Str("b")]);
    var tags := [a, b];
    assert Pulled(a, Str("a")) && !Pulled(b, Str("a"));
    assert tags[1..] == [b] && [b][1..] == [];
    assert [b] + [] == [b];
    assert PullById([b], Str("a")) == Some([b]);
    assert PullById(tags, Str("a")) == Some([b]);
    var e := map["tags" := Arr(tags)];
    var pull := map["tags" := Obj(map["id" := Str("a")])];
    assert PullField(Arr(tags), pull["tags"]) == Some(Arr([b]));
    assert !PullThrows(e, pull);
    var pulled := ApplyPull(e, Some(pull)).value;
    assert pulled.Keys == e.Keys;
    assert pulled == map["tags" := Arr([b])];
  }

  // ---------------------------------------------------------------------------
  // Persistence
  // ---------------------------------------------------------------------------

  /**
   Saving replaces the whole snapshot: the slot written does not depend on
   what the slot held before.
   */
  lemma SaveThenLoad(slot: Slot, items: seq<Doc>)
    ensures SaveData(slot, items) == SaveData(Unparseable, items)
  {
  }

  /** Seeding the store is idempotent and changes nothing any read can observe. */
  lemma InitIdempotent(slot: Slot, q: Query)
    ensures Init(Init(slot)) == Init(slot)
    ensures FindOne(Init(slot), q) == FindOne(slot, q)
  {
  }
}
