/**
 The simulated MongoDB driver: one `rooms` collection kept as an ordered
 sequence of schema-free documents inside a single persisted snapshot.

 Every operation reads the whole snapshot afresh and every write stores the
 whole snapshot back; the storage slot is passed in and returned explicitly.
 The asynchronous (promise) interface is cosmetic and is not modelled: each
 operation is a function of the slot it reads.
 */
module DocumentStore {
  import opened Options
  import opened Json

  /** A document is a record of JSON fields. */
  type Doc = map<string, Value>

  /** A query names fields and the values they must strictly equal. */
  type Query = map<string, Value>

  /** The persisted database: a single collection, `rooms`. */
  datatype Database = Database(rooms: seq<Doc>)

  /**
   The shared storage slot. `Absent` covers both a missing item and an empty
   string (either is falsy, so the default text is parsed); `Unparseable` is a
   stored text that is not valid JSON.
   */
  datatype Slot = Absent | Unparseable | Stored(db: Database)

  /** The update operators `updateOne` understands; a `None` operator is not given. */
  datatype Update = Update(assign: Option<Doc>, push: Option<map<string, Value>>, pull: Option<map<string, Value>>)

  /** How `updateOne` settles: `true`, `false`, or a rejected promise after a TypeError. */
  datatype UpdateOutcome = Matched | NoMatch | Rejected

  /** An operation's result together with the storage slot it leaves behind. */
  datatype Written<T> = Written(result: T, slot: Slot)

  const EmptyDatabase := Database([])

  // ---------------------------------------------------------------------------
  // Persistence
  // ---------------------------------------------------------------------------

  /** Reads the snapshot; a missing or unparseable value degrades to an empty database. */
  function LoadData(slot: Slot): (db: Database)
    ensures !slot.Stored? ==> db == EmptyDatabase
    ensures slot.Stored? ==> db == slot.db
  {
    match slot
    case Stored(db) => db
    case _ => EmptyDatabase
  }

  /** Serialises and overwrites the whole slot; the next load gives back exactly what was written. */
  function PersistData(db: Database): (s: Slot)
    ensures LoadData(s) == db
  {
    Stored(db)
  }

  /** The constructor: seeds an empty database when the slot holds nothing. */
  function Init(slot: Slot): (s: Slot)
    ensures LoadData(s) == LoadData(slot)
    ensures slot.Absent? ==> s.Stored?
    ensures !slot.Absent? ==> s == slot
  {
    if slot.Absent? then PersistData(EmptyDatabase) else slot
  }

  /** Every read materialises the whole collection from the slot. */
  function GetData(slot: Slot): (items: seq<Doc>)
    ensures !slot.Stored? ==> items == []
    ensures slot.Stored? ==> items == slot.db.rooms
  {
    LoadData(slot).rooms
  }

  /** Re-reads the snapshot, replaces the collection and persists the whole snapshot. */
  function SaveData(slot: Slot, items: seq<Doc>): (s: Slot)
    ensures GetData(s) == items
    ensures s.Stored?
  {
    PersistData(LoadData(slot).(rooms := items))
  }

  // ---------------------------------------------------------------------------
  // Query matching
  // ---------------------------------------------------------------------------

  /** The document's field `key` strictly equals the query's value for it. */
  predicate FieldMatches(doc: Doc, q: Query, key: string)
    requires key in q
  {
    StrictEquals(Lookup(doc, key), q[key])
  }

  /** A conjunction over exactly the keys present in the query. */
  predicate Matches(doc: Doc, q: Query) {
    forall key :: key in q ==> FieldMatches(doc, q, key)
  }

  /**
   The matching callback given to `find` / `findIndex`: walks the query's keys
   and gives up on the first field that differs.
   */
  method MatchLoop(doc: Doc, q: Query) returns (b: bool)
    ensures b <==> Matches(doc, q)
    ensures b <==> forall key :: key in q ==> key in doc && IsPrimitive(q[key]) && doc[key] == q[key]
  {
    var pending := q.Keys;
    while pending != {}
      invariant pending <= q.Keys
      invariant forall key :: key in q && key !in pending ==> FieldMatches(doc, q, key)
      decreases pending
    {
      var key :| key in pending;
      if !StrictEquals(Lookup(doc, key), q[key]) {
        return false;
      }
      pending := pending - {key};
    }
    return true;
  }

  /** `items.findIndex(matches)`: the first matching position, or -1. */
  function FirstMatch(items: seq<Doc>, q: Query): (i: int)
    ensures -1 <= i < |items|
    ensures i == -1 <==> forall j :: 0 <= j < |items| ==> !Matches(items[j], q)
    ensures 0 <= i ==> Matches(items[i], q)
    ensures 0 <= i ==> forall j :: 0 <= j < i ==> !Matches(items[j], q)
  {
    if |items| == 0 then -1
    else if Matches(items[0], q) then 0
    else
      var k := FirstMatch(items[1..], q);
      if k == -1 then -1 else k + 1
  }

  // ---------------------------------------------------------------------------
  // findOne / insertOne
  // ---------------------------------------------------------------------------

  /** The first document of the collection, in insertion order, that matches the query. */
  function FindOne(slot: Slot, q: Query): (r: Option<Doc>)
    ensures r.None? <==> forall j :: 0 <= j < |GetData(slot)| ==> !Matches(GetData(slot)[j], q)
    ensures r.Some? ==> exists i :: 0 <= i < |GetData(slot)| && GetData(slot)[i] == r.value
                                    && Matches(r.value, q)
                                    && forall j :: 0 <= j < i ==> !Matches(GetData(slot)[j], q)
  {
    var items := GetData(slot);
    var i := FirstMatch(items, q);
    if i == -1 then None else Some(items[i])
  }

  /** Appends the document, persists the snapshot and returns the document itself. */
  function InsertOne(slot: Slot, doc: Doc): (w: Written<Doc>)
    ensures w.result == doc
    ensures |GetData(w.slot)| == |GetData(slot)| + 1
    ensures GetData(w.slot)[|GetData(slot)|] == doc
    ensures forall j :: 0 <= j < |GetData(slot)| ==> GetData(w.slot)[j] == GetData(slot)[j]
  {
    var items := GetData(slot) + [doc];
    Written(doc, SaveData(slot, items))
  }

  // ---------------------------------------------------------------------------
  // Update operators
  // ---------------------------------------------------------------------------

  /** `$set`: a shallow `Object.assign` of the named keys onto the document. */
  function ApplySet(doc: Doc, assign: Option<Doc>): (r: Doc)
    ensures assign.None? ==> r == doc
    ensures assign.Some? ==> r.Keys == doc.Keys + assign.value.Keys
    ensures assign.Some? ==> forall key :: key in assign.value ==> r[key] == assign.value[key]
    ensures forall key :: key in doc && (assign.None? || key !in assign.value) ==> key in r && r[key] == doc[key]
  {
    if assign.None? then doc else doc + assign.value
  }

  /** `$push` of `v` onto the field holding `field`, when that field is an array. */
  function PushField(field: Value, v: Value): Value {
    if field.Arr? then Arr(field.elems + [v]) else field
  }

  /** `$push`: appends to every named field that currently holds an array; other fields are not created. */
  function ApplyPush(doc: Doc, push: Option<map<string, Value>>): (r: Doc)
    ensures r.Keys == doc.Keys
    ensures forall key :: key in doc && push.Some? && key in push.value && doc[key].Arr? ==>
              r[key] == Arr(doc[key].elems + [push.value[key]])
    ensures forall key :: key in doc && (push.None? || key !in push.value || !doc[key].Arr?) ==>
              r[key] == doc[key]
  {
    if push.None? then doc
    else map key | key in doc :: if key in push.value then PushField(doc[key], push.value[key]) else doc[key]
  }

  /** `el.id !== id` is false: the element is removed by a pull on `id`. */
  predicate Pulled(el: Value, id: Value) {
    StrictEquals(IdField(el), id)
  }

  /**
   `elems.filter(el => el.id !== id)`; `None` when reading `.id` of a `null`
   element throws.
   */
  function PullById(elems: seq<Value>, id: Value): (r: Option<seq<Value>>)
    ensures r.None? <==> Null in elems
    ensures r.Some? ==> forall el :: el in r.value <==> el in elems && !Pulled(el, id)
    ensures r.Some? ==> |r.value| <= |elems|
    ensures r.Some? ==> forall el :: multiset(r.value)[el] == if Pulled(el, id) then 0 else multiset(elems)[el]
  {
    if |elems| == 0 then Some([])
    else if elems[0].Null? then None
    else
      assert elems == [elems[0]] + elems[1..];
      match PullById(elems[1..], id)
      case None => None
      case Some(rest) => Some(if Pulled(elems[0], id) then rest else [elems[0]] + rest)
  }

  /**
   `$pull` of one field: only an array field is touched; reading `condition.id`
   throws for a `null` condition, and only a truthy `condition.id` filters.
   `None` means a TypeError was thrown.
   */
  function PullField(field: Value, condition: Value): (r: Option<Value>)
    ensures !field.Arr? ==> r == Some(field)
    ensures r.None? <==> field.Arr? && (condition.Null? || (IdField(condition).Some? && Truthy(IdField(condition).value)
                                                           && Null in field.elems))
    ensures field.Arr? && !condition.Null? && (IdField(condition).None? || !Truthy(IdField(condition).value)) ==>
              r == Some(field)
    ensures r.Some? && field.Arr? && IdField(condition).Some? && Truthy(IdField(condition).value) ==>
              r == Some(Arr(PullById(field.elems, IdField(condition).value).value))
  {
    if !field.Arr? then Some(field)
    else if condition.Null? then None
    else
      match IdField(condition)
      case Some(id) =>
        if !Truthy(id) then Some(field)
        else (match PullById(field.elems, id)
              case None => None
              case Some(kept) => Some(Arr(kept)))
      case None => Some(field)
  }

  /** Some named field of the document makes its `$pull` throw. */
  predicate PullThrows(doc: Doc, pull: map<string, Value>) {
    exists key :: key in pull && key in doc && PullField(doc[key], pull[key]).None?
  }

  /** `$pull` over every named field; `None` when any of them throws. */
  function ApplyPull(doc: Doc, pull: Option<map<string, Value>>): (r: Option<Doc>)
    ensures r.None? <==> pull.Some? && PullThrows(doc, pull.value)
    ensures r.Some? ==> r.value.Keys == doc.Keys
    ensures r.Some? ==> forall key :: key in doc && (pull.None? || key !in pull.value) ==> r.value[key] == doc[key]
    ensures r.Some? ==> forall key :: key in doc && pull.Some? && key in pull.value ==>
              PullField(doc[key], pull.value[key]) == Some(r.value[key])
  {
    if pull.None? then Some(doc)
    else if PullThrows(doc, pull.value) then None
    else Some(map key | key in doc :: if key in pull.value then PullField(doc[key], pull.value[key]).value else doc[key])
  }

  /** The update names the key in one of its operators. */
  predicate Names(u: Update, key: string) {
    || (u.assign.Some? && key in u.assign.value)
    || (u.push.Some? && key in u.push.value)
    || (u.pull.Some? && key in u.pull.value)
  }

  /**
   The three operators in their fixed order: `$set`, then `$push`, then `$pull`.
   Only `$pull` can throw; the keys are those of the document plus those `$set`
   adds; a key no operator names keeps its value, and a key only `$set` names
   takes the value `$set` gives it.
   */
  function ApplyUpdate(doc: Doc, u: Update): (r: Option<Doc>)
    ensures u.pull.None? ==> r.Some?
    ensures r.Some? ==> r.value.Keys == doc.Keys + (if u.assign.Some? then u.assign.value.Keys else {})
    ensures r.Some? ==> forall key :: key in doc && !Names(u, key) ==> r.value[key] == doc[key]
    ensures r.Some? ==> forall key :: u.assign.Some? && key in u.assign.value
                                      && (u.push.None? || key !in u.push.value)
                                      && (u.pull.None? || key !in u.pull.value) ==>
              r.value[key] == u.assign.value[key]
  {
    ApplyPull(ApplyPush(ApplySet(doc, u.assign), u.push), u.pull)
  }

  // ---------------------------------------------------------------------------
  // updateOne
  // ---------------------------------------------------------------------------

  /**
   Updates the first matching document. Nothing is written when no document
   matches or when an operator throws (the mutations were made on a private
   copy of the snapshot); otherwise only that one document changes.
   */
  function UpdateOne(slot: Slot, q: Query, u: Update): (w: Written<UpdateOutcome>)
    ensures w.result.NoMatch? <==> forall j :: 0 <= j < |GetData(slot)| ==> !Matches(GetData(slot)[j], q)
    ensures !w.result.Matched? ==> w.slot == slot
    ensures w.result.Rejected? ==> exists i :: 0 <= i < |GetData(slot)| && Matches(GetData(slot)[i], q)
                                              && (forall j :: 0 <= j < i ==> !Matches(GetData(slot)[j], q))
                                              && ApplyUpdate(GetData(slot)[i], u).None?
    ensures w.result.Matched? ==>
              |GetData(w.slot)| == |GetData(slot)|
              && exists i :: 0 <= i < |GetData(slot)|
                             && Matches(GetData(slot)[i], q)
                             && (forall j :: 0 <= j < i ==> !Matches(GetData(slot)[j], q))
                             && ApplyUpdate(GetData(slot)[i], u) == Some(GetData(w.slot)[i])
                             && (forall j :: 0 <= j < |GetData(slot)| && j != i ==> GetData(w.slot)[j] == GetData(slot)[j])
  {
    var items := GetData(slot);
    var index := FirstMatch(items, q);
    if index == -1 then Written(NoMatch, slot)
    else
      match ApplyUpdate(items[index], u)
      case None => Written(Rejected, slot)
      case Some(item) => Written(Matched, SaveData(slot, items[index := item]))
  }
}
