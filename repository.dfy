/**
 * The target service: an in-memory list of entities and the repository whose
 * five operations the proxy intercepts. The list is a field of a DB object
 * that the repository updates in place.
 */
module Repo {
  import opened Errors

  datatype Entity = Entity(id: int, name: string, lastName: string)

  /** The list behind DB.Entities, as one explicitly owned object that starts empty. */
  class DB {
    var entities: seq<Entity>

    constructor ()
      ensures entities == []
    {
      entities := [];
    }
  }

  /** The list without its element at position i; the others keep their order. */
  function RemovedAt(s: seq<Entity>, i: int): (r: seq<Entity>)
    requires 0 <= i < |s|
    ensures |r| == |s| - 1
    ensures forall j :: 0 <= j < i ==> r[j] == s[j]
    ensures forall j :: i <= j < |r| ==> r[j] == s[j + 1]
  {
    s[..i] + s[i + 1..]
  }

  class Repository {
    const db: DB

    constructor (db: DB)
      ensures this.db == db
    {
      this.db := db;
    }

    /** Append an entity whose ID is the list's length plus one, and return it. */
    method Add(name: string, lastName: string) returns (e: Entity)
      modifies db
      ensures e == Entity(|old(db.entities)| + 1, name, lastName)
      ensures db.entities == old(db.entities) + [e]
    {
      e := Entity(|db.entities| + 1, name, lastName);
      db.entities := db.entities + [e];
    }

    /**
     * Remove the entity at list position `id` (a position, not an entity ID).
     * The list holds only entities Add created, never a null, so the C# code's
     * `false` branch is not reachable here.
     */
    method Delete(id: int) returns (r: Result<bool>)
      modifies db
      ensures r.Ok? <==> 0 <= id < |old(db.entities)|
      ensures r.Ok? ==> r.value && db.entities == RemovedAt(old(db.entities), id)
      ensures r.Err? ==> r.error == ArgumentOutOfRange(id) && db.entities == old(db.entities)
    {
      if !(0 <= id < |db.entities|) {
        return Err(ArgumentOutOfRange(id));
      }
      db.entities := RemovedAt(db.entities, id);
      r := Ok(true);
    }

    /** The current list. */
    method GetAll() returns (all: seq<Entity>)
      ensures all == db.entities
    {
      all := db.entities;
    }

    /** A blocking wait in the C# code; it changes nothing. */
    method ReIndex()
      ensures db.entities == old(db.entities)
    {
    }

    /** Check position `id`, Delete it, then Add a new entity, calling this repository's own methods. */
    method Update(id: int, name: string, lastName: string) returns (r: Result<()>)
      modifies db
      ensures r.Ok? <==> 0 <= id < |old(db.entities)|
      ensures r.Ok? ==> db.entities == RemovedAt(old(db.entities), id) + [Entity(|old(db.entities)|, name, lastName)]
      ensures r.Err? ==> r.error == ArgumentOutOfRange(id) && db.entities == old(db.entities)
    {
      if !(0 <= id < |db.entities|) {
        return Err(ArgumentOutOfRange(id));
      }
      var deleted := Delete(id);
      var added := Add(name, lastName);
      r := Ok(());
    }
  }

  /** A call through IRepository: the operation and its arguments. */
  datatype Call =
    | Add(name: string, lastName: string)
    | Update(id: int, name: string, lastName: string)
    | Delete(id: int)
    | GetAll
    | ReIndex

  /** The value a call returns; a void operation returns no value (null in the C# code). */
  datatype ReturnValue = EntityValue(entity: Entity) | BoolValue(flag: bool) | EntityList(entities: seq<Entity>) | NoValue

  /** The outcome of one call on the target and the list it leaves behind. */
  datatype Step = Step(result: Result<ReturnValue>, entities: seq<Entity>)

  /** One call on the repository, as a function of the list before it. */
  function Perform(call: Call, s: seq<Entity>): (st: Step)
    decreases call.Update?
  {
    match call
    case Add(name, lastName) =>
      var e := Entity(|s| + 1, name, lastName);
      Step(Ok(EntityValue(e)), s + [e])
    case Delete(id) =>
      if 0 <= id < |s| then Step(Ok(BoolValue(true)), RemovedAt(s, id))
      else Step(Err(ArgumentOutOfRange(id)), s)
    case GetAll =>
      Step(Ok(EntityList(s)), s)
    case ReIndex =>
      Step(Ok(NoValue), s)
    case Update(id, name, lastName) =>
      var deleted := Perform(Delete(id), s);
      if deleted.result.Err? then deleted
      else Step(Ok(NoValue), Perform(Add(name, lastName), deleted.entities).entities)
  }

  /** Add appends exactly one entity, with ID old length + 1, and returns it; earlier entries are untouched. */
  lemma AddAppends(s: seq<Entity>, name: string, lastName: string)
    ensures var st := Perform(Add(name, lastName), s);
      |st.entities| == |s| + 1 && st.entities[..|s|] == s &&
      st.entities[|s|] == Entity(|s| + 1, name, lastName) &&
      st.result == Ok(EntityValue(st.entities[|s|]))
  {
  }

  /** Delete needs a valid position; it then removes that position, returns true and keeps the others in order. */
  lemma DeleteRemovesPosition(s: seq<Entity>, id: int)
    ensures var st := Perform(Delete(id), s);
      (0 <= id < |s| ==>
        st.result == Ok(BoolValue(true)) && |st.entities| == |s| - 1 &&
        (forall j :: 0 <= j < id ==> st.entities[j] == s[j]) &&
        (forall j :: id <= j < |st.entities| ==> st.entities[j] == s[j + 1])) &&
      (!(0 <= id < |s|) ==> st == Step(Err(ArgumentOutOfRange(id)), s))
  {
  }

  /** Update keeps the length, puts the new entity last with ID equal to the old length, and drops position id. */
  lemma UpdateReplaces(s: seq<Entity>, id: int, name: string, lastName: string)
    ensures var st := Perform(Update(id, name, lastName), s);
      (0 <= id < |s| ==>
        st.result == Ok(NoValue) && |st.entities| == |s| &&
        st.entities[|s| - 1] == Entity(|s|, name, lastName) &&
        st.entities[..|s| - 1] == RemovedAt(s, id)) &&
      (!(0 <= id < |s|) ==> st == Step(Err(ArgumentOutOfRange(id)), s))
  {
  }

  /** ReIndex returns no value and leaves the list as it is. */
  lemma ReIndexYieldsNoValue(s: seq<Entity>)
    ensures Perform(ReIndex, s) == Step(Ok(NoValue), s)
  {
  }

  /** IDs equal positions plus one: what Add alone produces from an empty list. */
  predicate Dense(s: seq<Entity>)
  {
    forall j :: 0 <= j < |s| ==> s[j].id == j + 1
  }

  /** Add keeps IDs dense, and dense IDs are pairwise distinct. */
  lemma AddKeepsDense(s: seq<Entity>, name: string, lastName: string)
    requires Dense(s)
    ensures Dense(Perform(Add(name, lastName), s).entities)
    ensures forall i, j :: 0 <= i < j < |s| ==> s[i].id != s[j].id
  {
  }

  /** On a dense list, Delete(id) removes the entity whose ID is id + 1, not the one whose ID is id. */
  lemma {:induction false} DeleteTakesPositionNotId(s: seq<Entity>, id: int)
    requires Dense(s) && 0 <= id < |s|
    ensures s[id].id == id + 1
    ensures forall e :: e in Perform(Delete(id), s).entities ==> e.id != id + 1
    ensures 0 < id ==> exists e :: e in Perform(Delete(id), s).entities && e.id == id
  {
    var r := Perform(Delete(id), s).entities;
    forall e | e in r ensures e.id != id + 1 {
      var k :| 0 <= k < |r| && r[k] == e;
      if k < id { assert e == s[k]; } else { assert e == s[k + 1]; }
    }
    if 0 < id {
      assert r[id - 1] == s[id - 1];
    }
  }

  /** After a Delete, Add can hand out an ID that is already in use. */
  lemma IdsRepeatAfterDelete()
    ensures var s1 := Perform(Add("A", "a"), []).entities;
      var s2 := Perform(Add("B", "b"), s1).entities;
      var s3 := Perform(Delete(0), s2).entities;
      var s4 := Perform(Add("C", "c"), s3).entities;
      |s4| == 2 && s4[0].id == 2 && s4[1].id == 2
  {
  }
}
