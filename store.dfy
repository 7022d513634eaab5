/// The "occasions" collection of the occasion service's MongoDB database, as
/// far as OccasionResource and the orchestrator use it: documents keyed by
/// their ObjectId, with insert, remove by id and findAndModify with $set.
module Storage {
  import opened Doc

  const DbIdKey := "_id"

  /** findAndModify with {"$set": update}: the fields of `update` replace or join
      those of the document, every other field stays. */
  function ApplySet(doc: Object, update: Object): (r: Object)
    ensures r.Keys == doc.Keys + update.Keys
    ensures forall k :: k in update ==> r[k] == update[k]
    ensures forall k :: k in doc && k !in update ==> r[k] == doc[k]
  {
    doc + update
  }

  class OccasionStore {
    var docs: map<ObjectId, Object>

    constructor (docs: map<ObjectId, Object>)
      ensures this.docs == docs
    {
      this.docs := docs;
    }

    /** insert(dbo) of a document without an id: the driver gives it the fresh
        ObjectId `newId` (chosen by the driver, so a parameter here); a
        duplicate key is refused. */
    method Insert(dbo: Object, newId: ObjectId) returns (r: Result<ObjectId>)
      modifies this
      ensures newId in old(docs) ==> r == Fail(MongoWrite) && docs == old(docs)
      ensures newId !in old(docs) ==> r == Ok(newId) && docs == old(docs)[newId := dbo[DbIdKey := Oid(newId)]]
    {
      if newId in docs {
        return Fail(MongoWrite);
      }
      docs := docs[newId := dbo[DbIdKey := Oid(newId)]];
      return Ok(newId);
    }

    /** remove({"_id": id}): the number of documents removed. A null id
        matches no stored document. */
    method Remove(id: Option<ObjectId>) returns (n: nat)
      modifies this
      ensures n == (if id.Some? && id.value in old(docs) then 1 else 0)
      ensures docs == (if id.Some? then old(docs) - {id.value} else old(docs))
    {
      if id.Some? && id.value in docs {
        docs := docs - {id.value};
        n := 1;
      } else {
        n := 0;
      }
    }

    /** findAndModify({"_id": id}, {"$set": update}, returnNew = true, upsert =
        false): the updated document, or null when no document has the id. The
        database refuses to change a document's _id. */
    method FindAndModify(id: ObjectId, update: Object) returns (r: Result<Option<Object>>)
      modifies this
      ensures id !in old(docs) ==> r == Ok(None) && docs == old(docs)
      ensures id in old(docs) && DbIdKey in update && update[DbIdKey] != Oid(id) ==>
        r == Fail(MongoWrite) && docs == old(docs)
      ensures id in old(docs) && (DbIdKey !in update || update[DbIdKey] == Oid(id)) ==>
        r == Ok(Some(ApplySet(old(docs)[id], update))) && docs == old(docs)[id := ApplySet(old(docs)[id], update)]
    {
      if id !in docs {
        return Ok(None);
      }
      if DbIdKey in update && update[DbIdKey] != Oid(id) {
        return Fail(MongoWrite);
      }
      var updated := ApplySet(docs[id], update);
      docs := docs[id := updated];
      return Ok(Some(updated));
    }
  }
}
