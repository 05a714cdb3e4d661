/** The in-memory document store of server/routes/documents.js: a map from document id to
    document record, with the owner and collaborator checks of its REST handlers.

    Request-body fields may be absent, so they are `Option` values; the collaborator list
    stores them as given (an absent `collaboratorId` is pushed as `undefined`). */
module DocumentRoutes {
  import opened Wrappers
  import opened Seqs
  import opened Http

  datatype Document = Document(
    id: string,
    name: string,
    content: Option<string>,
    projectId: string,
    ownerId: string,
    docType: string,
    collaborators: seq<Option<string>>,
    version: int,
    createdAt: int,
    updatedAt: int,
    lastEditedBy: Option<string>)

  /** The body of GET /:id/history. */
  datatype History = History(currentVersion: int, lastEditedBy: Option<string>, lastEditedAt: int, createdAt: int)

  /** The body of POST /:id/collaborate. */
  datatype Snapshot = Snapshot(id: string, name: string, content: Option<string>, docType: string,
                               collaborators: seq<Option<string>>)

  /** What every stored document satisfies: the owner is a collaborator, no collaborator
      is listed twice, and the version counter starts at 1. */
  ghost predicate WellFormed(key: string, d: Document) {
    && d.id == key
    && Some(d.ownerId) in d.collaborators
    && NoDuplicates(d.collaborators)
    && d.version >= 1
  }

  /** `document.collaborators.includes(userId)`: the check of update and collaborate. */
  predicate CanEdit(d: Document, userId: Option<string>) {
    userId in d.collaborators
  }

  /** `document.ownerId === userId`: the check of delete and of the collaborator routes. */
  predicate IsOwner(d: Document, userId: Option<string>) {
    userId == Some(d.ownerId)
  }

  /** The owner passes every collaborator check. */
  lemma OwnerCanEdit(key: string, d: Document, userId: Option<string>)
    requires WellFormed(key, d)
    ensures IsOwner(d, userId) ==> CanEdit(d, userId)
  {
  }

  /** The history reports the stored version counter and editor. */
  function HistoryOf(d: Document): (h: History)
    ensures h.currentVersion == d.version && h.lastEditedBy == d.lastEditedBy
    ensures h.lastEditedAt == d.updatedAt && h.createdAt == d.createdAt
  {
    History(d.version, d.lastEditedBy, d.updatedAt, d.createdAt)
  }

  class DocumentStore {
    var documents: map<string, Document>

    ghost predicate Valid()
      reads this
    {
      forall key :: key in documents ==> WellFormed(key, documents[key])
    }

    constructor ()
      ensures Valid() && documents == map[]
    {
      documents := map[];
    }

    /** GET /:id (server/routes/documents.js:9-18). */
    method Get(id: string) returns (res: Response<Document>)
      ensures id !in documents ==> res == NotFound
      ensures id in documents ==> res == Ok(documents[id])
    {
      if id !in documents {
        return NotFound;
      }
      res := Ok(documents[id]);
    }

    /** POST / (server/routes/documents.js:26-54); `newId` is the fresh `uuidv4()`. */
    method Create(name: Option<string>, content: Option<string>, projectId: Option<string>, ownerId: Option<string>,
                  docType: Option<string>, newId: string, now: int) returns (res: Response<Document>)
      requires Valid()
      requires newId !in documents
      modifies this
      ensures Valid()
      ensures !(Truthy(name) && Truthy(projectId) && Truthy(ownerId)) ==>
                res == BadRequest && documents == old(documents)
      ensures Truthy(name) && Truthy(projectId) && Truthy(ownerId) ==>
                && res.Created?
                && documents == old(documents)[newId := res.body]
                && res.body.id == newId && res.body.name == name.value
                && res.body.projectId == projectId.value && res.body.ownerId == ownerId.value
                && res.body.content == Some(OrElse(content, ""))
                && res.body.docType == docType.GetOr("text")
                && res.body.collaborators == [ownerId]
                && res.body.version == 1
                && res.body.createdAt == now && res.body.updatedAt == now
                && res.body.lastEditedBy == ownerId
    {
      if !Truthy(name) || !Truthy(projectId) || !Truthy(ownerId) {
        return BadRequest;
      }
      var d := Document(newId, name.value, Some(OrElse(content, "")), projectId.value, ownerId.value,
                        docType.GetOr("text"), [ownerId], 1, now, now, ownerId);
      documents := documents[newId := d];
      res := Created(d);
    }

    /** PUT /:id (server/routes/documents.js:62-86): 404, then 403 for a non-collaborator,
        else the content is replaced and the version counter advanced by one. */
    method Update(id: string, content: Option<string>, userId: Option<string>, now: int) returns (res: Response<Document>)
      requires Valid()
      modifies this
      ensures Valid()
      ensures id !in old(documents) ==> res == NotFound && documents == old(documents)
      ensures id in old(documents) && !CanEdit(old(documents)[id], userId) ==>
                res == Forbidden && documents == old(documents)
      ensures id in old(documents) && CanEdit(old(documents)[id], userId) ==>
                var d := old(documents)[id];
                && id in documents && documents == old(documents)[id := documents[id]]
                && res == Ok(documents[id])
                && documents[id] == d.(content := content, version := d.version + 1, updatedAt := now, lastEditedBy := userId)
    {
      if id !in documents {
        return NotFound;
      }
      var d := documents[id];
      if !CanEdit(d, userId) {
        return Forbidden;
      }
      d := d.(content := content);
      d := d.(version := d.version + 1);
      d := d.(updatedAt := now);
      d := d.(lastEditedBy := userId);
      documents := documents[id := d];
      res := Ok(d);
    }

    /** DELETE /:id (server/routes/documents.js:94-111): only the owner, and only that key goes. */
    method Delete(id: string, userId: Option<string>) returns (res: Response<()>)
      requires Valid()
      modifies this
      ensures Valid()
      ensures id !in old(documents) ==> res == NotFound && documents == old(documents)
      ensures id in old(documents) && !IsOwner(old(documents)[id], userId) ==>
                res == Forbidden && documents == old(documents)
      ensures id in old(documents) && IsOwner(old(documents)[id], userId) ==>
                res == Ok(()) && documents == old(documents) - {id}
    {
      if id !in documents {
        return NotFound;
      }
      if !IsOwner(documents[id], userId) {
        return Forbidden;
      }
      documents := documents - {id};
      res := Ok(());
    }

    /** POST /:id/collaborators (server/routes/documents.js:119-146): owner only, and an
        existing collaborator is refused, so the list stays duplicate-free. */
    method AddCollaborator(id: string, userId: Option<string>, collaboratorId: Option<string>, now: int)
      returns (res: Response<Document>)
      requires Valid()
      modifies this
      ensures Valid()
      ensures id !in old(documents) ==> res == NotFound && documents == old(documents)
      ensures id in old(documents) && !IsOwner(old(documents)[id], userId) ==>
                res == Forbidden && documents == old(documents)
      ensures id in old(documents) && IsOwner(old(documents)[id], userId) && collaboratorId in old(documents)[id].collaborators ==>
                res == BadRequest && documents == old(documents)
      ensures id in old(documents) && IsOwner(old(documents)[id], userId) && collaboratorId !in old(documents)[id].collaborators ==>
                var d := old(documents)[id];
                && id in documents && documents == old(documents)[id := documents[id]]
                && res == Ok(documents[id])
                && documents[id] == d.(collaborators := d.collaborators + [collaboratorId], updatedAt := now)
    {
      if id !in documents {
        return NotFound;
      }
      var d := documents[id];
      if !IsOwner(d, userId) {
        return Forbidden;
      }
      if collaboratorId in d.collaborators {
        return BadRequest;
      }
      d := d.(collaborators := d.collaborators + [collaboratorId]);
      d := d.(updatedAt := now);
      documents := documents[id := d];
      res := Ok(d);
    }

    /** DELETE /:id/collaborators/:collaboratorId (server/routes/documents.js:154-181): owner
        only, and the owner cannot be removed, so the owner stays a collaborator. */
    method RemoveCollaborator(id: string, collaboratorId: string, userId: Option<string>, now: int)
      returns (res: Response<Document>)
      requires Valid()
      modifies this
      ensures Valid()
      ensures id !in old(documents) ==> res == NotFound && documents == old(documents)
      ensures id in old(documents) && !IsOwner(old(documents)[id], userId) ==>
                res == Forbidden && documents == old(documents)
      ensures id in old(documents) && IsOwner(old(documents)[id], userId) && collaboratorId == old(documents)[id].ownerId ==>
                res == BadRequest && documents == old(documents)
      ensures id in old(documents) && IsOwner(old(documents)[id], userId) && collaboratorId != old(documents)[id].ownerId ==>
                var d := old(documents)[id];
                && id in documents && documents == old(documents)[id := documents[id]]
                && res == Ok(documents[id])
                && documents[id] == d.(collaborators := RemoveAll(d.collaborators, Some(collaboratorId)), updatedAt := now)
                && Some(d.ownerId) in documents[id].collaborators
    {
      if id !in documents {
        return NotFound;
      }
      var d := documents[id];
      if !IsOwner(d, userId) {
        return Forbidden;
      }
      if collaboratorId == d.ownerId {
        return BadRequest;
      }
      RemoveNoDuplicates(d.collaborators, Some(collaboratorId));
      d := d.(collaborators := RemoveAll(d.collaborators, Some(collaboratorId)));
      d := d.(updatedAt := now);
      documents := documents[id := d];
      res := Ok(d);
    }

    /** GET /:id/history (server/routes/documents.js:189-207). */
    method History(id: string) returns (res: Response<History>)
      ensures id !in documents ==> res == NotFound
      ensures id in documents ==> res.Ok? && res.body.currentVersion == documents[id].version
                                  && res.body == HistoryOf(documents[id])
    {
      if id !in documents {
        return NotFound;
      }
      res := Ok(HistoryOf(documents[id]));
    }

    /** POST /:id/collaborate (server/routes/documents.js:215-239): 403 for a non-collaborator,
        else a snapshot of the document; nothing changes either way. */
    method Collaborate(id: string, userId: Option<string>) returns (res: Response<Snapshot>)
      ensures id !in documents ==> res == NotFound
      ensures id in documents && !CanEdit(documents[id], userId) ==> res == Forbidden
      ensures id in documents && CanEdit(documents[id], userId) ==>
                var d := documents[id];
                res == Ok(Snapshot(d.id, d.name, d.content, d.docType, d.collaborators))
    {
      if id !in documents {
        return NotFound;
      }
      var d := documents[id];
      if !CanEdit(d, userId) {
        return Forbidden;
      }
      res := Ok(Snapshot(d.id, d.name, d.content, d.docType, d.collaborators));
    }
  }
}
