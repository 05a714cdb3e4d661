/** The instance methods and the pre-save hook of the document schema in
    server/models/Document.js, on the fields they read and write. Object ids are strings
    (the methods compare them through `toString()`); `save()` is not modelled. */
module DocumentSchema {
  import opened Wrappers
  import opened Seqs
  import opened Text
  import opened Roster

  datatype Version = Version(versionNumber: int, content: string, changes: Option<string>, createdBy: string)

  datatype Range = Range(start: int, end: int)

  datatype Comment = Comment(user: string, content: string, position: Option<Range>)

  datatype Activity = Activity(action: string, description: string, user: string, timestamp: int, metadata: Mixed)

  /** The `metadata` sub-document, less `size` (a UTF-8 byte length). */
  datatype Metadata = Metadata(
    wordCount: nat,
    characterCount: nat,
    lineCount: nat,
    lastModified: int,
    lastModifiedBy: Option<string>,
    readingTime: nat)

  const WordsPerMinute := 200

  /** `Math.ceil(wordCount / 200)`: the least number of whole minutes that covers the words. */
  function ReadingTime(wordCount: nat): (minutes: nat)
    ensures minutes * WordsPerMinute >= wordCount
    ensures minutes == 0 || (minutes - 1) * WordsPerMinute < wordCount
  {
    (wordCount + WordsPerMinute - 1) / WordsPerMinute
  }

  /** The counts the pre-save hook stores when the content changed
      (server/models/Document.js:274-279). */
  function Recount(m: Metadata, content: string, now: int): (r: Metadata)
    ensures r.wordCount == |Words(content)| && r.wordCount == WordStarts(content, true)
    ensures r.characterCount == |content|
    ensures r.lineCount == Occurrences(content, '\n') + 1
    ensures r.readingTime * WordsPerMinute >= r.wordCount
    ensures r.readingTime == 0 || (r.readingTime - 1) * WordsPerMinute < r.wordCount
    ensures r.lastModified == now && r.lastModifiedBy == m.lastModifiedBy
  {
    WordCountIsRuns(content);
    SplitLength(content, '\n');
    var words := |Words(content)|;
    m.(wordCount := words,
       characterCount := |content|,
       lineCount := |Split(content, '\n')|,
       lastModified := now,
       readingTime := ReadingTime(words))
  }

  /** `hasUserPermission(userId, permission)` (server/models/Document.js:315-328): the owner
      has every permission, a user without an entry none; otherwise the user's first entry
      decides: role 'owner' everything, 'editor' everything but 'delete', and any other role
      the listed permissions. */
  function HasUserPermission(owner: string, cs: seq<Entry>, userId: string, permission: string): (r: bool)
    ensures owner == userId ==> r
    ensures owner != userId && !HasEntry(cs, userId) ==> !r
    ensures owner != userId && HasEntry(cs, userId) ==>
              var c := Lookup(cs, userId).value;
              r <==> c.role == "owner" || (c.role == "editor" && permission != "delete") || permission in c.permissions
  {
    if owner == userId then true
    else match Lookup(cs, userId)
      case None => false
      case Some(c) =>
        if c.role == "owner" then true
        else if c.role == "editor" && permission != "delete" then true
        else permission in c.permissions
  }

  /** With one entry per user, an editor holds every permission but 'delete', and holds
      'delete' exactly when its entry lists it. */
  lemma EditorPermissions(owner: string, cs: seq<Entry>, c: Entry, permission: string)
    requires owner != c.user && DistinctUsers(cs) && c in cs && c.role == "editor"
    ensures HasUserPermission(owner, cs, c.user, permission) <==> permission != "delete" || "delete" in c.permissions
  {
    LookupUnique(cs, c.user, c);
  }

  /** Version numbers strictly increase along the list and stay at or below `bound`. */
  predicate Ascending(vs: seq<Version>, bound: int) {
    && (forall i, j :: 0 <= i < j < |vs| ==> vs[i].versionNumber < vs[j].versionNumber)
    && (forall i :: 0 <= i < |vs| ==> vs[i].versionNumber <= bound)
  }

  /** A string path with `trim: true`: Mongoose's setter trims a string and leaves an
    * absent value absent. */
  function TrimmedPath(value: Option<string>): (r: Option<string>)
    ensures r.None? <==> value.None?
    ensures value.Some? ==> r.value == Trim(value.value) && |r.value| <= |value.value|
  {
    match value
    case None => None
    case Some(s) => Some(Trim(s))
  }

  /** The list after `createVersion` pushes `v`: the oldest entry is shifted out first when
      the list already holds `maxVersions` entries (shift on an empty list does nothing). */
  function NextVersions(vs: seq<Version>, maxVersions: int, v: Version): seq<Version> {
    var kept := if |vs| >= maxVersions && |vs| > 0 then vs[1..] else vs;
    kept + [v]
  }

  /** The new version is last, a list within the cap stays within it, and when the cap is
      reached one entry goes in and the oldest comes out. */
  lemma NextVersionsCap(vs: seq<Version>, maxVersions: int, v: Version)
    ensures var r := NextVersions(vs, maxVersions, v);
      && r[|r| - 1] == v
      && (1 <= maxVersions && |vs| <= maxVersions ==> |r| <= maxVersions)
      && (|vs| >= maxVersions && |vs| > 0 ==> |r| == |vs| && r[..|r| - 1] == vs[1..])
      && (|vs| < maxVersions ==> r == vs + [v])
  {
  }

  /** Pushing a number above every listed one keeps the list ascending. */
  lemma NextVersionsAscending(vs: seq<Version>, maxVersions: int, bound: int, v: Version)
    requires Ascending(vs, bound) && v.versionNumber == bound + 1
    ensures Ascending(NextVersions(vs, maxVersions, v), bound + 1)
  {
  }

  class DocumentRecord {
    const owner: string
    var content: string
    var collaborators: seq<Entry>
    var currentVersion: int
    var versions: seq<Version>
    var maxVersions: int
    var comments: seq<Comment>
    var activityLog: seq<Activity>
    var metadata: Metadata

    ghost predicate Valid()
      reads this
    {
      DistinctUsers(collaborators) && Ascending(versions, currentVersion)
    }

    /** A new document with the schema defaults (`currentVersion` 1, empty lists and counts). */
    constructor (owner: string, content: string, maxVersions: int, now: int)
      ensures Valid()
      ensures this.owner == owner && this.content == content && this.maxVersions == maxVersions
      ensures collaborators == [] && currentVersion == 1 && versions == [] && comments == [] && activityLog == []
      ensures metadata == Metadata(0, 0, 0, now, None, 0)
    {
      this.owner := owner;
      this.content := content;
      this.maxVersions := maxVersions;
      collaborators := [];
      currentVersion := 1;
      versions := [];
      comments := [];
      activityLog := [];
      metadata := Metadata(0, 0, 0, now, None, 0);
    }

    /** The pre-save hook (server/models/Document.js:273-283): the counts are recomputed only
        when the content was modified. */
    method PreSave(contentModified: bool, now: int)
      modifies this`metadata
      ensures contentModified ==> metadata == Recount(old(metadata), content, now)
      ensures !contentModified ==> metadata == old(metadata)
    {
      if contentModified {
        var words := |Words(content)|;
        metadata := metadata.(wordCount := words);
        metadata := metadata.(characterCount := |content|);
        metadata := metadata.(lineCount := |Split(content, '\n')|);
        metadata := metadata.(lastModified := now);
        metadata := metadata.(readingTime := ReadingTime(words));
      }
    }

    /** `addCollaborator(userId, role = 'viewer', permissions = [])`
        (server/models/Document.js:286-304). */
    method AddCollaborator(userId: string, role: Option<string>, permissions: Option<seq<string>>, now: int)
      requires Valid()
      modifies this`collaborators
      ensures Valid()
      ensures collaborators == Upsert(old(collaborators), userId, role.GetOr("viewer"), permissions.GetOr([]), now)
    {
      UpsertEntries(collaborators, userId, role.GetOr("viewer"), permissions.GetOr([]), now);
      var i := FirstIndex(collaborators, (c: Entry) => c.user == userId);
      if i < |collaborators| {
        var existing := collaborators[i];
        existing := existing.(role := role.GetOr("viewer"));
        existing := existing.(permissions := permissions.GetOr([]));
        collaborators := collaborators[i := existing];
      } else {
        collaborators := collaborators + [Entry(userId, role.GetOr("viewer"), permissions.GetOr([]), now)];
      }
    }

    /** `removeCollaborator(userId)` (server/models/Document.js:307-312). */
    method RemoveCollaborator(userId: string)
      requires Valid()
      modifies this`collaborators
      ensures Valid()
      ensures collaborators == WithoutUser(old(collaborators), userId)
    {
      WithoutUserEntries(collaborators, [], userId);
      collaborators := WithoutUser(collaborators, userId);
    }

    /** `createVersion(content, changes, userId)` (server/models/Document.js:331-347).
      * The pushed object becomes a version subdocument, whose `changes` path has a
      * trim setter (Document.js:51), so a string `changes` is stored trimmed. */
    method CreateVersion(content: string, changes: Option<string>, userId: string)
      requires Valid()
      modifies this`currentVersion, this`versions
      ensures Valid()
      ensures currentVersion == old(currentVersion) + 1
      ensures versions == NextVersions(old(versions), maxVersions, Version(currentVersion, content, TrimmedPath(changes), userId))
    {
      currentVersion := currentVersion + 1;
      var v := Version(currentVersion, content, TrimmedPath(changes), userId);
      NextVersionsAscending(versions, maxVersions, currentVersion - 1, v);
      if |versions| >= maxVersions && |versions| > 0 {
        versions := versions[1..];
      }
      versions := versions + [v];
    }

    /** `addComment(userId, content, position = null)` (server/models/Document.js:350-358).
      * The pushed object becomes a comment subdocument, whose `content` path has a
      * trim setter (Document.js:12), so the stored content is the trimmed argument. */
    method AddComment(userId: string, content: string, position: Option<Range>)
      modifies this`comments
      ensures comments == old(comments) + [Comment(userId, Trim(content), position)]
    {
      comments := comments + [Comment(userId, Trim(content), position)];
    }

    /** `logActivity(action, description, userId, metadata = {})` (server/models/Document.js:361-373);
        the metadata argument is renamed because the record has a `metadata` field of its own. */
    method LogActivity(action: string, description: string, userId: string, activityMetadata: Option<Mixed>, now: int)
      modifies this`activityLog, this`metadata
      ensures activityLog == old(activityLog) + [Activity(action, description, userId, now, activityMetadata.GetOr(map[]))]
      ensures metadata == old(metadata).(lastModified := now, lastModifiedBy := Some(userId))
    {
      activityLog := activityLog + [Activity(action, description, userId, now, activityMetadata.GetOr(map[]))];
      metadata := metadata.(lastModified := now);
      metadata := metadata.(lastModifiedBy := Some(userId));
    }
  }
}
