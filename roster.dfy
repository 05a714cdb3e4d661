/** A list of per-user entries with a role and a permission list: the `collaborators` array
    of server/models/Document.js and the `team` array of server/models/Project.js, which
    both schemas look up, upsert and filter by user id in the same way. */
module Roster {
  import opened Wrappers
  import opened Seqs

  /** One entry; `since` is `invitedAt` for a collaborator and `joinedAt` for a team member. */
  datatype Entry = Entry(user: string, role: string, permissions: seq<string>, since: int)

  /** Each user has at most one entry. */
  predicate DistinctUsers(cs: seq<Entry>) {
    forall i, j :: 0 <= i < j < |cs| ==> cs[i].user != cs[j].user
  }

  predicate HasEntry(cs: seq<Entry>, userId: string) {
    exists c :: c in cs && c.user == userId
  }

  /** `cs.find(c => c.user.toString() === userId.toString())`: the first entry of the user. */
  function Lookup(cs: seq<Entry>, userId: string): (r: Option<Entry>)
    ensures r.None? <==> !HasEntry(cs, userId)
    ensures r.Some? ==> exists i :: 0 <= i < |cs| && cs[i] == r.value && r.value.user == userId
                                    && forall k :: 0 <= k < i ==> cs[k].user != userId
  {
    var i := FirstIndex(cs, (c: Entry) => c.user == userId);
    if i < |cs| then Some(cs[i])
    else
      assert !HasEntry(cs, userId) by {
        forall c | c in cs ensures c.user != userId {
          var j :| 0 <= j < |cs| && cs[j] == c;
        }
      }
      None
  }

  /** With distinct users the entry found is the user's only one. */
  lemma LookupUnique(cs: seq<Entry>, userId: string, c: Entry)
    requires DistinctUsers(cs) && c in cs && c.user == userId
    ensures Lookup(cs, userId) == Some(c)
  {
    var i :| 0 <= i < |cs| && cs[i] == c;
    var r := Lookup(cs, userId);
    var j :| 0 <= j < |cs| && cs[j] == r.value && r.value.user == userId
             && forall k :: 0 <= k < j ==> cs[k].user != userId;
    assert i == j;
  }

  /** The list after `addCollaborator` / `addTeamMember`: the first entry of the user gets
      the new role and permissions, or a new entry is appended when there is none. */
  function Upsert(cs: seq<Entry>, userId: string, role: string, permissions: seq<string>, now: int): seq<Entry> {
    var i := FirstIndex(cs, (c: Entry) => c.user == userId);
    if i < |cs| then cs[i := cs[i].(role := role, permissions := permissions)]
    else cs + [Entry(userId, role, permissions, now)]
  }

  /** After an upsert the user has an entry with the given role and permissions, every other
      entry is one of the old ones and every old entry of another user is kept, the list grows
      by one exactly when the user had no entry, and no user gets a second entry. */
  lemma UpsertEntries(cs: seq<Entry>, userId: string, role: string, permissions: seq<string>, now: int)
    requires DistinctUsers(cs)
    ensures var r := Upsert(cs, userId, role, permissions, now);
      && DistinctUsers(r)
      && (exists c :: c in r && c.user == userId && c.role == role && c.permissions == permissions)
      && (forall c :: c in r && c.user != userId ==> c in cs)
      && (forall c :: c in cs && c.user != userId ==> c in r)
      && |r| == |cs| + (if HasEntry(cs, userId) then 0 else 1)
  {
    var i := FirstIndex(cs, (c: Entry) => c.user == userId);
    var r := Upsert(cs, userId, role, permissions, now);
    if i < |cs| {
      assert r[i].user == userId;
      forall c | c in cs && c.user != userId ensures c in r {
        var j :| 0 <= j < |cs| && cs[j] == c;
        assert r[j] == c;
      }
    } else {
      assert r[|cs|].user == userId;
      assert !HasEntry(cs, userId) by {
        forall c | c in cs ensures c.user != userId {
          var j :| 0 <= j < |cs| && cs[j] == c;
        }
      }
    }
  }

  /** `cs.filter(c => c.user.toString() !== userId.toString())`. */
  function WithoutUser(cs: seq<Entry>, userId: string): seq<Entry> {
    Filter(cs, (c: Entry) => c.user != userId)
  }

  /** Removal drops every entry of the user, keeps the others, keeps their relative order
      (it distributes over concatenation), and keeps the users distinct. */
  lemma WithoutUserEntries(cs: seq<Entry>, more: seq<Entry>, userId: string)
    ensures !HasEntry(WithoutUser(cs, userId), userId)
    ensures forall c :: c in WithoutUser(cs, userId) <==> c in cs && c.user != userId
    ensures WithoutUser(cs + more, userId) == WithoutUser(cs, userId) + WithoutUser(more, userId)
    ensures DistinctUsers(cs) ==> DistinctUsers(WithoutUser(cs, userId))
  {
    FilterConcat(cs, more, (c: Entry) => c.user != userId);
    if DistinctUsers(cs) {
      WithoutUserDistinct(cs, userId);
    }
  }

  lemma {:induction false} WithoutUserDistinct(cs: seq<Entry>, userId: string)
    requires DistinctUsers(cs)
    ensures DistinctUsers(WithoutUser(cs, userId))
  {
    if cs != [] {
      WithoutUserDistinct(cs[1..], userId);
      var rest := WithoutUser(cs[1..], userId);
      forall c | c in rest ensures c.user != cs[0].user {
        var j :| 0 <= j < |cs[1..]| && cs[1..][j] == c;
        assert cs[j + 1] == c;
      }
    }
  }

  /** Removing the user just upserted leaves no entry of that user, whatever was there. */
  lemma RemoveAfterUpsert(cs: seq<Entry>, userId: string, role: string, permissions: seq<string>, now: int)
    ensures !HasEntry(WithoutUser(Upsert(cs, userId, role, permissions, now), userId), userId)
  {
    WithoutUserEntries(Upsert(cs, userId, role, permissions, now), [], userId);
  }
}
