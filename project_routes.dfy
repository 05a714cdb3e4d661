/** The in-memory project store of server/routes/projects.js: a map from project id to
    project record, kept with the map's insertion order (which the list handler returns),
    and the membership rules of its REST handlers. */
module ProjectRoutes {
  import opened Wrappers
  import opened Seqs
  import opened Http

  /** A `members` entry. Entries built by the handlers always carry a role and a join time;
      a list supplied to PUT /:id is stored as given, so both may be absent. */
  datatype Member = Member(userId: Option<string>, role: Option<string>, joinedAt: Option<int>)

  /** A member as supplied in the body of POST /. */
  datatype MemberInput = MemberInput(userId: Option<string>, role: Option<string>)

  /** A project record. `documents` and `tasks` start empty and no handler changes them. */
  datatype Project = Project(
    id: string,
    name: string,
    description: Option<string>,
    ownerId: string,
    members: seq<Member>,
    documents: seq<string>,
    tasks: seq<string>,
    createdAt: int,
    updatedAt: int)

  /** `member.userId === userId` for some entry. */
  predicate HasMember(p: Project, userId: Option<string>) {
    exists m :: m in p.members && m.userId == userId
  }

  /** The filter of GET /: the user owns the project or is one of its members. */
  predicate VisibleTo(p: Project, userId: string) {
    p.ownerId == userId || HasMember(p, Some(userId))
  }

  /** The entry POST /:id/members appends; `role` defaults to 'member' when absent. */
  function NewMember(userId: Option<string>, role: Option<string>, now: int): Member {
    Member(userId, Some(role.GetOr("member")), Some(now))
  }

  /** The members list of a new project: the owner first, then the supplied members in
      order with a falsy role replaced by 'member'. */
  function InitialMembers(ownerId: string, members: seq<MemberInput>, now: int): (r: seq<Member>)
    ensures |r| == |members| + 1
    ensures r[0] == Member(Some(ownerId), Some("owner"), Some(now))
    ensures forall i :: 0 <= i < |members| ==>
              r[i + 1] == Member(members[i].userId, Some(OrElse(members[i].role, "member")), Some(now))
  {
    [Member(Some(ownerId), Some("owner"), Some(now))]
      + Map(members, (m: MemberInput) => Member(m.userId, Some(OrElse(m.role, "member")), Some(now)))
  }

  /** `project.members.filter(member => member.userId !== userId)`. */
  function WithoutMember(members: seq<Member>, userId: string): (r: seq<Member>)
  {
    Filter(members, (m: Member) => m.userId != Some(userId))
  }

  /** Removing a member drops every entry of that user, keeps every other entry, and keeps
      the list as it was when the user is absent. */
  lemma WithoutMemberDropsExactlyUser(members: seq<Member>, userId: string)
    ensures forall m :: m in WithoutMember(members, userId) <==> m in members && m.userId != Some(userId)
    ensures (forall m :: m in members ==> m.userId != Some(userId)) ==> WithoutMember(members, userId) == members
  {
    if forall m :: m in members ==> m.userId != Some(userId) {
      FilterKeepsAll(members, (m: Member) => m.userId != Some(userId));
    }
  }

  /** Removal keeps the kept entries in their relative order: removing from a concatenation
      is the concatenation of the removals. */
  lemma WithoutMemberKeepsOrder(front: seq<Member>, back: seq<Member>, userId: string)
    ensures WithoutMember(front + back, userId) == WithoutMember(front, userId) + WithoutMember(back, userId)
  {
    FilterConcat(front, back, (m: Member) => m.userId != Some(userId));
  }

  class ProjectStore {
    var projects: map<string, Project>
    /** The keys of `projects` in insertion order. */
    var order: seq<string>

    ghost predicate Valid()
      reads this
    {
      && NoDuplicates(order)
      && (forall k :: k in order <==> k in projects)
      && (forall k :: k in projects ==> projects[k].id == k)
    }

    constructor ()
      ensures Valid() && projects == map[] && order == []
    {
      projects := map[];
      order := [];
    }

    /** GET / (server/routes/projects.js:9-23): 400 without a user id, else the projects the
        user owns or belongs to, in insertion order. */
    function ListForUser(userId: Option<string>): (r: Response<seq<Project>>)
      reads this
      requires Valid()
      ensures !Truthy(userId) <==> r == BadRequest
      ensures Truthy(userId) ==> r.Ok? && |r.body| <= |order|
      ensures Truthy(userId) ==> forall p :: p in r.body <==> p in projects.Values && VisibleTo(p, userId.value)
      ensures Truthy(userId) ==> r.body == Filter(Values(order, projects), (p: Project) => VisibleTo(p, userId.value))
    {
      if !Truthy(userId) then BadRequest
      else
        var all := Values(order, projects);
        assert forall p :: p in projects.Values ==> p in all by {
          forall p | p in projects.Values ensures p in all {
            var k :| k in projects && projects[k] == p;
          }
        }
        Ok(Filter(all, (p: Project) => VisibleTo(p, userId.value)))
    }

    /** GET /:id (server/routes/projects.js:31-40). */
    method Get(id: string) returns (res: Response<Project>)
      ensures id !in projects ==> res == NotFound
      ensures id in projects ==> res == Ok(projects[id])
    {
      if id !in projects {
        return NotFound;
      }
      res := Ok(projects[id]);
    }

    /** POST / (server/routes/projects.js:48-81); `newId` is the fresh `uuidv4()`. */
    method Create(name: Option<string>, description: Option<string>, ownerId: Option<string>,
                  members: Option<seq<MemberInput>>, newId: string, now: int) returns (res: Response<Project>)
      requires Valid()
      requires newId !in projects
      modifies this
      ensures Valid()
      ensures !(Truthy(name) && Truthy(ownerId)) ==>
                res == BadRequest && projects == old(projects) && order == old(order)
      ensures Truthy(name) && Truthy(ownerId) ==>
                && res.Created?
                && projects == old(projects)[newId := res.body]
                && order == old(order) + [newId]
                && res.body == Project(newId, name.value, description, ownerId.value,
                                       InitialMembers(ownerId.value, members.GetOr([]), now), [], [], now, now)
    {
      if !Truthy(name) || !Truthy(ownerId) {
        return BadRequest;
      }
      var p := Project(newId, name.value, description, ownerId.value,
                       InitialMembers(ownerId.value, members.GetOr([]), now), [], [], now, now);
      projects := projects[newId := p];
      order := order + [newId];
      res := Created(p);
    }

    /** PUT /:id (server/routes/projects.js:89-109): only truthy fields are overwritten; any
        supplied members list, even an empty one, replaces the old one. */
    method Update(id: string, name: Option<string>, description: Option<string>, members: Option<seq<Member>>, now: int)
      returns (res: Response<Project>)
      requires Valid()
      modifies this
      ensures Valid() && order == old(order)
      ensures id !in old(projects) ==> res == NotFound && projects == old(projects)
      ensures id in old(projects) ==>
                var p := old(projects)[id];
                && id in projects && projects == old(projects)[id := projects[id]]
                && res == Ok(projects[id])
                && projects[id].name == (if Truthy(name) then name.value else p.name)
                && projects[id].description == (if Truthy(description) then description else p.description)
                && projects[id].members == (if members.Some? then members.value else p.members)
                && projects[id].updatedAt == now
                && projects[id].id == p.id && projects[id].ownerId == p.ownerId && projects[id].createdAt == p.createdAt
                && projects[id].documents == p.documents && projects[id].tasks == p.tasks
    {
      if id !in projects {
        return NotFound;
      }
      var p := projects[id];
      if Truthy(name) {
        p := p.(name := name.value);
      }
      if Truthy(description) {
        p := p.(description := description);
      }
      if members.Some? {
        p := p.(members := members.value);
      }
      p := p.(updatedAt := now);
      projects := projects[id := p];
      res := Ok(p);
    }

    /** DELETE /:id (server/routes/projects.js:117-134): only the owner, and only that project goes. */
    method Delete(id: string, userId: Option<string>) returns (res: Response<()>)
      requires Valid()
      modifies this
      ensures Valid()
      ensures id !in old(projects) ==> res == NotFound && projects == old(projects) && order == old(order)
      ensures id in old(projects) && Some(old(projects)[id].ownerId) != userId ==>
                res == Forbidden && projects == old(projects) && order == old(order)
      ensures id in old(projects) && Some(old(projects)[id].ownerId) == userId ==>
                res == Ok(()) && projects == old(projects) - {id} && order == RemoveAll(old(order), id)
    {
      if id !in projects {
        return NotFound;
      }
      if Some(projects[id].ownerId) != userId {
        return Forbidden;
      }
      RemoveNoDuplicates(order, id);
      projects := projects - {id};
      order := RemoveAll(order, id);
      res := Ok(());
    }

    /** POST /:id/members (server/routes/projects.js:142-170): 400 for a user already
        listed, else exactly one entry is appended. */
    method AddMember(id: string, userId: Option<string>, role: Option<string>, now: int) returns (res: Response<Project>)
      requires Valid()
      modifies this
      ensures Valid() && order == old(order)
      ensures id !in old(projects) ==> res == NotFound && projects == old(projects)
      ensures id in old(projects) && HasMember(old(projects)[id], userId) ==>
                res == BadRequest && projects == old(projects)
      ensures id in old(projects) && !HasMember(old(projects)[id], userId) ==>
                var p := old(projects)[id];
                && id in projects && projects == old(projects)[id := projects[id]]
                && res == Ok(projects[id])
                && projects[id] == p.(members := p.members + [NewMember(userId, role, now)], updatedAt := now)
    {
      if id !in projects {
        return NotFound;
      }
      var p := projects[id];
      var i := FirstIndex(p.members, (m: Member) => m.userId == userId);
      if i < |p.members| {
        return BadRequest;
      }
      p := p.(members := p.members + [NewMember(userId, role, now)]);
      p := p.(updatedAt := now);
      projects := projects[id := p];
      res := Ok(p);
    }

    /** DELETE /:id/members/:userId (server/routes/projects.js:178-194): never fails for a
        known project, even when the user is not a member. */
    method RemoveMember(id: string, userId: string, now: int) returns (res: Response<Project>)
      requires Valid()
      modifies this
      ensures Valid() && order == old(order)
      ensures id !in old(projects) ==> res == NotFound && projects == old(projects)
      ensures id in old(projects) ==>
                var p := old(projects)[id];
                && id in projects && projects == old(projects)[id := projects[id]]
                && res == Ok(projects[id])
                && projects[id] == p.(members := WithoutMember(p.members, userId), updatedAt := now)
    {
      if id !in projects {
        return NotFound;
      }
      var p := projects[id];
      p := p.(members := WithoutMember(p.members, userId));
      p := p.(updatedAt := now);
      projects := projects[id := p];
      res := Ok(p);
    }
  }
}
