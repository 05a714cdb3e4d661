/** The instance methods, virtuals and pre-save hook of the project schema in
    server/models/Project.js. Dates are millisecond timestamps; `save()` is not modelled. */
module ProjectSchema {
  import opened Wrappers
  import opened Seqs
  import opened Roster
  import opened Numbers

  /** Milliseconds in a day, `1000 * 60 * 60 * 24`. */
  const DayMs := 1000 * 60 * 60 * 24

  datatype Task = Task(title: string, status: string)

  datatype Analytics = Analytics(totalTasks: int, completedTasks: int, lastActivity: int)

  datatype Activity = Activity(action: string, description: string, user: string, timestamp: int, metadata: Mixed)

  /** `this.tasks.filter(task => task.status === 'completed')`. */
  function CompletedTasks(tasks: seq<Task>): (r: seq<Task>)
    ensures |r| <= |tasks|
    ensures forall t :: t in r <==> t in tasks && t.status == "completed"
  {
    Filter(tasks, (t: Task) => t.status == "completed")
  }

  /** `this.completedDate || this.dueDate || new Date()`: a set date is always truthy. */
  function EndDate(completedDate: Option<int>, dueDate: Option<int>, now: int): int {
    if completedDate.Some? then completedDate.value
    else if dueDate.Some? then dueDate.value
    else now
  }

  /** The `duration` virtual (server/models/Project.js:237-241): 0 without a start date,
      else the number of days from start to end rounded up (negative when the end lies
      before the start). */
  function Duration(startDate: Option<int>, completedDate: Option<int>, dueDate: Option<int>, now: int): (days: int)
    ensures startDate.None? ==> days == 0
    ensures startDate.Some? ==>
              var span := EndDate(completedDate, dueDate, now) - startDate.value;
              DayMs * (days - 1) < span <= DayMs * days
  {
    if startDate.None? then 0
    else CeilDiv(EndDate(completedDate, dueDate, now) - startDate.value, DayMs)
  }

  /** The `isOverdue` virtual (server/models/Project.js:244-246). */
  predicate IsOverdue(dueDate: Option<int>, status: string, now: int) {
    dueDate.Some? && dueDate.value < now && status != "completed"
  }

  /** A completed project, or one with no due date, is never overdue; any other project is
      overdue exactly once its due date has passed, and stays overdue as time goes on until
      it is completed. */
  lemma OverdueCases(dueDate: Option<int>, status: string, now: int, later: int)
    ensures status == "completed" || dueDate.None? ==> !IsOverdue(dueDate, status, now)
    ensures status != "completed" && dueDate.Some? ==> (IsOverdue(dueDate, status, now) <==> now > dueDate.value)
    ensures IsOverdue(dueDate, status, now) && now <= later ==> IsOverdue(dueDate, status, later)
    ensures !IsOverdue(dueDate, "completed", now)
  {
  }

  /** An overdue project that is not completed measures its `duration` up to its due date:
      the value no longer grows with `now`, and it is at most the whole days elapsed from the
      start to `now`, which a project without a due date would report. */
  lemma OverdueDuration(startDate: Option<int>, dueDate: Option<int>, status: string, now: int, later: int)
    requires IsOverdue(dueDate, status, now) && now <= later
    ensures Duration(startDate, None, dueDate, later) == Duration(startDate, None, dueDate, now)
    ensures Duration(startDate, None, dueDate, now) <= Duration(startDate, None, None, now)
  {
    if startDate.Some? {
      CeilDivMono(dueDate.value - startDate.value, now - startDate.value, DayMs);
    }
  }

  /** `hasUserPermission(userId, permission)` (server/models/Project.js:289-297): only `team`
      is consulted, so a user without an entry has no permission, the owner included;
      otherwise the user's first entry decides: role 'owner' everything, 'manager' everything
      but 'admin', and any other role the listed permissions. */
  function HasUserPermission(team: seq<Entry>, userId: string, permission: string): (r: bool)
    ensures !HasEntry(team, userId) ==> !r
    ensures HasEntry(team, userId) ==>
              var m := Lookup(team, userId).value;
              r <==> m.role == "owner" || (m.role == "manager" && permission != "admin") || permission in m.permissions
  {
    match Lookup(team, userId)
    case None => false
    case Some(m) =>
      if m.role == "owner" then true
      else if m.role == "manager" && permission != "admin" then true
      else permission in m.permissions
  }

  /** With one entry per user, a manager holds every permission but 'admin', and holds
      'admin' exactly when its entry lists it. */
  lemma ManagerPermissions(team: seq<Entry>, m: Entry, permission: string)
    requires DistinctUsers(team) && m in team && m.role == "manager"
    ensures HasUserPermission(team, m.user, permission) <==> permission != "admin" || "admin" in m.permissions
  {
    LookupUnique(team, m.user, m);
  }

  class ProjectRecord {
    var team: seq<Entry>
    var tasks: seq<Task>
    var progress: int
    var analytics: Analytics
    var activityLog: seq<Activity>

    /** One team entry per user, and progress within the schema's bounds 0..100. */
    ghost predicate Valid()
      reads this
    {
      DistinctUsers(team) && 0 <= progress <= 100
    }

    /** A new project with the schema defaults. */
    constructor (now: int)
      ensures Valid()
      ensures team == [] && tasks == [] && progress == 0 && activityLog == []
      ensures analytics == Analytics(0, 0, now)
    {
      team := [];
      tasks := [];
      progress := 0;
      analytics := Analytics(0, 0, now);
      activityLog := [];
    }

    /** The pre-save hook (server/models/Project.js:249-261): with tasks present the counts
        and the rounded completion percentage are recomputed; without tasks they stay. */
    method PreSave(now: int)
      requires Valid()
      modifies this`analytics, this`progress
      ensures Valid()
      ensures |tasks| > 0 ==>
                && analytics == Analytics(|tasks|, |CompletedTasks(tasks)|, now)
                && progress == RoundPercent(|CompletedTasks(tasks)|, |tasks|)
      ensures |tasks| == 0 ==>
                analytics == old(analytics).(lastActivity := now) && progress == old(progress)
    {
      if |tasks| > 0 {
        analytics := analytics.(totalTasks := |tasks|);
        analytics := analytics.(completedTasks := |CompletedTasks(tasks)|);
        if analytics.totalTasks > 0 {
          progress := RoundPercent(analytics.completedTasks, analytics.totalTasks);
        }
      }
      analytics := analytics.(lastActivity := now);
    }

    /** `addTeamMember(userId, role = 'member', permissions = [])`
        (server/models/Project.js:264-280). */
    method AddTeamMember(userId: string, role: Option<string>, permissions: Option<seq<string>>, now: int)
      requires Valid()
      modifies this`team
      ensures Valid()
      ensures team == Upsert(old(team), userId, role.GetOr("member"), permissions.GetOr([]), now)
    {
      UpsertEntries(team, userId, role.GetOr("member"), permissions.GetOr([]), now);
      var i := FirstIndex(team, (m: Entry) => m.user == userId);
      if i < |team| {
        var existing := team[i];
        existing := existing.(role := role.GetOr("member"));
        existing := existing.(permissions := permissions.GetOr([]));
        team := team[i := existing];
      } else {
        team := team + [Entry(userId, role.GetOr("member"), permissions.GetOr([]), now)];
      }
    }

    /** `removeTeamMember(userId)` (server/models/Project.js:283-286). */
    method RemoveTeamMember(userId: string)
      requires Valid()
      modifies this`team
      ensures Valid()
      ensures team == WithoutUser(old(team), userId)
    {
      WithoutUserEntries(team, [], userId);
      team := WithoutUser(team, userId);
    }

    /** `logActivity(action, description, userId, metadata = {})` (server/models/Project.js:300-310). */
    method LogActivity(action: string, description: string, userId: string, activityMetadata: Option<Mixed>, now: int)
      modifies this`activityLog, this`analytics
      ensures activityLog == old(activityLog) + [Activity(action, description, userId, now, activityMetadata.GetOr(map[]))]
      ensures analytics == old(analytics).(lastActivity := now)
    {
      activityLog := activityLog + [Activity(action, description, userId, now, activityMetadata.GetOr(map[]))];
      analytics := analytics.(lastActivity := now);
    }
  }
}
