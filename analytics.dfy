/** The pure helpers of server/services/analyticsService.js: the timeframe offsets, the role
    histogram, the task completion figures and the recent-activity window. */
module Analytics {
  import opened Seqs
  import opened Numbers
  import opened Roster

  const DayMs := 24 * 60 * 60 * 1000

  /** The number of days `getStartDate` looks back for a timeframe: 30 for any timeframe
      it does not name. */
  function LookbackDays(timeframe: string): (days: int)
    ensures timeframe == "7d" ==> days == 7
    ensures timeframe == "30d" ==> days == 30
    ensures timeframe == "90d" ==> days == 90
    ensures timeframe == "1y" ==> days == 365
    ensures timeframe !in {"7d", "30d", "90d", "1y"} ==> days == 30
  {
    match timeframe
    case "7d" => 7
    case "30d" => 30
    case "90d" => 90
    case "1y" => 365
    case _ => 30
  }

  /** `getStartDate(timeframe)` (server/services/analyticsService.js:271-285), `now` standing
      for `new Date()`: a whole number of days before now. */
  function StartDate(timeframe: string, now: int): (start: int)
    ensures now - start == LookbackDays(timeframe) * DayMs
    ensures timeframe !in {"7d", "30d", "90d", "1y"} ==> start == now - 30 * DayMs
  {
    now - LookbackDays(timeframe) * DayMs
  }

  /** The number of team members with a role. */
  function RoleCount(team: seq<Entry>, role: string): nat {
    if team == [] then 0
    else RoleCount(team[..|team| - 1], role) + (if team[|team| - 1].role == role then 1 else 0)
  }

  predicate HasRole(team: seq<Entry>, role: string) {
    exists m :: m in team && m.role == role
  }

  /** A role no member has counts zero. */
  lemma {:induction false} RoleCountAbsent(team: seq<Entry>, role: string)
    requires !HasRole(team, role)
    ensures RoleCount(team, role) == 0
  {
    if team != [] {
      var front := team[..|team| - 1];
      assert forall m :: m in front ==> m in team;
      RoleCountAbsent(front, role);
      assert team[|team| - 1] in team;
    }
  }

  /** Extending the team by one member adds that member's role to the counts. */
  lemma RoleStep(team: seq<Entry>, i: int)
    requires 0 <= i < |team|
    ensures forall role :: RoleCount(team[..i + 1], role) == RoleCount(team[..i], role) + (if team[i].role == role then 1 else 0)
    ensures forall role :: HasRole(team[..i + 1], role) <==> HasRole(team[..i], role) || team[i].role == role
  {
    assert team[..i + 1] == team[..i] + [team[i]];
    assert team[..i + 1][..i] == team[..i];
    forall role ensures HasRole(team[..i + 1], role) <==> HasRole(team[..i], role) || team[i].role == role {
      if HasRole(team[..i + 1], role) {
        var m :| m in team[..i + 1] && m.role == role;
      }
      if HasRole(team[..i], role) {
        var m :| m in team[..i] && m.role == role;
        assert m in team[..i + 1];
      }
      if team[i].role == role {
        assert team[i] in team[..i + 1];
      }
    }
  }

  /** The sum of the counts of a list of keys. */
  function Total(keys: seq<string>, counts: map<string, nat>): nat
    requires forall k :: k in keys ==> k in counts
  {
    if keys == [] then 0 else counts[keys[0]] + Total(keys[1..], counts)
  }

  lemma {:induction false} TotalAppend(keys: seq<string>, k: string, counts: map<string, nat>)
    requires forall j :: j in keys ==> j in counts
    requires k in counts
    ensures Total(keys + [k], counts) == Total(keys, counts) + counts[k]
  {
    if keys != [] {
      assert (keys + [k])[1..] == keys[1..] + [k];
      TotalAppend(keys[1..], k, counts);
    }
  }

  lemma {:induction false} TotalUnaffected(keys: seq<string>, counts: map<string, nat>, k: string, v: nat)
    requires forall j :: j in keys ==> j in counts
    requires k !in keys
    ensures Total(keys, counts[k := v]) == Total(keys, counts)
  {
    if keys != [] {
      TotalUnaffected(keys[1..], counts, k, v);
    }
  }

  lemma {:induction false} TotalBump(keys: seq<string>, counts: map<string, nat>, k: string)
    requires forall j :: j in keys ==> j in counts
    requires NoDuplicates(keys) && k in keys
    ensures Total(keys, counts[k := counts[k] + 1]) == Total(keys, counts) + 1
  {
    if keys[0] == k {
      assert k !in keys[1..];
      TotalUnaffected(keys[1..], counts, k, counts[k] + 1);
    } else {
      TotalBump(keys[1..], counts, k);
    }
  }

  /** `roles` and `keys` are the histogram of `team`: a key per role present, in a
      duplicate-free list, with the count of members in that role; the counts add up to the
      team size. */
  ghost predicate Histogram(team: seq<Entry>, roles: map<string, nat>, keys: seq<string>) {
    && (forall role :: role in roles <==> HasRole(team, role))
    && (forall role :: role in roles ==> roles[role] == RoleCount(team, role))
    && NoDuplicates(keys)
    && (forall role :: role in keys <==> role in roles)
    && Total(keys, roles) == |team|
  }

  /** One iteration of the `forEach`: a known role is incremented, a new one starts at 1
      and is appended to the keys. */
  lemma HistogramStep(team: seq<Entry>, i: int, roles: map<string, nat>, keys: seq<string>)
    requires 0 <= i < |team| && Histogram(team[..i], roles, keys)
    ensures var role := team[i].role;
      && (role in roles ==> Histogram(team[..i + 1], roles[role := roles[role] + 1], keys))
      && (role !in roles ==> Histogram(team[..i + 1], roles[role := 1], keys + [role]))
  {
    RoleStep(team, i);
    if team[i].role in roles {
      HistogramKnownRole(team, i, roles, keys);
    } else {
      HistogramNewRole(team, i, roles, keys);
    }
  }

  lemma HistogramKnownRole(team: seq<Entry>, i: int, roles: map<string, nat>, keys: seq<string>)
    requires 0 <= i < |team| && Histogram(team[..i], roles, keys) && team[i].role in roles
    requires forall role :: RoleCount(team[..i + 1], role) == RoleCount(team[..i], role) + (if team[i].role == role then 1 else 0)
    requires forall role :: HasRole(team[..i + 1], role) <==> HasRole(team[..i], role) || team[i].role == role
    ensures Histogram(team[..i + 1], roles[team[i].role := roles[team[i].role] + 1], keys)
  {
    TotalBump(keys, roles, team[i].role);
  }

  lemma HistogramNewRole(team: seq<Entry>, i: int, roles: map<string, nat>, keys: seq<string>)
    requires 0 <= i < |team| && Histogram(team[..i], roles, keys) && team[i].role !in roles
    requires forall role :: RoleCount(team[..i + 1], role) == RoleCount(team[..i], role) + (if team[i].role == role then 1 else 0)
    requires forall role :: HasRole(team[..i + 1], role) <==> HasRole(team[..i], role) || team[i].role == role
    ensures Histogram(team[..i + 1], roles[team[i].role := 1], keys + [team[i].role])
  {
    var role := team[i].role;
    RoleCountAbsent(team[..i], role);
    assert role !in keys;
    TotalUnaffected(keys, roles, role, 1);
    TotalAppend(keys, role, roles[role := 1]);
  }

  /** `getRoleDistribution(team)` (server/services/analyticsService.js:322-328), with the
      object's keys in insertion order. */
  method RoleDistribution(team: seq<Entry>) returns (roles: map<string, nat>, keys: seq<string>)
    ensures Histogram(team, roles, keys)
  {
    roles := map[];
    keys := [];
    var i := 0;
    while i < |team|
      invariant 0 <= i <= |team|
      invariant Histogram(team[..i], roles, keys)
    {
      var role := team[i].role;
      HistogramStep(team, i, roles, keys);
      if role in roles {
        roles := roles[role := roles[role] + 1];
      } else {
        roles := roles[role := 1];
        keys := keys + [role];
      }
      i := i + 1;
    }
    assert team[..i] == team;
  }

  /** The `tasks` figures of `getProjectAnalytics` (server/services/analyticsService.js:50-53). */
  datatype TaskFigures = TaskFigures(total: int, completed: int, pending: int, completionRate: int)

  function TaskSummary(total: int, completed: int): (f: TaskFigures)
    ensures f.total == total && f.completed == completed
    ensures f.pending + f.completed == f.total
    ensures total <= 0 ==> f.completionRate == 0
    ensures total > 0 ==> 2 * total * f.completionRate <= 200 * completed + total < 2 * total * (f.completionRate + 1)
    ensures 0 <= completed <= total ==> 0 <= f.completionRate <= 100
    ensures 0 < completed == total ==> f.completionRate == 100
  {
    if total > 0 then
      RoundPercentAll(completed, total);
      TaskFigures(total, completed, total - completed, RoundPercent(completed, total))
    else
      TaskFigures(total, completed, total - completed, 0)
  }

  /** `activityLog.slice(-10).reverse()` (server/services/analyticsService.js:67): the last
      ten entries, or all of them when there are fewer, most recent first. */
  function RecentActivity<T>(log: seq<T>): (r: seq<T>)
    ensures |r| == if |log| < 10 then |log| else 10
    ensures forall i :: 0 <= i < |r| ==> r[i] == log[|log| - 1 - i]
  {
    var start := if |log| >= 10 then |log| - 10 else 0;
    Reverse(log[start..])
  }
}
