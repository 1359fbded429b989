/**
 * The tracker's collections that XimcRedmine searches: projects with their memberships,
 * and the versions of a project. The remote calls of the client library
 * (`project.all()`, `project_membership.filter(project_id=...)`,
 * `version.filter(project_id=...)`) are given as data: a `Tracker` value holds what
 * each call answers.
 */
module Directory {
  import opened Wrappers
  import opened Search
  import opened Clauses

  datatype UserRef = UserRef(id: int, name: string)

  /** A project membership; a group's membership has no `user` attribute. */
  datatype Membership = Membership(user: Option<UserRef>)

  datatype Project = Project(id: int, name: string, memberships: seq<Membership>)

  datatype Version = Version(id: int, name: string)

  /**
   * What the tracker answers: `project.all()`, and the membership and version lists
   * filtered by a project id (None when the id passed is Python's None).
   */
  datatype Tracker = Tracker(
    projects: seq<Project>,
    membershipsOf: Option<int> -> seq<Membership>,
    versionsOf: Option<int> -> seq<Version>)

  // ---------------------------------------------------------------- the tests of the searches

  /** `project.name == project_name`: a name compares equal only to the same text. */
  function ProjectNamed(projectName: Option<Value>): Project -> bool {
    (p: Project) => Some(Str(p.name)) == projectName
  }

  /** `user is not None and user.name == username`. */
  function UserNamed(username: Option<Value>): Membership -> bool {
    (m: Membership) => m.user.Some? && Some(Str(m.user.value.name)) == username
  }

  /** `version.name == version_name`. */
  function VersionNamed(versionName: Option<Value>): Version -> bool {
    (v: Version) => Some(Str(v.name)) == versionName
  }

  // ---------------------------------------------------------------- what the searches return

  /**
   * What _find_project_id returns: the id of the first project named `projectName`,
   * None exactly when no project has that name.
   */
  function ProjectId(projects: seq<Project>, projectName: Option<Value>): (r: Option<int>)
    ensures r.None? <==> forall i :: 0 <= i < |projects| ==> !ProjectNamed(projectName)(projects[i])
    ensures r.Some? ==> exists i :: 0 <= i < |projects| && ProjectNamed(projectName)(projects[i])
                                    && r.value == projects[i].id
                                    && forall j :: 0 <= j < i ==> !ProjectNamed(projectName)(projects[j])
  {
    match FindIn(projects, ProjectNamed(projectName))
    case None => None
    case Some(p) => Some(p.id)
  }

  /** What the inner get_user_from_memberships returns for one membership list. */
  function UserIdIn(memberships: seq<Membership>, username: Option<Value>): (r: Option<int>)
    ensures r.None? <==> forall i :: 0 <= i < |memberships| ==> !UserNamed(username)(memberships[i])
    ensures r.Some? ==> exists i :: 0 <= i < |memberships| && UserNamed(username)(memberships[i])
                                    && r == Some(memberships[i].user.value.id)
                                    && forall j :: 0 <= j < i ==> !UserNamed(username)(memberships[j])
  {
    match FindIn(memberships, UserNamed(username))
    case None => None
    case Some(m) => Some(m.user.value.id)
  }

  /** The first version named `versionName` in one version list. */
  function VersionIdIn(versions: seq<Version>, versionName: Option<Value>): (r: Option<int>)
    ensures r.None? <==> forall i :: 0 <= i < |versions| ==> !VersionNamed(versionName)(versions[i])
    ensures r.Some? ==> exists i :: 0 <= i < |versions| && VersionNamed(versionName)(versions[i])
                                    && r.value == versions[i].id
                                    && forall j :: 0 <= j < i ==> !VersionNamed(versionName)(versions[j])
  {
    match FindIn(versions, VersionNamed(versionName))
    case None => None
    case Some(v) => Some(v.id)
  }

  /**
   * The membership lists _get_user_id searches, in its order: those of the projects the
   * session's project filters named, then those of every project known at login.
   */
  function MembershipGroups(tracker: Tracker, scoped: seq<Option<int>>, allProjects: seq<Project>)
    : (gs: seq<seq<Membership>>)
    ensures |gs| == |scoped| + |allProjects|
    ensures forall k :: 0 <= k < |scoped| ==> gs[k] == tracker.membershipsOf(scoped[k])
    ensures forall k :: 0 <= k < |allProjects| ==> gs[|scoped| + k] == allProjects[k].memberships
  {
    seq(|scoped|, k requires 0 <= k < |scoped| => tracker.membershipsOf(scoped[k]))
      + seq(|allProjects|, k requires 0 <= k < |allProjects| => allProjects[k].memberships)
  }

  /**
   * The version lists _get_version_id searches, in its order: those of the projects the
   * session's project filters named, then those of every project known at login.
   */
  function VersionGroups(tracker: Tracker, scoped: seq<Option<int>>, allProjects: seq<Project>)
    : (gs: seq<seq<Version>>)
    ensures |gs| == |scoped| + |allProjects|
    ensures forall k :: 0 <= k < |scoped| ==> gs[k] == tracker.versionsOf(scoped[k])
    ensures forall k :: 0 <= k < |allProjects| ==> gs[|scoped| + k] == tracker.versionsOf(Some(allProjects[k].id))
  {
    seq(|scoped|, k requires 0 <= k < |scoped| => tracker.versionsOf(scoped[k]))
      + seq(|allProjects|, k requires 0 <= k < |allProjects| => tracker.versionsOf(Some(allProjects[k].id)))
  }

  /** The first hit of the first list that has one. */
  function FirstIdInGroups<T>(groups: seq<seq<T>>, hit: seq<T> -> Option<int>): Option<int>
    decreases |groups|
  {
    if groups == [] then None
    else if hit(groups[0]).Some? then hit(groups[0]) else FirstIdInGroups(groups[1..], hit)
  }

  function UserSearch(username: Option<Value>): seq<Membership> -> Option<int> {
    (ms: seq<Membership>) => UserIdIn(ms, username)
  }

  function VersionSearch(versionName: Option<Value>): seq<Version> -> Option<int> {
    (vs: seq<Version>) => VersionIdIn(vs, versionName)
  }

  /** What _get_user_id returns. */
  function UserId(tracker: Tracker, scoped: seq<Option<int>>, allProjects: seq<Project>, username: Option<Value>)
    : Option<int>
  {
    FirstIdInGroups(MembershipGroups(tracker, scoped, allProjects), UserSearch(username))
  }

  /** What _get_version_id returns. */
  function VersionId(tracker: Tracker, scoped: seq<Option<int>>, allProjects: seq<Project>, versionName: Option<Value>)
    : Option<int>
  {
    FirstIdInGroups(VersionGroups(tracker, scoped, allProjects), VersionSearch(versionName))
  }

  // ---------------------------------------------------------------- properties

  /** Lists without a hit before position `g` can be skipped. */
  lemma {:induction false} FirstIdInGroupsSkip<T>(groups: seq<seq<T>>, hit: seq<T> -> Option<int>, g: nat)
    requires g <= |groups|
    requires forall k :: 0 <= k < g ==> hit(groups[k]).None?
    ensures FirstIdInGroups(groups, hit) == FirstIdInGroups(groups[g..], hit)
    decreases g
  {
    if g > 0 {
      assert groups[1..][g - 1..] == groups[g..];
      FirstIdInGroupsSkip(groups[1..], hit, g - 1);
    }
  }

  /** The first list with a hit decides the search. */
  lemma FirstIdInGroupsAt<T>(groups: seq<seq<T>>, hit: seq<T> -> Option<int>, g: nat)
    requires g < |groups| && hit(groups[g]).Some?
    requires forall k :: 0 <= k < g ==> hit(groups[k]).None?
    ensures FirstIdInGroups(groups, hit) == hit(groups[g])
  {
    FirstIdInGroupsSkip(groups, hit, g);
    assert groups[g..][0] == groups[g];
  }

  /**
   * The group-by-group search of _get_user_id finds the first member with that name
   * in all the searched membership lists joined, in order.
   */
  lemma UserIdIsFlatSearch(tracker: Tracker, scoped: seq<Option<int>>, allProjects: seq<Project>, username: Option<Value>)
    ensures UserId(tracker, scoped, allProjects, username)
         == match FindIn(Flatten(MembershipGroups(tracker, scoped, allProjects)), UserNamed(username))
            case None => None
            case Some(m) => Some(m.user.value.id)
  {
    var groups := MembershipGroups(tracker, scoped, allProjects);
    FindInGroupsIsFlatSearch(groups, UserNamed(username));
    GroupSearchAgrees(groups, username);
  }

  lemma {:induction false} GroupSearchAgrees(groups: seq<seq<Membership>>, username: Option<Value>)
    ensures FirstIdInGroups(groups, UserSearch(username))
         == match FindInGroups(groups, UserNamed(username))
            case None => None
            case Some(m) => Some(m.user.value.id)
    decreases |groups|
  {
    if groups != [] {
      GroupSearchAgrees(groups[1..], username);
      var f := FindIn(groups[0], UserNamed(username));
      if f.Some? {
        assert UserNamed(username)(f.value);
      }
    }
  }

  /**
   * A user found in a project of the session's own project filters wins over every
   * project known at login.
   */
  lemma ScopedUserWins(tracker: Tracker, scoped: seq<Option<int>>, allProjects: seq<Project>, username: Option<Value>, k: nat)
    requires k < |scoped|
    requires UserIdIn(tracker.membershipsOf(scoped[k]), username).Some?
    requires forall j :: 0 <= j < k ==> UserIdIn(tracker.membershipsOf(scoped[j]), username).None?
    ensures UserId(tracker, scoped, allProjects, username) == UserIdIn(tracker.membershipsOf(scoped[k]), username)
  {
    FirstIdInGroupsAt(MembershipGroups(tracker, scoped, allProjects), UserSearch(username), k);
  }

  /** Without a hit in the filtered projects, the first known project with the user decides. */
  lemma KnownUserFound(tracker: Tracker, scoped: seq<Option<int>>, allProjects: seq<Project>, username: Option<Value>, k: nat)
    requires forall j :: 0 <= j < |scoped| ==> UserIdIn(tracker.membershipsOf(scoped[j]), username).None?
    requires k < |allProjects| && UserIdIn(allProjects[k].memberships, username).Some?
    requires forall j :: 0 <= j < k ==> UserIdIn(allProjects[j].memberships, username).None?
    ensures UserId(tracker, scoped, allProjects, username) == UserIdIn(allProjects[k].memberships, username)
  {
    var groups := MembershipGroups(tracker, scoped, allProjects);
    assert forall j :: 0 <= j < |scoped| + k ==> UserSearch(username)(groups[j]).None? by {
      forall j | 0 <= j < |scoped| + k
        ensures UserSearch(username)(groups[j]).None?
      {
        if j >= |scoped| {
          assert groups[j] == allProjects[j - |scoped|].memberships;
        }
      }
    }
    FirstIdInGroupsAt(groups, UserSearch(username), |scoped| + k);
  }

  /** A user in no searched list is not found. */
  lemma UserNotFound(tracker: Tracker, scoped: seq<Option<int>>, allProjects: seq<Project>, username: Option<Value>)
    requires forall j :: 0 <= j < |scoped| ==> UserIdIn(tracker.membershipsOf(scoped[j]), username).None?
    requires forall j :: 0 <= j < |allProjects| ==> UserIdIn(allProjects[j].memberships, username).None?
    ensures UserId(tracker, scoped, allProjects, username).None?
  {
    var groups := MembershipGroups(tracker, scoped, allProjects);
    assert forall j :: 0 <= j < |groups| ==> UserSearch(username)(groups[j]).None? by {
      forall j | 0 <= j < |groups|
        ensures UserSearch(username)(groups[j]).None?
      {
        if j >= |scoped| {
          assert groups[j] == allProjects[j - |scoped|].memberships;
        }
      }
    }
    NoHitInGroups(groups, UserSearch(username));
  }

  /** A version of a project of the session's own project filters wins over every project known at login. */
  lemma ScopedVersionWins(tracker: Tracker, scoped: seq<Option<int>>, allProjects: seq<Project>, versionName: Option<Value>, k: nat)
    requires k < |scoped|
    requires VersionIdIn(tracker.versionsOf(scoped[k]), versionName).Some?
    requires forall j :: 0 <= j < k ==> VersionIdIn(tracker.versionsOf(scoped[j]), versionName).None?
    ensures VersionId(tracker, scoped, allProjects, versionName) == VersionIdIn(tracker.versionsOf(scoped[k]), versionName)
  {
    FirstIdInGroupsAt(VersionGroups(tracker, scoped, allProjects), VersionSearch(versionName), k);
  }

  /** Without a hit in the filtered projects, the first known project with the version decides. */
  lemma KnownVersionFound(tracker: Tracker, scoped: seq<Option<int>>, allProjects: seq<Project>, versionName: Option<Value>, k: nat)
    requires forall j :: 0 <= j < |scoped| ==> VersionIdIn(tracker.versionsOf(scoped[j]), versionName).None?
    requires k < |allProjects| && VersionIdIn(tracker.versionsOf(Some(allProjects[k].id)), versionName).Some?
    requires forall j :: 0 <= j < k ==> VersionIdIn(tracker.versionsOf(Some(allProjects[j].id)), versionName).None?
    ensures VersionId(tracker, scoped, allProjects, versionName) == VersionIdIn(tracker.versionsOf(Some(allProjects[k].id)), versionName)
  {
    var groups := VersionGroups(tracker, scoped, allProjects);
    assert forall j :: 0 <= j < |scoped| + k ==> VersionSearch(versionName)(groups[j]).None? by {
      forall j | 0 <= j < |scoped| + k
        ensures VersionSearch(versionName)(groups[j]).None?
      {
        if j >= |scoped| {
          assert groups[j] == tracker.versionsOf(Some(allProjects[j - |scoped|].id));
        }
      }
    }
    FirstIdInGroupsAt(groups, VersionSearch(versionName), |scoped| + k);
  }

  /** A version in no searched list is not found. */
  lemma VersionNotFound(tracker: Tracker, scoped: seq<Option<int>>, allProjects: seq<Project>, versionName: Option<Value>)
    requires forall j :: 0 <= j < |scoped| ==> VersionIdIn(tracker.versionsOf(scoped[j]), versionName).None?
    requires forall j :: 0 <= j < |allProjects| ==> VersionIdIn(tracker.versionsOf(Some(allProjects[j].id)), versionName).None?
    ensures VersionId(tracker, scoped, allProjects, versionName).None?
  {
    var groups := VersionGroups(tracker, scoped, allProjects);
    assert forall j :: 0 <= j < |groups| ==> VersionSearch(versionName)(groups[j]).None? by {
      forall j | 0 <= j < |groups|
        ensures VersionSearch(versionName)(groups[j]).None?
      {
        if j >= |scoped| {
          assert groups[j] == tracker.versionsOf(Some(allProjects[j - |scoped|].id));
        }
      }
    }
    NoHitInGroups(groups, VersionSearch(versionName));
  }

  /** A name matches no project, member or version unless it is text. */
  lemma OnlyTextNamesMatch(tracker: Tracker, scoped: seq<Option<int>>, allProjects: seq<Project>, name: Option<Value>)
    ensures !(name.Some? && name.value.Str?) ==>
              ProjectId(tracker.projects, name).None?
              && UserId(tracker, scoped, allProjects, name).None?
              && VersionId(tracker, scoped, allProjects, name).None?
  {
    if !(name.Some? && name.value.Str?) {
      NoHitInGroups(MembershipGroups(tracker, scoped, allProjects), UserSearch(name));
      NoHitInGroups(VersionGroups(tracker, scoped, allProjects), VersionSearch(name));
    }
  }

  lemma {:induction false} NoHitInGroups<T>(groups: seq<seq<T>>, hit: seq<T> -> Option<int>)
    requires forall k :: 0 <= k < |groups| ==> hit(groups[k]).None?
    ensures FirstIdInGroups(groups, hit).None?
    decreases |groups|
  {
    if groups != [] {
      NoHitInGroups(groups[1..], hit);
    }
  }
}
