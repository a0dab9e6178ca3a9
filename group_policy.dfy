/** Group-based authorization: whether a user's OpenShift groups meet the
    configured `allowed_groups` / `admin_groups`, and what the user-info
    record looks like after the policy has run. */
module GroupPolicy {
  import opened Outcomes

  /** The two configured group sets. */
  datatype Config = Config(allowedGroups: set<string>, adminGroups: set<string>)
  {
    /** `self.allowed_groups or self.admin_groups`: a Python set is truthy
        exactly when it is non-empty. */
    predicate PolicyConfigured(): (r: bool)
      ensures r <==> |allowedGroups + adminGroups| > 0
    {
      allowedGroups != {} || adminGroups != {}
    }
  }

  /** Reference definition on the raw `groups` list of the user object:
      some listed name is a non-empty string and belongs to `groups`. */
  ghost predicate Shares(userGroups: seq<string>, groups: set<string>) {
    exists i :: 0 <= i < |userGroups| && userGroups[i] in groups && Truthy(userGroups[i])
  }

  /** The admission rule: when no group set is configured everyone is
      admitted; otherwise the user must share a non-empty group name with
      the union of the admin set and the allowed set. */
  ghost predicate Admits(cfg: Config, userGroups: seq<string>) {
    !cfg.PolicyConfigured() || Shares(userGroups, cfg.adminGroups + cfg.allowedGroups)
  }

  /** `any(user_groups.intersection(groups))`: `any` skips falsy elements, so
      a common empty-string name does not count. */
  function UserInGroups(userGroups: set<string>, groups: set<string>): (r: bool)
    ensures r <==> (userGroups * groups) - {""} != {}
  {
    CommonTruthyName(userGroups * groups);
    exists g | g in userGroups * groups :: Truthy(g)
  }

  /** A set of names has a truthy member exactly when removing the empty
      string leaves something. */
  lemma CommonTruthyName(common: set<string>)
    ensures (common - {""} != {}) <==> exists g | g in common :: Truthy(g)
  {
    if forall g | g in common :: !Truthy(g) {
      assert common - {""} == {};
    } else {
      var g :| g in common && Truthy(g);
      assert g in common - {""};
    }
  }

  /** `set(user_info['auth_state']['openshift_user']['groups'])` */
  function GroupSet(userGroups: seq<string>): (s: set<string>)
  {
    set g | g in userGroups
  }

  /** The set test on `set(groups)` agrees with the list-based reference. */
  lemma ListedUserInGroups(userGroups: seq<string>, groups: set<string>)
    ensures UserInGroups(GroupSet(userGroups), groups) <==> Shares(userGroups, groups)
  {
  }

  /** A shared name that is the empty string never grants membership. */
  lemma EmptyNameNeverGrants(userGroups: set<string>, groups: set<string>)
    ensures UserInGroups(userGroups, groups) == UserInGroups(userGroups - {""}, groups)
    ensures "" in userGroups * groups ==> (UserInGroups(userGroups, groups) <==> |userGroups * groups| > 1)
  {
    var common := userGroups * groups;
    assert (userGroups - {""}) * groups == common - {""};
    if "" in common {
      if |common| > 1 {
        assert |common - {""}| == |common| - 1;
      } else {
        assert |common - {""}| == |common| - 1 == 0;
      }
    }
  }

  /** Admission is monotone: adding configured groups never rejects a user
      who was admitted before. */
  lemma UserInGroupsMonotone(userGroups: set<string>, groups: set<string>, more: set<string>)
    requires groups <= more
    ensures UserInGroups(userGroups, groups) ==> UserInGroups(userGroups, more)
  {
  }

  /** Sharing a name with a union of sets is sharing with one of them. */
  lemma SharesUnion(userGroups: seq<string>, a: set<string>, b: set<string>)
    ensures Shares(userGroups, a + b) <==> Shares(userGroups, a) || Shares(userGroups, b)
  {
  }

  /** `_add_openshift_group_info`: with an admin set configured, a user in
      an admin or an allowed group is admitted with `admin` set to admin-group
      membership (possibly false); without one, a user in an allowed group
      is admitted unchanged. Everyone else yields `None`. */
  function AddGroupInfo(cfg: Config, info: UserRecord): (r: Option<UserRecord>)
    ensures var groups := info.authState.openshiftUser.groups;
      cfg.adminGroups != {} ==>
        r == if Shares(groups, cfg.adminGroups) || Shares(groups, cfg.allowedGroups)
             then Some(info.(admin := Some(Shares(groups, cfg.adminGroups))))
             else None
    ensures var groups := info.authState.openshiftUser.groups;
      cfg.adminGroups == {} ==>
        r == if Shares(groups, cfg.allowedGroups) then Some(info) else None
  {
    var userGroups := GroupSet(info.authState.openshiftUser.groups);
    ListedUserInGroups(info.authState.openshiftUser.groups, cfg.adminGroups);
    ListedUserInGroups(info.authState.openshiftUser.groups, cfg.allowedGroups);
    var isAdmin := UserInGroups(userGroups, cfg.adminGroups);
    var userInAllowedGroup := UserInGroups(userGroups, cfg.allowedGroups);
    if cfg.adminGroups != {} && (isAdmin || userInAllowedGroup) then
      Some(info.(admin := Some(isAdmin)))
    else if userInAllowedGroup then
      Some(info)
    else
      None
  }

  /** Whenever the policy is configured, `AddGroupInfo` admits exactly the
      users `Admits` describes, changes nothing but the `admin` key, and
      adds that key exactly when an admin set is configured. */
  lemma AddGroupInfoMatchesAdmits(cfg: Config, info: UserRecord)
    requires cfg.PolicyConfigured()
    requires info.admin == None
    ensures var groups := info.authState.openshiftUser.groups;
      AddGroupInfo(cfg, info).Some? <==> Admits(cfg, groups)
    ensures AddGroupInfo(cfg, info).Some? ==>
      AddGroupInfo(cfg, info).value.name == info.name &&
      AddGroupInfo(cfg, info).value.authState == info.authState &&
      (AddGroupInfo(cfg, info).value.admin.Some? <==> cfg.adminGroups != {})
  {
  }
}
