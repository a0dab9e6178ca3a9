/** The user/group lookup that follows a user-info fetch: a 401 means the
    token is no longer valid, any other failure propagates, and a fetched
    user is turned into a user-info record and, when a group policy is
    configured, filtered through it. */
module UserLookup {
  import opened Outcomes
  import opened GroupPolicy

  /** `_get_openshift_user_info(access_token)`, given what the fetch of the
      user-info endpoint returned or raised. */
  function GetUserInfo(cfg: Config, accessToken: string, fetched: Outcome<OpenShiftUser>)
    : (r: Outcome<Option<UserRecord>>)
    // A 401 is "no user"; every other exception, a CurlError included, is re-raised as is.
    ensures fetched.Raised? ==>
      r == if fetched.error.Code() == 401 then Returned(None) else Raised(fetched.error)
    // A fetched user never makes the lookup raise.
    ensures fetched.Returned? ==> r.Returned?
    // Without a policy the record is exactly {name, auth_state} and has no admin key.
    ensures fetched.Returned? && !cfg.PolicyConfigured() ==>
      r == Returned(Some(UserRecord(fetched.value.name, AuthState(accessToken, fetched.value), None)))
    // With or without a policy, the user is admitted exactly when `Admits` holds.
    ensures fetched.Returned? ==> (r.value.Some? <==> Admits(cfg, fetched.value.groups))
    // An admitted record carries the fetched name and auth state, and an admin
    // key exactly when admin groups are configured, holding admin-group membership.
    ensures fetched.Returned? && r.value.Some? ==>
      var record := r.value.value;
      record.name == fetched.value.name &&
      record.authState == AuthState(accessToken, fetched.value) &&
      (record.admin.Some? <==> cfg.adminGroups != {}) &&
      (record.admin.Some? ==> record.admin.value == Shares(fetched.value.groups, cfg.adminGroups))
  {
    match fetched
    case Raised(ex) =>
      if ex.Code() == 401 then Returned(None) else Raised(ex)
    case Returned(ocpUser) =>
      var userInfo := UserRecord(ocpUser.name, AuthState(accessToken, ocpUser), None);
      if cfg.PolicyConfigured() then
        AddGroupInfoMatchesAdmits(cfg, userInfo);
        Returned(AddGroupInfo(cfg, userInfo))
      else
        Returned(Some(userInfo))
  }

  /** A lookup ends with "no user" exactly when the token was refused with a
      401 or the fetched user fails the policy; it raises exactly when the
      fetch raised something other than a 401. */
  lemma NoUserCases(cfg: Config, accessToken: string, fetched: Outcome<OpenShiftUser>)
    ensures GetUserInfo(cfg, accessToken, fetched) == Returned(None) <==>
      (fetched.Raised? && fetched.error.Code() == 401) ||
      (fetched.Returned? && !Admits(cfg, fetched.value.groups))
    ensures GetUserInfo(cfg, accessToken, fetched).Raised? <==>
      fetched.Raised? && fetched.error.Code() != 401
  {
  }

  /** An example of the empty-name rule (`EmptyNameNeverGrants` states it in
      general): a user whose only group is `""` is rejected even when `""` is
      configured as both an allowed and an admin group. */
  lemma EmptyGroupNameAdmitsNoOne(accessToken: string, name: string)
    ensures var cfg := Config({""}, {""});
      GetUserInfo(cfg, accessToken, Returned(OpenShiftUser(name, [""]))) == Returned(None)
  {
  }
}
