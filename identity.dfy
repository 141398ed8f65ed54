/** Resolution of the owner id under which files are stored and listed:
    the active organization's id, or the signed-in user's id when there is
    no organization, and nothing until both session hooks have loaded. */
module Identity {
  import opened Wrappers

  /** What the organization hook reports: whether it has loaded, and the
      active organization's id if there is one. */
  datatype OrganizationHook = OrganizationHook(isLoaded: bool, organizationId: Option<string>)

  /** What the user hook reports: whether it has loaded, and the signed-in
      user's id if there is one. */
  datatype UserHook = UserHook(isLoaded: bool, userId: Option<string>)

  /** JavaScript truthiness of a `string | undefined`: `undefined` and the
      empty string are falsy. */
  predicate Truthy(id: Option<string>) {
    id.Some? && id.value != ""
  }

  /** The owner id: `undefined` until both hooks have loaded, then the
      organization id, falling back to the user id. The fallback (`??`)
      happens only when the organization id is absent, not when it is the
      empty string. */
  function ResolveOwner(org: OrganizationHook, user: UserHook): (owner: Option<string>)
    ensures !(org.isLoaded && user.isLoaded) ==> owner == None
    ensures forall id ::
      owner == Some(id) <==>
        && org.isLoaded && user.isLoaded
        && (org.organizationId == Some(id) || (org.organizationId == None && user.userId == Some(id)))
  {
    if org.isLoaded && user.isLoaded then
      if org.organizationId.Some? then org.organizationId else user.userId
    else
      None
  }

  /** A member of an organization always acts under the organization's id,
      whatever user is signed in. */
  lemma OrganizationWins(orgId: string, user: UserHook)
    requires user.isLoaded
    ensures ResolveOwner(OrganizationHook(true, Some(orgId)), user) == Some(orgId)
  {
  }

  /** An empty organization id is kept rather than replaced by the user id,
      so the owner is falsy and every guarded action is blocked. */
  lemma EmptyOrganizationIdBlocks(userId: string)
    ensures var owner := ResolveOwner(OrganizationHook(true, Some("")), UserHook(true, Some(userId)));
      owner == Some("") && !Truthy(owner)
  {
  }
}
