/** The permission classes of the Django back end
    (healthcare_backend/api/premissions.py): the admin-only gate and the
    two object-level owner/creator checks. */
module Permissions {
  import opened Js

  /** `request.user` as `IsAdmin` sees it; `None` when the request carries
      no user object at all. The anonymous user is not authenticated. */
  datatype RequestUser = RequestUser(id: int, isAuthenticated: bool, role: string)

  /** A signed-in requester. The object checks read `request.user.role`
      first, which the anonymous user lacks, so they are only asked about
      authenticated users (every view using them also requires one). */
  datatype Requester = Requester(id: int, role: string)

  /** A row as `hasattr` sees it: `user` and `created_by` are `None` when
      the model has no such attribute, `Some(None)` when the column is
      null, and `Some(Some(id))` when it points at a user. */
  datatype Row = Row(user: Option<Option<int>>, createdBy: Option<Option<int>>)

  /** `IsAdmin.has_permission`. */
  predicate HasAdminPermission(user: Option<RequestUser>) {
    user.Some? && user.value.isAuthenticated && user.value.role == "admin"
  }

  /** `IsOwnerOrAdmin.has_object_permission`: admins pass; otherwise the
      `user` attribute decides when the row has one, then `created_by`,
      and a row with neither is refused. */
  predicate OwnerOrAdmin(requester: Requester, row: Row) {
    if requester.role == "admin" then true
    else if row.user.Some? then row.user.value == Some(requester.id)
    else if row.createdBy.Some? then row.createdBy.value == Some(requester.id)
    else false
  }

  /** `IsCreatorOrAdmin.has_object_permission`. */
  predicate CreatorOrAdmin(requester: Requester, row: Row) {
    requester.role == "admin" || (row.createdBy.Some? && row.createdBy.value == Some(requester.id))
  }

  /** The admin gate refuses a missing or unauthenticated user, whatever
      role it carries. */
  lemma AdminGateNeedsAuthentication(user: Option<RequestUser>)
    ensures HasAdminPermission(user) ==> user.Some? && user.value.isAuthenticated
    ensures user.Some? && user.value.isAuthenticated ==> (HasAdminPermission(user) <==> user.value.role == "admin")
  {
  }

  /** An admin is granted every row by both object checks. */
  lemma AdminGrantedEverything(requester: Requester, row: Row)
    requires requester.role == "admin"
    ensures OwnerOrAdmin(requester, row) && CreatorOrAdmin(requester, row)
  {
  }

  /** For a non-admin and a row with a `user` attribute, the owner check is
      decided by `user` alone: `created_by` plays no part. */
  lemma OwnerDecidedByUser(requester: Requester, row: Row, createdBy: Option<Option<int>>)
    requires requester.role != "admin" && row.user.Some?
    ensures OwnerOrAdmin(requester, row) <==> row.user.value == Some(requester.id)
    ensures OwnerOrAdmin(requester, row) == OwnerOrAdmin(requester, row.(createdBy := createdBy))
  {
  }

  /** For a non-admin, a row with neither attribute is refused by both
      checks, and a null owner column never grants. */
  lemma NoOwnerRefused(requester: Requester, row: Row)
    requires requester.role != "admin"
    ensures row.user.None? && row.createdBy.None? ==> !OwnerOrAdmin(requester, row) && !CreatorOrAdmin(requester, row)
    ensures row.user == Some(None) ==> !OwnerOrAdmin(requester, row)
    ensures row.createdBy.None? || row.createdBy == Some(None) ==> !CreatorOrAdmin(requester, row)
  {
  }

  /** On rows without a `user` attribute the two object checks agree; in
      particular a creator grant is also an owner grant there. */
  lemma CreatorImpliesOwner(requester: Requester, row: Row)
    requires row.user.None?
    ensures CreatorOrAdmin(requester, row) <==> OwnerOrAdmin(requester, row)
  {
  }

  /** For a non-admin, a row owned by someone else and created by the
      requester is granted by the creator check and refused by the owner
      check. */
  lemma CreatorOfOthersRow(requester: Requester, row: Row, owner: int)
    requires requester.role != "admin" && owner != requester.id
    ensures row.user == Some(Some(owner)) && row.createdBy == Some(Some(requester.id)) ==>
              CreatorOrAdmin(requester, row) && !OwnerOrAdmin(requester, row)
  {
  }

  /** With a `user` attribute a creator grant does not carry over: the
      creator of a row owned by someone else is refused by the owner
      check. */
  lemma CreatorNotOwner()
    ensures var requester := Requester(1, "user");
            var row := Row(Some(Some(2)), Some(Some(1)));
            CreatorOrAdmin(requester, row) && !OwnerOrAdmin(requester, row)
  {
  }
}
