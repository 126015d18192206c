/**
 * The users slice: the delete-user cascade against the remote store (every order of the user is
 * deleted, and only when all of those deletes succeed is the user deleted), and the slice's reducers.
 */
module Users {
  import opened Wrappers
  import opened Lists
  import opened Entities
  import opened Remote

  /**
   * deleteUser: list the user's orders, issue a delete for each (all of them, as a fan-out in
   * any order), and delete the user only when every order delete succeeded. Resolves to the id, or
   * rejects with the message of the first failure met.
   */
  method DeleteUser(store: RemoteStore, id: Id) returns (r: Result<Id, string>)
    requires store.Valid()
    modifies store
    ensures store.Valid()
    // the listed orders are exactly the user's orders; those whose delete does not fail are gone
    ensures store.listingFails ==> store.orders == old(store.orders)
    ensures !store.listingFails ==>
              store.orders == old(store.orders) - (set k | k in old(store.OrdersOf(id)) && (OrdersPath, k) !in store.faulty)
    // success: no order of the user is left, and the user is gone
    ensures r.Success? ==> r.value == id && id !in store.users && store.users == old(store.users) - {id}
    ensures r.Success? ==> forall k :: k in store.orders ==> store.orders[k].userId != id
    // the user is deleted only after every order delete succeeded; otherwise the user is untouched
    ensures r.Success? <==>
              && !store.listingFails
              && (forall k :: k in old(store.OrdersOf(id)) ==> (OrdersPath, k) !in store.faulty)
              && id in old(store.users) && (UsersPath, id) !in store.faulty
    ensures r.Failure? ==> store.users == old(store.users)
    // orders of other users, and the products, are untouched
    ensures forall k :: k in old(store.orders) && old(store.orders)[k].userId != id ==>
              k in store.orders && store.orders[k] == old(store.orders)[k]
    ensures store.products == old(store.products)
  {
    var listed := store.ListOrdersOfUser(id);
    if listed.Failure? {
      return Failure(RejectMessage(listed.error));
    }
    var owned := listed.value;
    ghost var doomed := set k | k in old(store.OrdersOf(id)) && (OrdersPath, k) !in store.faulty;
    assert owned == old(store.OrdersOf(id));
    var pending := owned;
    var firstError: Option<HttpError> := None;
    ghost var failed: set<Id> := {};
    while pending != {}
      invariant pending <= owned
      invariant failed <= owned - pending
      invariant forall k :: k in owned - pending ==> (k in failed <==> (OrdersPath, k) in store.faulty)
      invariant store.orders == old(store.orders) - (owned - pending - failed)
      invariant firstError.None? <==> failed == {}
      invariant store.users == old(store.users) && store.products == old(store.products)
      invariant store.Valid()
      decreases pending
    {
      NonEmptyHasMember(pending);
      // the source deletes `/orders/${order.id}`; the store keeps each order under its own id (Valid)
      var oid :| oid in pending;
      var reply := store.RemoveOrder(oid);
      if reply.Failed? {
        failed := failed + {oid};
        if firstError.None? {
          firstError := Some(reply.error);
        }
      }
      pending := pending - {oid};
    }
    assert owned - pending == owned;
    forall k ensures k in owned - failed <==> k in doomed {
      assert k in owned ==> (k in failed <==> (OrdersPath, k) in store.faulty);
    }
    assert store.orders == old(store.orders) - doomed;
    if firstError.Some? {
      NonEmptyHasMember(failed);
      ghost var undeleted :| undeleted in failed;
      assert undeleted in owned && (OrdersPath, undeleted) in store.faulty;
      return Failure(RejectMessage(firstError.value));
    }
    var reply := store.RemoveUser(id);
    if reply.Failed? {
      return Failure(RejectMessage(reply.error));
    }
    return Success(id);
  }

  /** Proof helper: a non-empty set of ids has a member to pick. */
  lemma NonEmptyHasMember(s: set<Id>)
    requires s != {}
    ensures exists k :: k in s
  {
    if forall k :: k !in s {
      assert false;
    }
  }

  /** The error the slice keeps: a thunk's serialized error, or the value a thunk rejected with. */
  datatype UserError = SerializedError(message: string) | RejectedWith(payload: string)

  /** The users left after removing every user with id `id`. */
  function WithoutUser(users: seq<User>, id: Id): (r: seq<User>)
    ensures forall i :: 0 <= i < |r| ==> r[i].id != id
    ensures forall u :: u in r <==> u in users && u.id != id
    ensures IsSubsequence(r, users)
  {
    FilterIsSubsequence(users, UserIdIsNot(id));
    Filter(users, UserIdIsNot(id))
  }

  /** Removing the same user twice leaves what removing it once leaves. */
  lemma {:induction false} WithoutUserIdempotent(users: seq<User>, id: Id)
    ensures WithoutUser(WithoutUser(users, id), id) == WithoutUser(users, id)
  {
    FilterIdempotent(users, UserIdIsNot(id));
  }

  class UsersState {
    var list: seq<User>
    var loading: bool
    var error: Option<UserError>
    var searchTerm: string
    var roleFilter: string

    constructor ()
      ensures list == [] && !loading && error == None && searchTerm == "" && roleFilter == ""
    {
      list, loading, error, searchTerm, roleFilter := [], false, None, "", "";
    }

    /** setSearchTerm */
    method SetSearchTerm(payload: string)
      modifies this
      ensures searchTerm == payload
      ensures list == old(list) && loading == old(loading) && error == old(error) && roleFilter == old(roleFilter)
    {
      searchTerm := payload;
    }

    /** setRoleFilter */
    method SetRoleFilter(payload: string)
      modifies this
      ensures roleFilter == payload
      ensures list == old(list) && loading == old(loading) && error == old(error) && searchTerm == old(searchTerm)
    {
      roleFilter := payload;
    }

    /** clearUserError */
    method ClearUserError()
      modifies this
      ensures error == None
      ensures list == old(list) && loading == old(loading) && searchTerm == old(searchTerm) && roleFilter == old(roleFilter)
    {
      error := None;
    }

    /** fetchUsers.pending */
    method FetchUsersPending()
      modifies this
      ensures loading
      ensures list == old(list) && error == old(error) && searchTerm == old(searchTerm) && roleFilter == old(roleFilter)
    {
      loading := true;
    }

    /** fetchUsers.fulfilled */
    method FetchUsersFulfilled(payload: seq<User>)
      modifies this
      ensures !loading && list == payload
      ensures error == old(error) && searchTerm == old(searchTerm) && roleFilter == old(roleFilter)
    {
      loading := false;
      list := payload;
    }

    /** fetchUsers.rejected: the thunk's serialized error is kept as the error. */
    method FetchUsersRejected(message: string)
      modifies this
      ensures !loading && error == Some(SerializedError(message))
      ensures list == old(list) && searchTerm == old(searchTerm) && roleFilter == old(roleFilter)
    {
      loading := false;
      error := Some(SerializedError(message));
    }

    /**
     * updateUser.fulfilled: the first user with the payload's id is replaced by the payload;
     * nothing changes when no user has it.
     */
    method UpdateUserFulfilled(payload: User)
      modifies this
      ensures var k := FindIndex(old(list), UserHasId(payload.id));
              list == if k == -1 then old(list) else old(list)[k := payload]
      ensures |list| == |old(list)|
      ensures forall j :: 0 <= j < |list| && list[j] != old(list)[j] ==>
                list[j] == payload && old(list)[j].id == payload.id
      ensures loading == old(loading) && error == old(error)
      ensures searchTerm == old(searchTerm) && roleFilter == old(roleFilter)
    {
      var index := FindIndex(list, UserHasId(payload.id));
      if index != -1 {
        list := list[index := payload];
      }
    }

    /** updateUser.rejected: the rejection value becomes the error; the list is kept. */
    method UpdateUserRejected(payload: string)
      modifies this
      ensures error == Some(RejectedWith(payload))
      ensures list == old(list) && loading == old(loading)
      ensures searchTerm == old(searchTerm) && roleFilter == old(roleFilter)
    {
      error := Some(RejectedWith(payload));
    }

    /** deleteUser.fulfilled: every user with that id goes; the others keep their order. */
    method DeleteUserFulfilled(id: Id)
      modifies this
      ensures list == WithoutUser(old(list), id)
      ensures forall u :: u in list <==> u in old(list) && u.id != id
      ensures IsSubsequence(list, old(list))
      ensures loading == old(loading) && error == old(error)
      ensures searchTerm == old(searchTerm) && roleFilter == old(roleFilter)
    {
      list := WithoutUser(list, id);
    }

    /** deleteUser.rejected: the rejection value becomes the error; the list is kept. */
    method DeleteUserRejected(payload: string)
      modifies this
      ensures error == Some(RejectedWith(payload))
      ensures list == old(list) && loading == old(loading)
      ensures searchTerm == old(searchTerm) && roleFilter == old(roleFilter)
    {
      error := Some(RejectedWith(payload));
    }
  }
}
