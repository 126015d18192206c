/**
 * The remote collection store the thunks talk to, as an in-memory object: three collections keyed by id,
 * and a fixed oracle saying which requests fail with a network error. Failed requests surface the same
 * error shape an HTTP client gives: an optional response (status and body message) and a message.
 */
module Remote {
  import opened Wrappers
  import opened Entities

  datatype HttpResponse = HttpResponse(status: int, dataMessage: Option<string>)

  /** `error.response` (absent when no reply came back) and `error.message` */
  datatype HttpError = HttpError(response: Option<HttpResponse>, message: string)

  /** What a request that never reached the server fails with. */
  const NetworkError := HttpError(None, "Network Error")

  /** What a request on an id the store does not hold fails with. */
  const NotFound := HttpError(Some(HttpResponse(404, None)), "Request failed with status code 404")

  /** `error.response?.data?.message` */
  function ServerMessage(e: HttpError): (r: Option<string>)
    ensures e.response.Some? ==> r == e.response.value.dataMessage
    ensures e.response.None? ==> r.None?
  {
    if e.response.Some? then e.response.value.dataMessage else None
  }

  /**
   * `error.response?.data?.message || error.message`: the server's message when it sent a non-empty one,
   * otherwise the client-side message.
   */
  function RejectMessage(e: HttpError): (r: string)
    ensures ServerMessage(e).Some? && ServerMessage(e).value != "" ==> r == ServerMessage(e).value
    ensures ServerMessage(e).None? || ServerMessage(e).value == "" ==> r == e.message
    ensures r == e.message || Some(r) == ServerMessage(e)
  {
    match ServerMessage(e)
    case Some(m) => if m != "" then m else e.message
    case None => e.message
  }

  /** The three resource paths. */
  datatype Resource = UsersPath | ProductsPath | OrdersPath

  /** Outcome of a write request. */
  datatype Reply = Done | Failed(error: HttpError)

  class RemoteStore {
    var users: map<Id, User>
    var products: map<Id, Product>
    var orders: map<Id, Order>
    /** Requests on `/<resource>/<id>` for these pairs fail with a network error. */
    const faulty: set<(Resource, Id)>
    /** Whether listing the orders of a user fails with a network error. */
    const listingFails: bool

    /** Every record is stored under its own id. */
    ghost predicate Valid()
      reads this
    {
      && (forall k :: k in users ==> users[k].id == k)
      && (forall k :: k in products ==> products[k].id == k)
      && (forall k :: k in orders ==> orders[k].id == k)
    }

    constructor (users: map<Id, User>, products: map<Id, Product>, orders: map<Id, Order>,
                 faulty: set<(Resource, Id)>, listingFails: bool)
      requires forall k :: k in users ==> users[k].id == k
      requires forall k :: k in products ==> products[k].id == k
      requires forall k :: k in orders ==> orders[k].id == k
      ensures Valid()
      ensures this.users == users && this.products == products && this.orders == orders
      ensures this.faulty == faulty && this.listingFails == listingFails
    {
      this.users, this.products, this.orders := users, products, orders;
      this.faulty, this.listingFails := faulty, listingFails;
    }

    /** The reply to a request on `/<resource>/<id>`, given whether the store holds that id. */
    function ReplyFor(resource: Resource, id: Id, present: bool): (r: Reply)
      ensures r.Done? <==> present && (resource, id) !in faulty
      ensures (resource, id) in faulty ==> r == Failed(NetworkError)
      ensures (resource, id) !in faulty && !present ==> r == Failed(NotFound)
    {
      if (resource, id) in faulty then Failed(NetworkError)
      else if !present then Failed(NotFound)
      else Done
    }

    /** The ids of the orders whose owner is `userId`. */
    ghost function OrdersOf(userId: Id): set<Id>
      reads this
    {
      set k | k in orders && orders[k].userId == userId
    }

    /** GET /orders?userId=<userId>, keeping the ids of the listed orders. */
    method ListOrdersOfUser(userId: Id) returns (r: Result<set<Id>, HttpError>)
      ensures listingFails ==> r == Failure(NetworkError)
      ensures !listingFails ==> r == Success(OrdersOf(userId))
      ensures !listingFails ==> r.Success? && forall k :: k in r.value <==> k in orders && orders[k].userId == userId
    {
      if listingFails {
        r := Failure(NetworkError);
      } else {
        r := Success(set k | k in orders && orders[k].userId == userId);
      }
    }

    /** DELETE /orders/<id> */
    method RemoveOrder(id: Id) returns (r: Reply)
      requires Valid()
      modifies this`orders
      ensures Valid()
      ensures r == ReplyFor(OrdersPath, id, id in old(orders))
      ensures orders == if r.Done? then old(orders) - {id} else old(orders)
    {
      r := ReplyFor(OrdersPath, id, id in orders);
      if r.Done? {
        orders := orders - {id};
      }
    }

    /** DELETE /users/<id> */
    method RemoveUser(id: Id) returns (r: Reply)
      requires Valid()
      modifies this`users
      ensures Valid()
      ensures r == ReplyFor(UsersPath, id, id in old(users))
      ensures users == if r.Done? then old(users) - {id} else old(users)
    {
      r := ReplyFor(UsersPath, id, id in users);
      if r.Done? {
        users := users - {id};
      }
    }

    /** DELETE /products/<id> */
    method RemoveProduct(id: Id) returns (r: Reply)
      requires Valid()
      modifies this`products
      ensures Valid()
      ensures r == ReplyFor(ProductsPath, id, id in old(products))
      ensures products == if r.Done? then old(products) - {id} else old(products)
    {
      r := ReplyFor(ProductsPath, id, id in products);
      if r.Done? {
        products := products - {id};
      }
    }

    /** PUT /products/<product.id>: a full replace of a stored product. */
    method ReplaceProduct(product: Product) returns (r: Reply)
      requires Valid()
      modifies this`products
      ensures Valid()
      ensures r == ReplyFor(ProductsPath, product.id, product.id in old(products))
      ensures products == if r.Done? then old(products)[product.id := product] else old(products)
    {
      r := ReplyFor(ProductsPath, product.id, product.id in products);
      if r.Done? {
        products := products[product.id := product];
      }
    }
  }
}
