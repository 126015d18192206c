/** The records the three resource collections hold, and the id tests the reducers pass to findIndex/filter. */
module Entities {
  import opened Wrappers

  /** Store-assigned identifier (one id type for all three collections). */
  type Id = int

  datatype Product = Product(id: Id, name: string, price: int)

  /**
   * An order as the store holds it. `createdAt` and `totalPrice` are absent on a draft built by the form
   * and present once the order thunks have attached them. `status` is the store's status key.
   */
  datatype Order = Order(
    id: Id,
    userId: Id,
    productIds: seq<Id>,
    status: string,
    createdAt: Option<string>,
    totalPrice: Option<int>)

  datatype User = User(id: Id, name: string, email: string, role: string)

  /** `o => o.id === id` */
  function OrderHasId(id: Id): Order -> bool { (o: Order) => o.id == id }

  /** `p => p.id === id` */
  function ProductHasId(id: Id): Product -> bool { (p: Product) => p.id == id }

  /** `p => p.id !== id` */
  function ProductIdIsNot(id: Id): Product -> bool { (p: Product) => p.id != id }

  /** `u => u.id === id` */
  function UserHasId(id: Id): User -> bool { (u: User) => u.id == id }

  /** `u => u.id !== id` */
  function UserIdIsNot(id: Id): User -> bool { (u: User) => u.id != id }
}
