/**
 * The order-status popover: the five status options, the terminal lock, and the change handler,
 * modelled as a function giving the status update it dispatches (if any) and the popover's open flag.
 */
module OrderStatus {
  import opened Wrappers
  import opened Entities

  /** The keys of the status options, in their declaration order. */
  datatype Status = Pending | Processing | Shipped | Delivered | Cancelled

  const AllStatuses: seq<Status> := [Pending, Processing, Shipped, Delivered, Cancelled]

  /** The key under which a status is stored on an order. */
  function Key(s: Status): string
  {
    match s
    case Pending => "pending"
    case Processing => "processing"
    case Shipped => "shipped"
    case Delivered => "delivered"
    case Cancelled => "cancelled"
  }

  /** The option's label. */
  function Label(s: Status): string
  {
    match s
    case Pending => "Pending"
    case Processing => "Processing"
    case Shipped => "Shipped"
    case Delivered => "Delivered"
    case Cancelled => "Cancelled"
  }

  /** `statusOptions[key]`: the option stored under `key`, if there is one. */
  function StatusOf(key: string): (r: Option<Status>)
    ensures r.Some? ==> Key(r.value) == key
    ensures r.None? ==> forall s: Status :: Key(s) != key
  {
    if key == "pending" then Some(Pending)
    else if key == "processing" then Some(Processing)
    else if key == "shipped" then Some(Shipped)
    else if key == "delivered" then Some(Delivered)
    else if key == "cancelled" then Some(Cancelled)
    else None
  }

  /**
   * Every option is found under its own key, and the option list holds each status exactly once,
   * with distinct keys and distinct labels.
   */
  lemma OptionsAreExactlyTheStatuses()
    ensures forall s: Status :: StatusOf(Key(s)) == Some(s)
    ensures forall s: Status :: s in AllStatuses
    ensures |AllStatuses| == 5
    ensures forall i, j :: 0 <= i < j < |AllStatuses| ==> Key(AllStatuses[i]) != Key(AllStatuses[j])
    ensures forall i, j :: 0 <= i < j < |AllStatuses| ==> Label(AllStatuses[i]) != Label(AllStatuses[j])
  {
    forall s: Status ensures s in AllStatuses {
      match s
      case Pending => assert AllStatuses[0] == s;
      case Processing => assert AllStatuses[1] == s;
      case Shipped => assert AllStatuses[2] == s;
      case Delivered => assert AllStatuses[3] == s;
      case Cancelled => assert AllStatuses[4] == s;
    }
  }

  /** `["delivered", "cancelled"].includes(status)` */
  function IsLocked(status: string): (r: bool)
    ensures r <==> status == Key(Delivered) || status == Key(Cancelled)
  {
    status in ["delivered", "cancelled"]
  }

  /** Exactly the two terminal statuses are locked. */
  lemma LockedStatuses(s: Status)
    ensures IsLocked(Key(s)) <==> s == Delivered || s == Cancelled
  {
  }

  /** The argument of the dispatched `updateOrderStatus`. */
  datatype StatusChange = StatusChange(id: Id, status: string)

  /** What a handler call leaves behind: the dispatched change, if any, and the popover's open flag. */
  datatype Reaction = Reaction(dispatch: Option<StatusChange>, open: bool)

  /**
   * handleChange: dispatch a change to `target` unless the order is locked or already has that
   * status; close the popover either way.
   */
  function HandleChange(order: Order, target: Status): (r: Reaction)
    ensures r.dispatch.Some? <==> !IsLocked(order.status) && Key(target) != order.status
    ensures r.dispatch.Some? ==> r.dispatch.value == StatusChange(order.id, Key(target))
    ensures !r.open
  {
    if IsLocked(order.status) || Key(target) == order.status then
      Reaction(None, false)
    else
      Reaction(Some(StatusChange(order.id, Key(target))), false)
  }

  /**
   * Clicking an option: a locked order's options have no click handler, so nothing happens.
   * The options only exist for an order whose status is one of the option keys: for any other status
   * the badge's lookup finds no option and rendering fails, so there is nothing to click.
   */
  function ClickOption(order: Order, target: Status, open: bool): (r: Reaction)
    requires StatusOf(order.status).Some?
    ensures IsLocked(order.status) ==> r == Reaction(None, open)
    ensures !IsLocked(order.status) ==> !r.open
    ensures r.dispatch.Some? <==> !IsLocked(order.status) && Key(target) != order.status
  {
    if IsLocked(order.status) then Reaction(None, open) else HandleChange(order, target)
  }

  /** A locked order never dispatches, whatever option is chosen, the current one included. */
  lemma LockedNeverDispatches(order: Order, open: bool)
    requires IsLocked(order.status)
    ensures forall t: Status :: HandleChange(order, t).dispatch == None
    ensures StatusOf(order.status).Some? && forall t: Status :: ClickOption(order, t, open).dispatch == None
  {
  }

  /** Choosing the status the order already has never dispatches. */
  lemma SameStatusNeverDispatches(order: Order, t: Status, open: bool)
    requires order.status == Key(t)
    ensures HandleChange(order, t).dispatch == None
    ensures StatusOf(order.status).Some? && ClickOption(order, t, open).dispatch == None
  {
  }

  /**
   * There is no transition graph: from any unlocked status, every other status is one click away,
   * and the click dispatches exactly one change carrying the order's id and the chosen key.
   */
  lemma AnyUnlockedReachesAnyOther(order: Order, from: Status, to: Status, open: bool)
    requires order.status == Key(from) && from != Delivered && from != Cancelled && from != to
    ensures StatusOf(order.status).Some? && ClickOption(order, to, open) == Reaction(Some(StatusChange(order.id, Key(to))), false)
  {
    assert StatusOf(Key(from)) == Some(from);
  }
}
