/** A limit order: its value (the copies that travel in messages and reports) and the
    mutable entry that rests in a book.  Prices are `real`, quantities `int`. */
module Orders {

  datatype Side = BUY | SELL

  /** `arrival` is a specification tag: the dispatcher stamps it, nothing ever branches on it. */
  datatype Order = Order(
    clientID: string, symbol: string, owner: string, target: string, side: Side, price: real, quantity: int,
    open: int, executed: int, cancelled: bool, averagePrice: real, lastPrice: real, lastQuantity: int,
    arrival: nat)
  {
    predicate IsFilled() { executed == quantity }

    function Execute(tradePrice: real, traded: int): Order
      requires traded + executed != 0
    {
      this.(averagePrice
              := (averagePrice * executed as real + tradePrice * traded as real) / (traded + executed) as real,
            open := open - traded,
            executed := executed + traded,
            lastPrice := tradePrice,
            lastQuantity := traded)
    }

    function Cancel(): Order { this.(cancelled := true) }

    /** Money paid so far, as the running average records it. */
    function Notional(): real { averagePrice * executed as real }

    /** Not yet touched by the matching engine. */
    predicate Fresh() {
      && open == quantity > 0 && executed == 0 && !cancelled
      && averagePrice == 0.0 && lastPrice == 0.0 && lastQuantity == 0
    }

    /** What the book promises about an order it holds. */
    predicate Resting() {
      0 < open && 0 <= executed && open + executed == quantity && !cancelled
    }

    /** The fields that identify an order and never change after construction. */
    predicate SameIdentity(o: Order) {
      && clientID == o.clientID && symbol == o.symbol && owner == o.owner && target == o.target
      && side == o.side && price == o.price && quantity == o.quantity && arrival == o.arrival
    }
  }

  function NewOrder(clientID: string, symbol: string, owner: string, target: string, side: Side, price: real,
                    quantity: int, arrival: nat): (o: Order)
    ensures quantity > 0 ==> o.Fresh() && o.Resting()
    ensures o.open == o.quantity == quantity && o.executed == 0
    ensures o.clientID == clientID && o.symbol == symbol && o.owner == owner && o.target == target
    ensures o.side == side && o.price == price && o.arrival == arrival
    ensures !o.cancelled && o.averagePrice == 0.0 && o.lastPrice == 0.0 && o.lastQuantity == 0
  {
    Order(clientID, symbol, owner, target, side, price, quantity, quantity, 0, false, 0.0, 0.0, 0, arrival)
  }

  /** What a client may send: the engine divides by executed + traded quantities, so quantities are positive. */
  type FreshOrder = o: Order | o.Fresh() witness NewOrder("", "", "", "", BUY, 0.0, 1, 0)

  lemma DivideMultiply(x: real, y: real)
    requires y != 0.0
    ensures x / y * y == x
  {
  }

  /** One fill moves quantity from open to executed and adds exactly price times quantity to the notional. */
  lemma ExecuteConserves(o: Order, tradePrice: real, traded: int)
    requires traded + o.executed != 0
    ensures var r := o.Execute(tradePrice, traded);
            && r.open + r.executed == o.open + o.executed
            && r.Notional() == o.Notional() + tradePrice * traded as real
            && r.SameIdentity(o)
  {
    DivideMultiply(o.averagePrice * o.executed as real + tradePrice * traded as real, (traded + o.executed) as real);
    assert (o.executed + traded) as real == (traded + o.executed) as real;
  }

  /** Cancelling sets the flag and leaves every other field alone. */
  lemma CancelOnlyFlags(o: Order)
    ensures o.Cancel().cancelled && SameButCancelled(o, o.Cancel())
  {
  }

  /** Equal in every field but the cancelled flag. */
  predicate SameButCancelled(a: Order, b: Order) {
    && a.clientID == b.clientID && a.symbol == b.symbol && a.owner == b.owner && a.target == b.target
    && a.side == b.side && a.price == b.price && a.quantity == b.quantity
    && a.open == b.open && a.executed == b.executed && a.averagePrice == b.averagePrice
    && a.lastPrice == b.lastPrice && a.lastQuantity == b.lastQuantity && a.arrival == b.arrival
  }

  /** Equal in every field but the arrival tag. */
  predicate SameButArrival(a: Order, b: Order) {
    && a.clientID == b.clientID && a.symbol == b.symbol && a.owner == b.owner && a.target == b.target
    && a.side == b.side && a.price == b.price && a.quantity == b.quantity
    && a.open == b.open && a.executed == b.executed && a.cancelled == b.cancelled
    && a.averagePrice == b.averagePrice && a.lastPrice == b.lastPrice && a.lastQuantity == b.lastQuantity
  }

  /** The order object a book holds by value and mutates through a reference. */
  class OrderEntry {
    const clientID: string
    const symbol: string
    const owner: string
    const target: string
    const side: Side
    const price: real
    const quantity: int
    const arrival: nat
    var openQuantity: int
    var executedQuantity: int
    var cancelled: bool
    var averageExecutedPrice: real
    var lastExecutedPrice: real
    var lastExecutedQuantity: int

    function View(): Order
      reads this
    {
      Order(clientID, symbol, owner, target, side, price, quantity, openQuantity, executedQuantity, cancelled,
            averageExecutedPrice, lastExecutedPrice, lastExecutedQuantity, arrival)
    }

    constructor (clientID: string, symbol: string, owner: string, target: string, side: Side, price: real,
                 quantity: int, arrival: nat)
      ensures View() == NewOrder(clientID, symbol, owner, target, side, price, quantity, arrival)
    {
      this.clientID, this.symbol, this.owner, this.target := clientID, symbol, owner, target;
      this.side, this.price, this.quantity, this.arrival := side, price, quantity, arrival;
      openQuantity := quantity;
      executedQuantity := 0;
      cancelled := false;
      averageExecutedPrice := 0.0;
      lastExecutedPrice := 0.0;
      lastExecutedQuantity := 0;
    }

    /** The copy a container makes when an order is inserted by value. */
    constructor Copy(o: Order)
      ensures View() == o
    {
      clientID, symbol, owner, target := o.clientID, o.symbol, o.owner, o.target;
      side, price, quantity, arrival := o.side, o.price, o.quantity, o.arrival;
      openQuantity, executedQuantity, cancelled := o.open, o.executed, o.cancelled;
      averageExecutedPrice, lastExecutedPrice, lastExecutedQuantity := o.averagePrice, o.lastPrice, o.lastQuantity;
    }

    method Execute(tradePrice: real, traded: int)
      requires traded + executedQuantity != 0
      modifies this
      ensures View() == old(View()).Execute(tradePrice, traded)
      ensures openQuantity + executedQuantity == old(openQuantity + executedQuantity)
      ensures View().Notional() == old(View().Notional()) + tradePrice * traded as real
    {
      ghost var before := View();
      averageExecutedPrice := averageExecutedPrice * executedQuantity as real;
      averageExecutedPrice := averageExecutedPrice + tradePrice * traded as real;
      averageExecutedPrice := averageExecutedPrice / (traded + executedQuantity) as real;
      assert averageExecutedPrice == before.Execute(tradePrice, traded).averagePrice;
      openQuantity := openQuantity - traded;
      executedQuantity := executedQuantity + traded;
      lastExecutedPrice := tradePrice;
      lastExecutedQuantity := traded;
      ExecuteConserves(before, tradePrice, traded);
    }

    method Cancel()
      modifies this`cancelled
      ensures cancelled && View() == old(View()).Cancel()
    {
      cancelled := true;
    }
  }
}
