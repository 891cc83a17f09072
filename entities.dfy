/**
 * The persisted entities the order service works with: products, orders and
 * their items, plus the C# number types they are declared with.
 */
module Entities {

  datatype Option<+T> = None | Some(value: T)

  /** A `System.Guid`, kept opaque: only equality matters. */
  type Guid = nat

  /** `Guid.Empty`, the value of an `Order.Id` that nobody has assigned. */
  const EmptyGuid: Guid := 0

  const Int32Min: int := -0x8000_0000
  const Int32Max: int := 0x7fff_ffff

  /** C#'s `int`. */
  type Int32 = x: int | Int32Min <= x <= Int32Max

  /**
   * A `decimal(18,2)` amount: an exact base-10 number with two fraction
   * digits, held as a whole number of hundredths (cents).
   */
  type Cents = int

  /**
   * Unchecked C# `int` arithmetic: the 32-bit two's-complement value that a
   * mathematical result wraps around to.
   */
  function Wrap32(x: int): (r: Int32)
    ensures Int32Min <= x <= Int32Max ==> r == x
  {
    (x - Int32Min) % 0x1_0000_0000 + Int32Min
  }

  /** The wrapped value differs from the mathematical one by a multiple of 2^32. */
  lemma Wrap32Congruent(x: int)
    ensures (x - Wrap32(x)) % 0x1_0000_0000 == 0
  {
    var m := 0x1_0000_0000;
    assert x - Wrap32(x) == m * ((x - Int32Min) / m);
  }

  /** Subtracting in two steps with wrap-around after each equals one wrapped subtraction. */
  lemma Wrap32Sub(a: int, b: int)
    ensures Wrap32(Wrap32(a) - b) == Wrap32(a - b)
  {
    var m := 0x1_0000_0000;
    var q := (a - Int32Min) / m;
    assert Wrap32(a) == a - m * q;
    assert (a - b - Int32Min - m * q) % m == (a - b - Int32Min) % m;
  }

  /** `XProducts.Core.Entities.Product`. */
  datatype Product = Product(
    id: Guid,
    name: string,
    description: Option<string>,
    price: Cents,
    stockQuantity: Int32,
    rowVersion: seq<bv8>)

  /** `XProducts.Core.Entities.OrderItem`. */
  datatype OrderItem = OrderItem(id: Guid, productId: Guid, quantity: Int32, unitPrice: Cents)

  /** `XProducts.Core.Entities.Order`; `createdAt` is the `DateTime` in ticks. */
  datatype Order = Order(id: Guid, createdAt: int, total: Cents, items: seq<OrderItem>)

  /** One requested `(productId, qty)` pair of a basket. */
  datatype Line = Line(productId: Guid, qty: Int32)

  /** The product table, keyed by primary key. */
  type Rows = map<Guid, Product>

  /** Every row is stored under its own primary key. */
  ghost predicate Keyed(rows: Rows) {
    forall id :: id in rows ==> rows[id].id == id
  }
}
