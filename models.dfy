/**
 * The records of the food-delivery backend: foods, cart lines, the priced
 * lines and orders built from them, and the customer, vendor and food
 * documents that the handlers load, change in place and save.
 *
 * Identifiers are opaque strings. Prices, totals, ratings and times are
 * integers (prices in minor currency units, timestamps in milliseconds since
 * the epoch, `readyTime` in minutes); the source keeps them as JavaScript
 * numbers.
 */
module Models {

  type Id = string

  /** A position in the order ledger: how a customer refers to one of its orders. */
  type OrderRef = nat

  /** A food item as the store keeps it. */
  datatype Food = Food(
    id: Id,
    vendorId: Id,
    name: string,
    description: string,
    category: string,
    foodType: seq<string>,
    readyTime: int,
    price: int,
    rating: int,
    images: seq<string>)

  /** One entry of a client cart: a food id and a unit count. It carries no price. */
  datatype CartLine = CartLine(id: Id, unit: int)

  /** A matched line of an order: the food record found in the store and the client's unit count. */
  datatype CartItem = CartItem(food: Food, unit: int)

  /** An order record. `orderDate` is a timestamp. */
  datatype Order = Order(
    orderID: string,
    items: seq<CartItem>,
    totalAmount: int,
    orderDate: int,
    paidThrough: string,
    paymentResponse: string,
    orderStatus: string)

  /** The identity an authenticated request carries. */
  datatype AuthPayload = AuthPayload(id: Id, email: string, verified: bool)

  /** A customer document, changed in place by the account and order handlers and then saved. */
  class Customer {
    const id: Id
    var email: string
    var password: string
    var salt: string
    var phone: string
    var firstName: string
    var lastName: string
    var address: string
    var otp: int
    var otpExpiry: int
    var verified: bool
    var latitude: real
    var longitude: real
    var orders: seq<OrderRef>

    /** The document sign-up creates: unverified, empty names and address, no orders. */
    constructor (id: Id, email: string, password: string, salt: string, phone: string,
                 otp: int, otpExpiry: int)
      ensures this.id == id && this.email == email && this.password == password
      ensures this.salt == salt && this.phone == phone
      ensures this.otp == otp && this.otpExpiry == otpExpiry
      ensures firstName == "" && lastName == "" && address == ""
      ensures !verified && latitude == 0.0 && longitude == 0.0 && orders == []
    {
      this.id := id;
      this.email := email;
      this.password := password;
      this.salt := salt;
      this.phone := phone;
      this.otp := otp;
      this.otpExpiry := otpExpiry;
      firstName, lastName, address := "", "", "";
      verified := false;
      latitude, longitude := 0.0, 0.0;
      orders := [];
    }
  }

  /** A vendor document, changed in place by the vendor handlers and then saved. */
  class Vendor {
    const id: Id
    var name: string
    var ownerName: string
    var foodType: seq<string>
    var pincode: string
    var address: string
    var phone: string
    var email: string
    var password: string
    var salt: string
    var serviceAvailability: bool
    var coverImages: seq<string>
    var rating: int
    var foods: seq<Id>
  }

  /** The customer a lookup found, as a frame: empty when the lookup found none. */
  function CustomerFound(c: Customer?): set<Customer> {
    if c == null then {} else {c}
  }

  /** The vendor a lookup found, as a frame: empty when the lookup found none. */
  function VendorFound(v: Vendor?): set<Vendor> {
    if v == null then {} else {v}
  }

  /** A vendor document as a query returns it, with its foods populated. */
  datatype VendorDoc = VendorDoc(
    id: Id,
    name: string,
    pincode: string,
    serviceAvailability: bool,
    rating: int,
    foods: seq<Food>)

  /** Every stored food is filed under its own id. */
  ghost predicate Keyed(catalog: map<Id, Food>) {
    forall id :: id in catalog ==> catalog[id].id == id
  }

  /** The food collection. */
  class FoodStore {
    var foods: map<Id, Food>

    ghost predicate Valid() reads this {
      Keyed(foods)
    }

    constructor ()
      ensures Valid() && foods == map[]
    {
      foods := map[];
    }

    /** Stores a food under its (fresh) id. */
    method Create(food: Food)
      requires Valid()
      requires food.id !in foods
      modifies this
      ensures Valid()
      ensures foods == old(foods)[food.id := food]
    {
      foods := foods[food.id := food];
    }
  }
}
