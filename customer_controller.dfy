/**
 * The customer handlers: sign-up, login, OTP verification and re-issue,
 * profile edit, and order placement.
 *
 * Store lookups arrive as their results: `profile` is the customer found for
 * the authenticated id (null when none), `found` the customer found for an
 * email, `registered` the emails already in use, and `foods` what the food
 * query returned. Password hashing and checking, token generation and the
 * email-format check are oracle parameters; random draws and the clock
 * (`now`, in milliseconds) are inputs.
 */
module CustomerController {
  import opened Options
  import opened JsValues
  import opened Models
  import opened Reconciliation
  import opened Ledger
  import opened CustomerDto

  /** How long an issued OTP stays valid: thirty minutes in milliseconds. */
  const OtpLifetime: int := 30 * 60 * 1000

  datatype OtpGrant = OtpGrant(otp: int, expiry: int)

  /**
   * generateOTP: `Math.floor(1000 + Math.random() * 9000)`, where `draw` is the
   * integer part of `Math.random() * 9000`, expiring thirty minutes after `now`.
   */
  function GenerateOtp(draw: nat, now: int): (g: OtpGrant)
    requires draw < 9000
    ensures 1000 <= g.otp <= 9999 && |DecimalString(g.otp)| == 4
    ensures g.expiry - now == 1800000
  {
    DecimalStringLength(1000 + draw);
    OtpGrant(1000 + draw, now + OtpLifetime)
  }

  // ---------------------------------------------------------------- sign-up

  datatype SignUpOutcome = SignUpInvalid | EmailTaken | SignedUp(token: string, verified: bool, email: string)
  {
    function Status(): int {
      match this
      case SignUpInvalid => 400
      case EmailTaken => 409
      case SignedUp(_, _, _) => 201
    }
  }

  /**
   * CustomerSignUp: invalid input is rejected first, then an email already in
   * use; otherwise a new unverified customer with an OTP, empty names and
   * address, and no orders is created, and a token is issued for it.
   */
  method CustomerSignUp(inputs: CreateCustomerInputs, isEmail: string -> bool, registered: set<string>,
                        newId: Id, salt: string, hash: (string, string) -> string,
                        otpDraw: nat, now: int, issue: (Id, string, bool) -> string)
    returns (outcome: SignUpOutcome, customer: Customer?)
    requires otpDraw < 9000
    ensures outcome == SignUpInvalid <==> !ValidCreateCustomer(inputs, isEmail)
    ensures outcome == EmailTaken <==> ValidCreateCustomer(inputs, isEmail) && inputs.email in registered
    ensures outcome.SignedUp? <==> customer != null
    ensures outcome.SignedUp? ==> outcome == SignedUp(issue(newId, inputs.email, false), false, inputs.email)
    ensures customer != null ==>
      && fresh(customer)
      && customer.id == newId && customer.email == inputs.email && customer.phone == inputs.phone
      && customer.password == hash(inputs.password, salt) && customer.salt == salt
      && customer.otp == GenerateOtp(otpDraw, now).otp && customer.otpExpiry == GenerateOtp(otpDraw, now).expiry
      && !customer.verified && customer.orders == []
      && customer.firstName == "" && customer.lastName == "" && customer.address == ""
      && customer.latitude == 0.0 && customer.longitude == 0.0
  {
    if !ValidCreateCustomer(inputs, isEmail) {
      return SignUpInvalid, null;
    }
    if inputs.email in registered {
      return EmailTaken, null;
    }
    var grant := GenerateOtp(otpDraw, now);
    customer := new Customer(newId, inputs.email, hash(inputs.password, salt), salt, inputs.phone,
                             grant.otp, grant.expiry);
    outcome := SignedUp(issue(customer.id, customer.email, customer.verified), customer.verified, customer.email);
  }

  // ------------------------------------------------------------------ login

  datatype LoginOutcome = LoginInvalid | AccountNotFound | WrongPassword | NotVerified
                        | LoggedIn(token: string, verified: bool, email: string)
  {
    function Status(): int {
      match this
      case LoginInvalid => 400
      case AccountNotFound => 404
      case WrongPassword => 401
      case NotVerified => 403
      case LoggedIn(_, _, _) => 200
    }
  }

  /**
   * CustomerLogin: the checks run in a fixed order (input, account, password,
   * verification), and a token is issued only when all of them pass.
   */
  function CustomerLogin(inputs: UserLoginInputs, isEmail: string -> bool, found: Customer?,
                         passwordMatches: (string, string, string) -> bool,
                         issue: (Id, string, bool) -> string): (r: LoginOutcome)
    reads found
    requires found != null ==> found.email == inputs.email
    ensures r == LoginInvalid <==> !ValidUserLogin(inputs, isEmail)
    ensures r == AccountNotFound <==> ValidUserLogin(inputs, isEmail) && found == null
    ensures r == WrongPassword <==>
      ValidUserLogin(inputs, isEmail) && found != null && !passwordMatches(inputs.password, found.password, found.salt)
    ensures r == NotVerified <==>
      && ValidUserLogin(inputs, isEmail) && found != null
      && passwordMatches(inputs.password, found.password, found.salt) && !found.verified
    ensures r.LoggedIn? ==>
      && ValidUserLogin(inputs, isEmail) && found != null
      && passwordMatches(inputs.password, found.password, found.salt) && found.verified
      && r == LoggedIn(issue(found.id, found.email, true), true, found.email)
  {
    if !ValidUserLogin(inputs, isEmail) then LoginInvalid
    else if found == null then AccountNotFound
    else if !passwordMatches(inputs.password, found.password, found.salt) then WrongPassword
    else if !found.verified then NotVerified
    else LoggedIn(issue(found.id, found.email, found.verified), found.verified, found.email)
  }

  // ------------------------------------------------------- OTP verification

  datatype OtpCheck = OtpExpired | OtpMismatch | OtpAccepted

  /**
   * The OTP test of CustomerVerify: expiry is checked before the code, and an
   * expiry equal to `now` has not yet passed. The code is compared with
   * `parseInt` of the submitted text.
   */
  function CheckOtp(stored: int, expiry: int, now: int, submitted: string): (r: OtpCheck)
    ensures r == OtpExpired <==> expiry < now
    ensures r == OtpAccepted <==> now <= expiry && ParseInt(submitted) == Some(stored)
  {
    if expiry < now then OtpExpired
    else if ParseInt(submitted) != Some(stored) then OtpMismatch
    else OtpAccepted
  }

  /**
   * An OTP issued at `issuedAt` and submitted as its decimal text (possibly
   * followed by text that does not start with a digit) is accepted at any
   * time up to and including its expiry.
   */
  lemma IssuedOtpAccepted(draw: nat, issuedAt: int, now: int, suffix: string)
    requires draw < 9000
    requires now <= issuedAt + OtpLifetime
    requires suffix == [] || !IsDigit(suffix[0], 10)
    ensures var g := GenerateOtp(draw, issuedAt);
      CheckOtp(g.otp, g.expiry, now, DecimalString(g.otp) + suffix) == OtpAccepted
  {
    ParseIntDecimalString(1000 + draw, suffix);
  }

  datatype VerifyOutcome = VerifyUnauthorized | VerifyProfileNotFound | VerifyRejected(check: OtpCheck)
                         | Verified(token: string, verified: bool, email: string)
  {
    function Status(): int {
      match this
      case VerifyUnauthorized => 401
      case VerifyProfileNotFound => 404
      case VerifyRejected(_) => 400
      case Verified(_, _, _) => 200
    }
  }

  /**
   * CustomerVerify: the profile becomes verified only when the stored OTP has
   * not expired and equals `parseInt` of the submitted OTP; otherwise it is
   * left as it was.
   */
  method CustomerVerify(user: Option<AuthPayload>, profile: Customer?, otp: string, now: int,
                        issue: (Id, string, bool) -> string)
    returns (outcome: VerifyOutcome)
    requires user.Some? && profile != null ==> profile.id == user.value.id
    modifies CustomerFound(profile)`verified
    ensures user.None? ==> outcome == VerifyUnauthorized
    ensures user.Some? && profile == null ==> outcome == VerifyProfileNotFound
    ensures user.Some? && profile != null ==>
      var check := CheckOtp(profile.otp, profile.otpExpiry, now, otp);
      && (check == OtpAccepted ==>
            profile.verified && outcome == Verified(issue(profile.id, profile.email, true), true, profile.email))
      && (check != OtpAccepted ==> outcome == VerifyRejected(check))
    ensures profile != null && !outcome.Verified? ==> profile.verified == old(profile.verified)
  {
    if user.None? {
      return VerifyUnauthorized;
    }
    if profile == null {
      return VerifyProfileNotFound;
    }
    var check := CheckOtp(profile.otp, profile.otpExpiry, now, otp);
    if check != OtpAccepted {
      return VerifyRejected(check);
    }
    profile.verified := true;
    outcome := Verified(issue(profile.id, profile.email, profile.verified), profile.verified, profile.email);
  }

  // --------------------------------------------------------- OTP re-issue

  datatype OtpRequestOutcome = OtpUnauthorized | OtpProfileNotFound | OtpSent
  {
    function Status(): int {
      match this
      case OtpUnauthorized => 401
      case OtpProfileNotFound => 404
      case OtpSent => 200
    }
  }

  /** RequestOtp: replaces the stored OTP and its expiry with a freshly generated pair. */
  method RequestOtp(user: Option<AuthPayload>, profile: Customer?, draw: nat, now: int)
    returns (outcome: OtpRequestOutcome)
    requires draw < 9000
    requires user.Some? && profile != null ==> profile.id == user.value.id
    modifies CustomerFound(profile)`otp, CustomerFound(profile)`otpExpiry
    ensures user.None? ==> outcome == OtpUnauthorized
    ensures user.Some? && profile == null ==> outcome == OtpProfileNotFound
    ensures user.Some? && profile != null ==>
      outcome == OtpSent && profile.otp == GenerateOtp(draw, now).otp && profile.otpExpiry == GenerateOtp(draw, now).expiry
    ensures profile != null && outcome != OtpSent ==>
      profile.otp == old(profile.otp) && profile.otpExpiry == old(profile.otpExpiry)
  {
    if user.None? {
      return OtpUnauthorized;
    }
    if profile == null {
      return OtpProfileNotFound;
    }
    var grant := GenerateOtp(draw, now);
    profile.otp := grant.otp;
    profile.otpExpiry := grant.expiry;
    outcome := OtpSent;
  }

  // ----------------------------------------------------------- profile edit

  datatype EditOutcome = EditUnauthorized | EditInvalid | EditProfileNotFound | ProfileUpdated
  {
    function Status(): int {
      match this
      case EditUnauthorized => 401
      case EditInvalid => 400
      case EditProfileNotFound => 404
      case ProfileUpdated => 200
    }
  }

  /**
   * EditCustomerProfile: authentication, then input validation, then the
   * profile lookup; on success first name, last name and address are overwritten.
   */
  method EditCustomerProfile(user: Option<AuthPayload>, inputs: EditCustomerProfileInputs, profile: Customer?)
    returns (outcome: EditOutcome)
    requires user.Some? && profile != null ==> profile.id == user.value.id
    modifies CustomerFound(profile)`firstName, CustomerFound(profile)`lastName, CustomerFound(profile)`address
    ensures user.None? ==> outcome == EditUnauthorized
    ensures user.Some? && !ValidEditCustomerProfile(inputs) ==> outcome == EditInvalid
    ensures user.Some? && ValidEditCustomerProfile(inputs) && profile == null ==> outcome == EditProfileNotFound
    ensures user.Some? && ValidEditCustomerProfile(inputs) && profile != null ==>
      && outcome == ProfileUpdated
      && profile.firstName == inputs.firstName && profile.lastName == inputs.lastName
      && profile.address == inputs.address
    ensures profile != null && outcome != ProfileUpdated ==>
      && profile.firstName == old(profile.firstName) && profile.lastName == old(profile.lastName)
      && profile.address == old(profile.address)
  {
    if user.None? {
      return EditUnauthorized;
    }
    if !ValidEditCustomerProfile(inputs) {
      return EditInvalid;
    }
    if profile == null {
      return EditProfileNotFound;
    }
    profile.firstName := inputs.firstName;
    profile.lastName := inputs.lastName;
    profile.address := inputs.address;
    outcome := ProfileUpdated;
  }

  // -------------------------------------------------------- order placement

  const StatusWaiting := "waiting"
  const PaidCashOnDelivery := "COD"

  /**
   * The order id: `${Math.floor(Math.random() * 89999) + 1000}`, where `draw`
   * is the floor of `Math.random() * 89999`. It is the 4- or 5-digit decimal
   * text of an integer from 1000 to 90998.
   */
  function OrderId(draw: nat): (id: string)
    requires draw < 89999
    ensures 4 <= |id| <= 5 && AllDigits(id, 10)
    ensures ParseInt(id) == Some(draw + 1000) && 1000 <= draw + 1000 <= 90998
  {
    var n := draw + 1000;
    DecimalStringLength(n);
    DecimalStringDenotes(n);
    ParseIntDecimalString(n, "");
    assert DecimalString(n) + "" == DecimalString(n);
    DecimalString(n)
  }

  datatype OrderOutcome = Unauthorized | CustomerNotFound | CartEmpty | NoMatchingFood | OrderPlaced(order: Order)
  {
    function Status(): int {
      match this
      case Unauthorized => 401
      case CustomerNotFound => 404
      case CartEmpty => 400
      case NoMatchingFood => 400
      case OrderPlaced(_) => 200
    }

    function Message(): string {
      match this
      case Unauthorized => "Unauthorized"
      case CustomerNotFound => "Customer not found"
      case CartEmpty => "Cart is empty"
      case NoMatchingFood => "No matching food items found"
      case OrderPlaced(_) => "Order placed successfully"
    }
  }

  /**
   * CreateOrder. The guards run in order: no user, no profile, a missing or
   * empty cart. The cart is then matched against the foods the store found
   * for its ids; with no match nothing is written. Otherwise the order is
   * stored in the ledger with the fixed defaults and the profile's order list
   * grows by exactly its reference. The lines are the cart's resolvable
   * entries priced from the catalog, and the total is their sum.
   */
  method CreateOrder(user: Option<AuthPayload>, profile: Customer?, cart: Option<seq<CartLine>>,
                     catalog: map<Id, Food>, foods: seq<Food>, idDraw: nat, now: int, ledger: OrderLedger)
    returns (outcome: OrderOutcome)
    requires idDraw < 89999
    requires cart.Some? ==> IsLookupResult(catalog, cart.value, foods)
    requires ledger.Valid()
    requires user.Some? && profile != null ==> profile.id == user.value.id
    modifies CustomerFound(profile)`orders, ledger
    ensures ledger.Valid()
    ensures user.None? ==> outcome == Unauthorized
    ensures user.Some? && profile == null ==> outcome == CustomerNotFound
    ensures user.Some? && profile != null && (cart.None? || cart.value == []) ==> outcome == CartEmpty
    ensures user.Some? && profile != null && cart.Some? && cart.value != [] ==>
      (outcome == NoMatchingFood <==> forall j :: 0 <= j < |cart.value| ==> cart.value[j].id !in catalog)
    ensures outcome.OrderPlaced? <==>
      && user.Some? && profile != null && cart.Some? && cart.value != []
      && exists j :: 0 <= j < |cart.value| && cart.value[j].id in catalog
    ensures !outcome.OrderPlaced? ==>
      ledger.orders == old(ledger.orders) && (profile != null ==> profile.orders == old(profile.orders))
    ensures outcome.OrderPlaced? ==>
      var order := outcome.order;
      && user.Some? && profile != null && cart.Some?
      && order.items == Reconcile(foods, cart.value)
      && multiset(order.items) == multiset(PricedLines(cart.value, catalog))
      && order.totalAmount == Total(order.items) == Total(PricedLines(cart.value, catalog))
      && order.orderID == OrderId(idDraw) && order.orderDate == now
      && order.orderStatus == "waiting" && order.paidThrough == "COD" && order.paymentResponse == ""
      && ledger.orders == old(ledger.orders) + [order]
      && profile.orders == old(profile.orders) + [|old(ledger.orders)|]
    ensures profile != null && old(LinkedIn(profile, ledger)) ==> LinkedIn(profile, ledger)
  {
    if user.None? {
      return Unauthorized;
    }
    if profile == null {
      return CustomerNotFound;
    }
    if cart.None? || cart.value == [] {
      return CartEmpty;
    }
    var lines := cart.value;
    var orderId := OrderId(idDraw);
    var items, netAmount := MatchCart(foods, lines);
    MatchOutcome(foods, lines, catalog);
    if |items| == 0 {
      return NoMatchingFood;
    }
    var order := Order(orderId, items, netAmount, now, PaidCashOnDelivery, "", StatusWaiting);
    RecordOrder(profile, ledger, order);
    outcome := OrderPlaced(order);
  }

  /**
   * The two writes of a placed order: the order is stored, then the
   * customer's order list grows by its reference. Every reference the
   * customer held still points into the ledger, and so does the new one.
   */
  method RecordOrder(profile: Customer, ledger: OrderLedger, order: Order)
    requires ledger.Valid() && WellFormed(order)
    modifies profile`orders, ledger
    ensures ledger.Valid()
    ensures ledger.orders == old(ledger.orders) + [order]
    ensures profile.orders == old(profile.orders) + [|old(ledger.orders)|]
    ensures old(LinkedIn(profile, ledger)) ==> LinkedIn(profile, ledger)
  {
    var ref := ledger.Create(order);
    profile.orders := profile.orders + [ref];
  }
}
