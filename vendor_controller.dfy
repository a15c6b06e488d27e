/**
 * The vendor handlers: login, profile merge, the service toggle, and adding
 * a food. `vendor` is the vendor document the lookup found for the request
 * (null when none); the fresh food id, password checking and token
 * generation are parameters.
 */
module VendorController {
  import opened Options
  import opened JsValues
  import opened Models

  // ------------------------------------------------------------------ login

  datatype VendorLoginOutcome = VendorUnknown | InvalidCredentials | VendorLoggedIn(token: string)
  {
    function Status(): int {
      match this
      case VendorUnknown => 404
      case InvalidCredentials => 400
      case VendorLoggedIn(_) => 200
    }
  }

  /**
   * VendorLogin: `found` is the vendor registered under `email`, if any. An
   * unknown email gives 404, a known email with a failing password 400, and
   * a token (over id, email, food types and name) is issued exactly when the
   * password validates.
   */
  function VendorLogin(email: string, found: Vendor?, password: string,
                       passwordMatches: (string, string, string) -> bool,
                       issue: (Id, string, seq<string>, string) -> string): (r: VendorLoginOutcome)
    reads found
    requires found != null ==> found.email == email
    ensures r == VendorUnknown <==> found == null
    ensures r == InvalidCredentials <==> found != null && !passwordMatches(password, found.password, found.salt)
    ensures r.VendorLoggedIn? <==> found != null && passwordMatches(password, found.password, found.salt)
    ensures r.VendorLoggedIn? ==> r.token == issue(found.id, found.email, found.foodType, found.name)
  {
    if found == null then VendorUnknown
    else if passwordMatches(password, found.password, found.salt) then
      VendorLoggedIn(issue(found.id, found.email, found.foodType, found.name))
    else InvalidCredentials
  }

  // --------------------------------------------------------- profile merge

  /** The profile fields of a request; a field the client left out is None. */
  datatype EditVendorInputs = EditVendorInputs(
    name: Option<string>,
    foodType: Option<seq<string>>,
    address: Option<string>,
    phone: Option<string>)

  /** `value || current` for a string field: a missing or empty value keeps the current one. */
  function MergeText(value: Option<string>, current: string): string {
    if Truthy(value) then value.value else current
  }

  /** `value || current` for an array field: any supplied array is truthy, even an empty one. */
  function MergeList(value: Option<seq<string>>, current: seq<string>): seq<string> {
    if value.Some? then value.value else current
  }

  /**
   * The merge keeps the stored value exactly when the supplied one is falsy:
   * a missing or empty string, or a missing array. An empty array replaces.
   */
  lemma MergeKeepsOnFalsy(value: Option<string>, list: Option<seq<string>>, current: string, currentList: seq<string>)
    ensures MergeText(value, current) == (if value.None? || value.value == "" then current else value.value)
    ensures list == Some([]) ==> MergeList(list, currentList) == []
    ensures list.None? ==> MergeList(list, currentList) == currentList
  {
  }

  /** Applying the same update a second time changes nothing more. */
  lemma MergeIdempotent(value: Option<string>, list: Option<seq<string>>, current: string, currentList: seq<string>)
    ensures MergeText(value, MergeText(value, current)) == MergeText(value, current)
    ensures MergeList(list, MergeList(list, currentList)) == MergeList(list, currentList)
  {
  }

  datatype VendorOutcome = VendorNotFound | ProfileSaved | ServiceSaved(serviceAvailability: bool) | FoodAdded(food: Food)
  {
    function Status(): int {
      match this
      case VendorNotFound => 404
      case ProfileSaved => 200
      case ServiceSaved(_) => 200
      case FoodAdded(_) => 201
    }
  }

  /**
   * UpdateVendorProfile: name, address, phone and food types are merged with
   * `||`; no other field is touched, and nothing changes when no vendor was found.
   */
  method UpdateVendorProfile(vendor: Vendor?, inputs: EditVendorInputs) returns (outcome: VendorOutcome)
    modifies VendorFound(vendor)`name, VendorFound(vendor)`address, VendorFound(vendor)`phone,
             VendorFound(vendor)`foodType
    ensures outcome == VendorNotFound <==> vendor == null
    ensures vendor != null ==>
      && outcome == ProfileSaved
      && vendor.name == MergeText(inputs.name, old(vendor.name))
      && vendor.address == MergeText(inputs.address, old(vendor.address))
      && vendor.phone == MergeText(inputs.phone, old(vendor.phone))
      && vendor.foodType == MergeList(inputs.foodType, old(vendor.foodType))
  {
    if vendor == null {
      return VendorNotFound;
    }
    vendor.name := MergeText(inputs.name, vendor.name);
    vendor.address := MergeText(inputs.address, vendor.address);
    vendor.phone := MergeText(inputs.phone, vendor.phone);
    vendor.foodType := MergeList(inputs.foodType, vendor.foodType);
    outcome := ProfileSaved;
  }

  // --------------------------------------------------------- service toggle

  /** UpdateVendorService: negates the vendor's service availability and reports the new value. */
  method UpdateVendorService(vendor: Vendor?) returns (outcome: VendorOutcome)
    modifies VendorFound(vendor)`serviceAvailability
    ensures outcome == VendorNotFound <==> vendor == null
    ensures vendor != null ==>
      vendor.serviceAvailability == !old(vendor.serviceAvailability)
      && outcome == ServiceSaved(vendor.serviceAvailability)
  {
    if vendor == null {
      return VendorNotFound;
    }
    vendor.serviceAvailability := !vendor.serviceAvailability;
    outcome := ServiceSaved(vendor.serviceAvailability);
  }

  /** Two toggles restore the original availability. */
  method ToggleTwice(vendor: Vendor)
    modifies vendor`serviceAvailability
    ensures vendor.serviceAvailability == old(vendor.serviceAvailability)
  {
    var first := UpdateVendorService(vendor);
    var second := UpdateVendorService(vendor);
  }

  // --------------------------------------------------------------- add food

  /** The food fields of a request. */
  datatype CreateFoodInputs = CreateFoodInputs(
    name: string,
    description: string,
    category: string,
    foodType: seq<string>,
    price: int,
    readyTime: int)

  const PlaceholderImage := "photo.png"

  /** The food AddFood means to create: the vendor's id, rating 0 and the placeholder image. */
  function NewFood(id: Id, vendorId: Id, inputs: CreateFoodInputs): Food {
    Food(id, vendorId, inputs.name, inputs.description, inputs.category, inputs.foodType,
         inputs.readyTime, inputs.price, 0, [PlaceholderImage])
  }

  /**
   * The food the create call stores as written: the placeholder is passed
   * under the key `image`, which the food schema does not declare, so it is
   * dropped and `images` takes the schema default, the empty list.
   */
  function StoredFoodAsWritten(id: Id, vendorId: Id, inputs: CreateFoodInputs): Food {
    Food(id, vendorId, inputs.name, inputs.description, inputs.category, inputs.foodType,
         inputs.readyTime, inputs.price, 0, [])
  }

  /** As written, the stored food has no image; it differs from the intended food in that field only. */
  lemma PlaceholderImageDropped(id: Id, vendorId: Id, inputs: CreateFoodInputs)
    ensures StoredFoodAsWritten(id, vendorId, inputs).images == []
    ensures NewFood(id, vendorId, inputs).images != StoredFoodAsWritten(id, vendorId, inputs).images
    ensures NewFood(id, vendorId, inputs) == StoredFoodAsWritten(id, vendorId, inputs).(images := ["photo.png"])
  {
  }

  /**
   * AddFood: creates the food for the found vendor under the fresh id and
   * appends that id to the end of the vendor's food list; with no vendor
   * nothing is stored.
   */
  method AddFood(vendor: Vendor?, store: FoodStore, inputs: CreateFoodInputs, newId: Id)
    returns (outcome: VendorOutcome)
    requires store.Valid()
    requires newId !in store.foods
    modifies VendorFound(vendor)`foods, store
    ensures store.Valid()
    ensures outcome == VendorNotFound <==> vendor == null
    ensures vendor == null ==> store.foods == old(store.foods)
    ensures vendor != null ==>
      var food := NewFood(newId, vendor.id, inputs);
      && outcome == FoodAdded(food)
      && food.id == newId && food.vendorId == vendor.id && food.rating == 0 && food.images == ["photo.png"]
      && food.name == inputs.name && food.description == inputs.description
      && food.category == inputs.category && food.foodType == inputs.foodType
      && food.price == inputs.price && food.readyTime == inputs.readyTime
      && store.foods == old(store.foods)[newId := food]
      && vendor.foods == old(vendor.foods) + [newId]
  {
    if vendor == null {
      return VendorNotFound;
    }
    var food := NewFood(newId, vendor.id, inputs);
    store.Create(food);
    vendor.foods := vendor.foods + [food.id];
    outcome := FoodAdded(food);
  }
}
