/**
 * The request validation rules of the customer endpoints, one predicate per
 * decorator: IsNotEmpty on a string, Length(min, max) with both bounds
 * inclusive, and Matches(/^\d+$/). IsEmail is the `isEmail` parameter: the
 * same predicate is applied at sign-up and at login.
 */
module CustomerDto {

  datatype CreateCustomerInputs = CreateCustomerInputs(email: string, phone: string, password: string)

  datatype UserLoginInputs = UserLoginInputs(email: string, password: string)

  datatype EditCustomerProfileInputs = EditCustomerProfileInputs(firstName: string, lastName: string, address: string)

  predicate IsNotEmpty(s: string) {
    s != ""
  }

  /** Length(min, max): the number of characters lies between the two bounds, both included. */
  predicate HasLength(s: string, min: nat, max: nat) {
    min <= |s| <= max
  }

  /** Matches(/^\d+$/): one or more ASCII digits and nothing else. */
  predicate OnlyDigits(s: string) {
    |s| > 0 && forall i :: 0 <= i < |s| ==> '0' <= s[i] <= '9'
  }

  predicate ValidPhone(phone: string) {
    IsNotEmpty(phone) && HasLength(phone, 7, 12) && OnlyDigits(phone)
  }

  predicate ValidPassword(password: string) {
    IsNotEmpty(password) && HasLength(password, 6, 12)
  }

  predicate ValidCreateCustomer(i: CreateCustomerInputs, isEmail: string -> bool) {
    isEmail(i.email) && ValidPhone(i.phone) && ValidPassword(i.password)
  }

  predicate ValidUserLogin(i: UserLoginInputs, isEmail: string -> bool) {
    isEmail(i.email) && ValidPassword(i.password)
  }

  predicate ValidEditCustomerProfile(i: EditCustomerProfileInputs) {
    HasLength(i.firstName, 3, 16) && HasLength(i.lastName, 3, 16) && HasLength(i.address, 6, 16)
  }

  /** A sign-up phone is 7 to 12 characters, all digits; the IsNotEmpty check is implied by the length. */
  lemma PhoneRule(phone: string)
    ensures ValidPhone(phone) <==> 7 <= |phone| <= 12 && forall i :: 0 <= i < |phone| ==> '0' <= phone[i] <= '9'
  {
  }

  /** A password (sign-up or login) is 6 to 12 characters long; the IsNotEmpty check is implied. */
  lemma PasswordRule(password: string)
    ensures ValidPassword(password) <==> 6 <= |password| <= 12
  {
  }

  /**
   * Sign-up input is valid exactly when its email and password would pass the
   * login rules and its phone passes the phone rule: both endpoints use the
   * same email predicate and the same password rule.
   */
  lemma SignUpIsLoginPlusPhone(email: string, phone: string, password: string, isEmail: string -> bool)
    ensures ValidCreateCustomer(CreateCustomerInputs(email, phone, password), isEmail)
        <==> ValidUserLogin(UserLoginInputs(email, password), isEmail) && ValidPhone(phone)
  {
  }

  /** Profile edits need first and last names of 3 to 16 characters and an address of 6 to 16. */
  lemma EditProfileRule(i: EditCustomerProfileInputs)
    ensures ValidEditCustomerProfile(i)
        <==> 3 <= |i.firstName| <= 16 && 3 <= |i.lastName| <= 16 && 6 <= |i.address| <= 16
  {
  }
}
