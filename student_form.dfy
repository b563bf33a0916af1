/**
 * The field rules of the create and edit student forms: both names are
 * required and the phone is required and must match `^[0-9]{7,15}$`.
 * A field with a rule violated carries the first failing rule's message.
 */
module StudentForm {
  import opened Wrappers
  import opened Text

  const FirstNameRequired := "First name is required"
  const LastNameRequired := "Last name is required"
  const PhoneRequired := "Phone number is required"
  const PhoneInvalid := "Enter a valid phone number (7-15 digits)"

  /** The language of `^[0-9]{7,15}$`: seven to fifteen ASCII digits and nothing else. */
  predicate ValidPhone(p: string)
  {
    7 <= |p| <= 15 && forall i :: 0 <= i < |p| ==> IsDigit(p[i])
  }

  /**
   * The anchored pattern run as an automaton over the rest of the input,
   * `count` being the digits matched so far: a sixteenth digit or any
   * non-digit fails, and the end of input accepts after at least seven.
   */
  predicate PhoneAutomaton(rest: string, count: nat)
    decreases |rest|
  {
    if rest == [] then 7 <= count
    else if !IsDigit(rest[0]) || count == 15 then false
    else PhoneAutomaton(rest[1..], count + 1)
  }

  /** `/^[0-9]{7,15}$/.test(p)`. */
  predicate MatchesPhonePattern(p: string)
  {
    PhoneAutomaton(p, 0)
  }

  lemma {:induction false} PhoneAutomatonIff(rest: string, count: nat)
    requires count <= 15
    ensures PhoneAutomaton(rest, count) <==>
              7 <= count + |rest| <= 15 && forall i :: 0 <= i < |rest| ==> IsDigit(rest[i])
    decreases |rest|
  {
    if rest != [] && IsDigit(rest[0]) && count < 15 {
      PhoneAutomatonIff(rest[1..], count + 1);
      assert forall i :: 0 < i < |rest| ==> rest[i] == rest[1..][i - 1];
    }
  }

  /** The pattern accepts exactly the phones of seven to fifteen digits. */
  lemma PhonePatternIff(p: string)
    ensures MatchesPhonePattern(p) <==> ValidPhone(p)
  {
    PhoneAutomatonIff(p, 0);
  }

  /** The messages the form shows, per field; `None` where the field is fine. */
  datatype FieldErrors = FieldErrors(firstName: Option<string>, lastName: Option<string>, phone: Option<string>)
  {
    predicate Clean() { firstName.None? && lastName.None? && phone.None? }
  }

  /** A `required` rule: only the empty string fails it. */
  function Required(value: string, message: string): Option<string>
  {
    if value == "" then Some(message) else None
  }

  /** The phone's rules in order: `required`, then the pattern. */
  function PhoneError(phone: string): Option<string>
  {
    if phone == "" then Some(PhoneRequired)
    else if !MatchesPhonePattern(phone) then Some(PhoneInvalid)
    else None
  }

  /**
   * All three fields validated. The form is submitted exactly when both names
   * are non-empty and the phone is seven to fifteen digits; each failing field
   * carries its own message.
   */
  function Validate(firstName: string, lastName: string, phone: string): (r: FieldErrors)
    ensures r.Clean() <==> firstName != "" && lastName != "" && ValidPhone(phone)
    ensures r.firstName == (if firstName == "" then Some(FirstNameRequired) else None)
    ensures r.lastName == (if lastName == "" then Some(LastNameRequired) else None)
    ensures r.phone.None? <==> ValidPhone(phone)
    ensures phone == "" ==> r.phone == Some(PhoneRequired)
    ensures phone != "" && !ValidPhone(phone) ==> r.phone == Some(PhoneInvalid)
  {
    PhonePatternIff(phone);
    FieldErrors(Required(firstName, FirstNameRequired), Required(lastName, LastNameRequired), PhoneError(phone))
  }

  /** A phone with a non-digit, such as "abc", is refused with the pattern's message, whatever the names. */
  lemma RejectsNonDigit(firstName: string, lastName: string, phone: string, i: nat)
    requires i < |phone| && !IsDigit(phone[i])
    ensures Validate(firstName, lastName, phone).phone == Some(PhoneInvalid)
  {
  }
}
