/** The input rules of the login and sign-up form (CazyShiit/AuthView.swift),
    which the doctor's profile update applies again. */
module Validation {

  /** `Character.isNumber`, restricted to the ASCII digits. */
  predicate IsDigit(c: char) {
    '0' <= c <= '9'
  }

  /** `s.allSatisfy { $0.isNumber }`. */
  function AllDigits(s: string): (r: bool)
    ensures r <==> forall i :: 0 <= i < |s| ==> IsDigit(s[i])
  {
    s == [] || (IsDigit(s[0]) && AllDigits(s[1..]))
  }

  /** `s.contains(c)` for a one-character needle. */
  function ContainsChar(s: string, c: char): (r: bool)
    ensures r <==> exists i :: 0 <= i < |s| && s[i] == c
  {
    s != [] && (s[0] == c || ContainsChar(s[1..], c))
  }

  /** `isValidPhone`: exactly ten characters, all digits. */
  function IsValidPhone(phone: string): (r: bool)
    ensures r ==> phone != ""
    ensures r <==> |phone| == 10 && forall i :: 0 <= i < |phone| ==> IsDigit(phone[i])
  {
    |phone| == 10 && AllDigits(phone)
  }

  /** `isValidEmail`: contains an '@' and a '.', in any order. */
  function IsValidEmail(email: string): (r: bool)
    ensures r ==> email != ""
    ensures r <==> '@' in email && '.' in email
  {
    ContainsChar(email, '@') && ContainsChar(email, '.')
  }

  /** `isValidPassword`: at least six characters. */
  function IsValidPassword(password: string): (r: bool)
    ensures r <==> |password| >= 6
  {
    |password| >= 6
  }

  /** `isFormValid`: tab 0 is the login form, any other tab the sign-up form,
      which also asks for an email. */
  function IsFormValid(selectedTab: int, phone: string, email: string, password: string): (r: bool)
    ensures selectedTab == 0 ==> (r <==> IsValidPhone(phone) && IsValidPassword(password))
    ensures selectedTab != 0 ==> (r <==> IsValidPhone(phone) && IsValidEmail(email) && IsValidPassword(password))
  {
    if selectedTab == 0 then IsValidPhone(phone) && IsValidPassword(password)
    else IsValidPhone(phone) && IsValidEmail(email) && IsValidPassword(password)
  }

  /** Whatever passes the sign-up form passes the login form. */
  lemma SignUpValidImpliesLoginValid(tab: int, phone: string, email: string, password: string)
    requires tab != 0
    ensures IsFormValid(tab, phone, email, password) ==> IsFormValid(0, phone, email, password)
  {
  }

  /** The login form never looks at the email field. */
  lemma LoginIgnoresEmail(phone: string, email: string, other: string, password: string)
    ensures IsFormValid(0, phone, email, password) == IsFormValid(0, phone, other, password)
  {
  }

  /** Boundaries of the phone rule: nine or eleven digits fail, a letter fails. */
  lemma PhoneRuleExamples()
    ensures IsValidPhone("9876543210")
    ensures !IsValidPhone("987654321")
    ensures !IsValidPhone("98765432101")
    ensures !IsValidPhone("98765x3210")
  {
    assert !IsDigit("98765x3210"[5]);
  }

  /** Boundaries of the password rule: five characters fail, six pass, and
      so do the seed passwords. */
  lemma PasswordRuleExamples()
    ensures !IsValidPassword("12345")
    ensures IsValidPassword("123456")
    ensures IsValidPassword("doctor123") && IsValidPassword("patient123")
  {
  }

  /** The email rule is only a presence check: "a.@" passes, "user@host" does not. */
  lemma EmailRuleExamples()
    ensures IsValidEmail("a.@")
    ensures !IsValidEmail("user@host")
  {
    assert "a.@"[2] == '@' && "a.@"[1] == '.';
    assert forall i :: 0 <= i < |"user@host"| ==> "user@host"[i] != '.';
  }
}
