/**
 * The input checks of the signup page: the name, email and password
 * validators and the choice, in handleSignUp, between creating the account
 * and showing exactly one error message.
 */
module Signup {
  import opened Wrappers
  import opened JsBuiltins

  /**
   * handleNameChange: a first and a last name. The last space must come
   * after at least one character and be followed by at least one.
   */
  function NameValid(name: string): (valid: bool)
    ensures valid <==> exists k :: IsLastOccurrence(name, " ", k) && 0 < k < |name| - 1
  {
    var lastSpacePos := LastIndexOf(name, " ");
    var firstNameValid := lastSpacePos > 0;
    var lastNameValid := |name| - lastSpacePos > 1;
    if name == "" || !firstNameValid || !lastNameValid then false
    else true
  }

  /**
   * handleEmailChange: an ad-hoc heuristic, not the address syntax of
   * RFC 5322. The last '@' must follow at least one character, the last '.'
   * must come after it and after index 2, at least two characters must follow
   * that dot, and "@@" must not occur.
   */
  function EmailValid(email: string): (valid: bool)
    ensures valid <==>
      && (exists at, dot ::
            && IsLastOccurrence(email, "@", at)
            && IsLastOccurrence(email, ".", dot)
            && 0 < at < dot && 2 < dot < |email| - 2)
      && !Occurs(email, "@@")
  {
    var lastAtPos := LastIndexOf(email, "@");
    var lastDotPos := LastIndexOf(email, ".");
    var validFormat := lastAtPos > 0 && lastDotPos > 2 && lastAtPos < lastDotPos;
    var containsDoubleAt := LastIndexOf(email, "@@") != -1;
    var validOrgNameLength := |email| - lastDotPos > 2;
    if email == "" || !validFormat || !validOrgNameLength || containsDoubleAt then false
    else true
  }

  /** handlePasswordChange: the password and its confirmation agree. */
  predicate PasswordsMatch(firstPwd: string, secondPwd: string)
  {
    firstPwd == secondPwd
  }

  const NameMessage := "Please enter your first and last name"
  const EmailMessage := "Invalid email address"
  const PasswordMessage := "Passwords do not match"

  /** What handleSignUp does with a submitted form. */
  datatype SignUpOutcome = CreateAccount | Toast(message: string)

  /**
   * handleSignUp's decision on the four form fields (name, email, password,
   * confirmation). The account-creation calls that follow it are not modelled.
   */
  function SignUp(name: string, email: string, password: string, confirmation: string): (outcome: SignUpOutcome)
    ensures outcome == CreateAccount <==>
      NameValid(name) && EmailValid(email) && PasswordsMatch(password, confirmation)
    ensures outcome.Toast? ==> outcome.message in {NameMessage, EmailMessage, PasswordMessage}
  {
    var nameValid := NameValid(name);
    var emailValid := EmailValid(email);
    var passwordValid := PasswordsMatch(password, confirmation);
    if nameValid && emailValid && passwordValid then CreateAccount
    else if !nameValid then Toast(NameMessage)
    else if !emailValid then Toast(EmailMessage)
    // here passwordValid is false, so the source's last else-if always fires
    else Toast(PasswordMessage)
  }

  /** A reference definition: the message of the first check, in list order, that fails. */
  function FirstFailure(checks: seq<(bool, string)>): (r: Option<string>)
    ensures r == None <==> forall i :: 0 <= i < |checks| ==> checks[i].0
    ensures r.Some? ==> exists i ::
      && 0 <= i < |checks| && !checks[i].0 && r.value == checks[i].1
      && forall j :: 0 <= j < i ==> checks[j].0
  {
    if checks == [] then None
    else if !checks[0].0 then Some(checks[0].1)
    else
      var rest := FirstFailure(checks[1..]);
      assert forall i :: 0 < i < |checks| ==> checks[i] == checks[1..][i - 1];
      rest
  }

  /** The checks of handleSignUp in priority order: name, then email, then password. */
  function Checks(name: string, email: string, password: string, confirmation: string): seq<(bool, string)>
  {
    [ (NameValid(name), NameMessage),
      (EmailValid(email), EmailMessage),
      (PasswordsMatch(password, confirmation), PasswordMessage) ]
  }

  /**
   * When signup does not proceed, the one message shown is that of the first
   * failing check in the order name, email, password.
   */
  lemma SignUpShowsFirstFailure(name: string, email: string, password: string, confirmation: string)
    ensures SignUp(name, email, password, confirmation) ==
      match FirstFailure(Checks(name, email, password, confirmation))
      case None => CreateAccount
      case Some(m) => Toast(m)
  {
    var checks := Checks(name, email, password, confirmation);
    assert checks[1..] == checks[1..3];
    assert checks[1..][1..] == [checks[2]];
    assert [checks[2]][1..] == [];
  }

  /** The password check is an equivalence: reflexive, symmetric and transitive. */
  lemma PasswordsMatchIsEquivalence(a: string, b: string, c: string)
    ensures PasswordsMatch(a, a)
    ensures PasswordsMatch(a, b) <==> PasswordsMatch(b, a)
    ensures PasswordsMatch(a, b) && PasswordsMatch(b, c) ==> PasswordsMatch(a, c)
  {
  }

  /** A name needs a space strictly inside it: "", "Ada", " Ada" and "Ada " are rejected. */
  lemma NameExamples()
    ensures !NameValid("") && !NameValid("Ada") && !NameValid(" Ada") && !NameValid("Ada ")
    ensures NameValid("Ada Lovelace")
  {
    OccursAtChar("Ada", ' ', LastIndexOf("Ada", " "));
    OccursAtChar(" Ada", ' ', LastIndexOf(" Ada", " "));
    OccursAtChar("Ada ", ' ', LastIndexOf("Ada ", " "));
    var full := "Ada Lovelace";
    forall j | 3 < j ensures !OccursAt(full, " ", j) {
      OccursAtChar(full, ' ', j);
    }
    OccursAtChar(full, ' ', 3);
    assert IsLastOccurrence(full, " ", 3);
  }

  /**
   * The ways handleEmailChange rejects: an empty string, no '@' or a last
   * '@' at index 0, no '.' after the last '@', a last '.' at index 2 or
   * before, fewer than two characters after the last '.', or "@@" anywhere.
   */
  lemma EmailRejections(email: string, at: int, dot: int)
    ensures !EmailValid("")
    ensures !Occurs(email, "@") || IsLastOccurrence(email, "@", 0) ==> !EmailValid(email)
    ensures !Occurs(email, ".") ==> !EmailValid(email)
    ensures IsLastOccurrence(email, "@", at) && IsLastOccurrence(email, ".", dot) ==>
      (dot <= at || dot <= 2 || |email| - dot <= 2 ==> !EmailValid(email))
    ensures Occurs(email, "@@") ==> !EmailValid(email)
  {
  }

  /** "ada@x.edu" is accepted; "a@b.c" is rejected, as only one character follows its last dot. */
  lemma EmailExamples()
    ensures EmailValid("ada@x.edu")
    ensures !EmailValid("a@b.c")
  {
    var good := "ada@x.edu";
    forall j | 3 < j ensures !OccursAt(good, "@", j) {
      OccursAtChar(good, '@', j);
    }
    OccursAtChar(good, '@', 3);
    forall j | 5 < j ensures !OccursAt(good, ".", j) {
      OccursAtChar(good, '.', j);
    }
    OccursAtChar(good, '.', 5);
    assert IsLastOccurrence(good, "@", 3) && IsLastOccurrence(good, ".", 5);
    forall k | 0 <= k && k + 2 <= |good| ensures !OccursAt(good, "@@", k) {
      assert good[k..k + 2] == [good[k], good[k + 1]];
    }
    var bad := "a@b.c";
    forall j | 3 < j ensures !OccursAt(bad, ".", j) {
      OccursAtChar(bad, '.', j);
    }
    OccursAtChar(bad, '.', 3);
    LastIndexOfFindsLast(bad, ".", 3);
  }
}
