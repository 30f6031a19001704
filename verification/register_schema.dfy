/** The registration form ruleset: a body is accepted when the username is
    non-empty, the email is well formed and the password has at least eight
    characters. Parsing reports every failing field, in the order the fields
    are declared (username, email, password). */
module RegisterSchema {

  const UsernameMinLength: nat := 1
  const PasswordMinLength: nat := 8

  /** The three fields of a registration request body. */
  datatype RegisterBody = RegisterBody(username: string, email: string, password: string)

  /** One failing rule of the schema, with the message the schema attaches to it. */
  datatype Issue = UsernameRequired | InvalidEmail | PasswordTooShort
  {
    function Message(): string {
      match this
      case UsernameRequired => "Username is Required"
      case InvalidEmail => "Invalid email"
      case PasswordTooShort => "Password Should have atleast 8  Character "
    }

    /** Position of the field the issue is about, in declaration order. */
    function Field(): nat {
      match this
      case UsernameRequired => 0
      case InvalidEmail => 1
      case PasswordTooShort => 2
    }
  }

  /** All issues of `body`, field by field; the empty sequence means the body
      parses. `isEmail` stands for the email-format check of the validation
      library, which this model leaves abstract. */
  function Validate(body: RegisterBody, isEmail: string -> bool): (issues: seq<Issue>)
    ensures UsernameRequired in issues <==> body.username == []
    ensures InvalidEmail in issues <==> !isEmail(body.email)
    ensures PasswordTooShort in issues <==> |body.password| < 8
    ensures issues == [] <==> |body.username| >= 1 && isEmail(body.email) && |body.password| >= 8
    ensures forall k :: 0 < k < |issues| ==> issues[k - 1].Field() < issues[k].Field()
  {
    (if |body.username| < UsernameMinLength then [UsernameRequired] else [])
    + (if isEmail(body.email) then [] else [InvalidEmail])
    + (if |body.password| < PasswordMinLength then [PasswordTooShort] else [])
  }

  /** The body passes the schema. */
  predicate IsValid(body: RegisterBody, isEmail: string -> bool) {
    Validate(body, isEmail) == []
  }

  /** The password bound is inclusive at eight characters: with an acceptable
      username and email, eight characters pass and seven are reported as
      too short, and nothing else is reported. */
  lemma PasswordBoundary(username: string, email: string, password: string, isEmail: string -> bool)
    requires |username| >= 1 && isEmail(email)
    requires |password| == 7 || |password| == 8
    ensures |password| == 8 ==> IsValid(RegisterBody(username, email, password), isEmail)
    ensures |password| == 7 ==> Validate(RegisterBody(username, email, password), isEmail) == [PasswordTooShort]
  {
  }

  /** Any single failing field makes the whole body invalid, whatever the
      other two fields hold. */
  lemma SingleFieldRejects(body: RegisterBody, isEmail: string -> bool)
    requires body.username == [] || !isEmail(body.email) || |body.password| < 8
    ensures !IsValid(body, isEmail)
    ensures |Validate(body, isEmail)| >= 1
  {
  }
}
