/** The user schema: required name, email (lower-cased, unique) and
    password of at least six UTF-16 code units; a pre-save hook that hashes the
    password only when it was modified; and `comparePassword`. Hashing and
    comparison are the parameters `hash` and `compare` (bcrypt is not part
    of this model). */
module UserModel {
  import opened JsString

  const MinPasswordLength: nat := 6

  /** Every validator of the schema holds for these field values. */
  predicate ValidSignup(name: string, email: string, password: string) {
    name != "" && email != "" && Utf16Length(password) >= MinPasswordLength
  }

  /** The paths whose validators fail, in schema order: `required` on all
      three, `minlength` on the password, which compares `value.length`. */
  function SignupErrors(name: string, email: string, password: string): (paths: seq<string>)
    ensures paths == [] <==> ValidSignup(name, email, password)
    ensures "password" in paths <==> Utf16Length(password) < MinPasswordLength
    ensures "name" in paths <==> name == ""
    ensures "email" in paths <==> email == ""
  {
    (if name == "" then ["name"] else [])
    + (if email == "" then ["email"] else [])
    + (if Utf16Length(password) < MinPasswordLength then ["password"] else [])
  }

  /** Three emoji are six code units, so they pass `minlength: 6`. */
  lemma AstralPasswordAccepted()
    ensures ValidSignup("Ann", "ann@x.com", "\U{1F600}\U{1F600}\U{1F600}")
  {
    Utf16LengthConcat("\U{1F600}", "\U{1F600}\U{1F600}");
    Utf16LengthConcat("\U{1F600}", "\U{1F600}");
  }

  /** Five characters of plain text are too short. */
  lemma ShortPasswordRefused()
    ensures SignupErrors("Ann", "ann@x.com", "abcde") == ["password"]
  {
    Utf16LengthOfBmp("abcde");
  }

  /** One user document. `passwordModified` is the mapper's
      `isModified('password')`. */
  class UserDocument {
    var name: string
    var email: string
    var password: string
    var passwordModified: bool

    /** A new document: every path it is given counts as modified. */
    constructor (name: string, email: string, password: string)
      ensures this.name == name && this.email == ToLower(email) && this.password == password
      ensures passwordModified
    {
      this.name := name;
      this.email := ToLower(email);
      this.password := password;
      passwordModified := true;
    }

    /** The pre('save') hook: hash the password only if it was modified. */
    method HashBeforeSave(hash: string -> string)
      modifies this
      ensures password == if old(passwordModified) then hash(old(password)) else old(password)
      ensures name == old(name) && email == old(email) && passwordModified == old(passwordModified)
    {
      if !passwordModified {
        return;
      }
      password := hash(password);
    }

    /** `save()`: the hook runs, then the document is written and its
        modified flags are cleared. */
    method Save(hash: string -> string)
      modifies this
      ensures password == if old(passwordModified) then hash(old(password)) else old(password)
      ensures name == old(name) && email == old(email) && !passwordModified
    {
      HashBeforeSave(hash);
      passwordModified := false;
    }

    /** `comparePassword(entered)`: the comparison's verdict on the stored
        hash. As a function it reads the document and changes nothing. */
    function ComparePassword(entered: string, compare: (string, string) -> bool): (ok: bool)
      reads this
      ensures ok == compare(entered, password)
    {
      compare(entered, password)
    }
  }

  /** Saving twice hashes once: the second save finds the password
      unmodified and leaves the stored hash alone. */
  method SaveTwice(doc: UserDocument, hash: string -> string)
    requires doc.passwordModified
    modifies doc
    ensures doc.password == hash(old(doc.password)) && !doc.passwordModified
  {
    doc.Save(hash);
    doc.Save(hash);
  }

  /** With a comparison that accepts exactly the hash of the candidate, a
      saved password is recognised by `comparePassword`. */
  method SavedPasswordVerifies(doc: UserDocument, hash: string -> string, compare: (string, string) -> bool, attempt: string)
    returns (ok: bool)
    requires doc.passwordModified
    requires forall p, h :: compare(p, h) == (hash(p) == h)
    modifies doc
    ensures ok == (hash(attempt) == hash(old(doc.password)))
  {
    doc.Save(hash);
    ok := doc.ComparePassword(attempt, compare);
  }
}
