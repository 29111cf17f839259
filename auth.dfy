/** The account endpoints: registration, which stores a verification code
    for the new address, verification of that code, and login. The `users`
    and `verification_codes` tables are sequences of rows in insertion
    order. Password hashing, password checking, token creation and the
    random draw of the code are parameters. */
module Auth {
  import opened Wrappers
  import Text
  import Seqs

  /** A row of `users` (its row id and creation time are not modelled). */
  datatype User = User(email: string, hashedPassword: string, isVerified: bool)

  /** A row of `verification_codes`. */
  datatype VerificationCode = VerificationCode(email: string, code: string, expiresAt: string)

  datatype Tables = Tables(users: seq<User>, codes: seq<VerificationCode>)

  /** An `HTTPException`: its status code and detail. */
  datatype HttpError = HttpError(status: nat, detail: string)

  datatype Token = Token(accessToken: string, tokenType: string)

  const TooShort := "Password must be at least 8 characters."
  const NoDigitOrSymbol := "Password must contain a number or special character."
  const AlreadyRegistered := "Email already registered"
  const Registered := "User registered. Check console for verification code."
  const InvalidCode := "Invalid code"
  const UserNotFound := "User not found"
  const Verified := "Email verified successfully."
  const BadCredentials := "Incorrect email or password"
  const NotVerified := "Email not verified"

  /** The punctuation of the password rule's character class. */
  const Symbols := "!@#$%^&*(),.?\":{}|<>"

  /** A character of the class `[0-9!@#$%^&*(),.?":{}|<>]`. */
  predicate IsDigitOrSymbol(c: char) {
    '0' <= c <= '9' || c in Symbols
  }

  // ---------------------------------------------------------------------
  // Password rule

  /** `validate_password_strength`: `None` when the password passes, else
      the exception it raises. The length is checked first. */
  function ValidatePasswordStrength(password: string): (r: Option<HttpError>)
    ensures r.None? <==> |password| >= 8 && exists i :: 0 <= i < |password| && IsDigitOrSymbol(password[i])
    ensures |password| < 8 ==> r == Some(HttpError(400, TooShort))
    ensures |password| >= 8 && (forall i :: 0 <= i < |password| ==> !IsDigitOrSymbol(password[i])) ==>
      r == Some(HttpError(400, NoDigitOrSymbol))
  {
    if |password| < 8 then Some(HttpError(400, TooShort))
    else if Seqs.FirstIndex(IsDigitOrSymbol, password).None? then Some(HttpError(400, NoDigitOrSymbol))
    else None
  }

  // ---------------------------------------------------------------------
  // Lookups

  function UserEmail(u: User): string { u.email }

  function HasEmail(email: string): User -> bool {
    (u: User) => u.email == email
  }

  function Matches(email: string, code: string): VerificationCode -> bool {
    (c: VerificationCode) => c.email == email && c.code == code
  }

  /** `db.query(User).filter(User.email == email).first()`, as a row index. */
  function FindUser(users: seq<User>, email: string): (r: Option<nat>)
    ensures r.None? <==> forall i :: 0 <= i < |users| ==> users[i].email != email
    ensures r.Some? ==> r.value < |users| && users[r.value].email == email
  {
    var found := Seqs.FirstIndex(HasEmail(email), users);
    assert found.None? ==> forall i :: 0 <= i < |users| ==> !HasEmail(email)(users[i]);
    found
  }

  /** The `email` column is unique. */
  ghost predicate ValidTables(t: Tables) {
    Seqs.DistinctKeys(UserEmail, t.users)
  }

  /** `s` without its `k`-th element. */
  function RemoveAt<T>(s: seq<T>, k: nat): (r: seq<T>)
    requires k < |s|
    ensures |r| == |s| - 1
    ensures forall i :: 0 <= i < k ==> r[i] == s[i]
    ensures forall i :: k <= i < |r| ==> r[i] == s[i + 1]
  {
    s[..k] + s[k + 1..]
  }

  // ---------------------------------------------------------------------
  // The endpoints on the tables

  /** `register`: the reply and the tables after it, given the password
      hash function and the number `random.randint(100000, 999999)` drew. */
  function RegisterOn(t: Tables, email: string, password: string, hash: string -> string, draw: nat, now: string)
    : (Result<string, HttpError>, Tables)
  {
    match ValidatePasswordStrength(password)
    case Some(e) => (Err(e), t)
    case None =>
      if FindUser(t.users, email).Some? then (Err(HttpError(400, AlreadyRegistered)), t)
      else (Ok(Registered), Tables(t.users + [User(email, hash(password), false)],
                                   t.codes + [VerificationCode(email, Text.NatToStr(draw), now)]))
  }

  /** `verify`: the reply and the tables after it. */
  function VerifyOn(t: Tables, email: string, code: string): (Result<string, HttpError>, Tables) {
    match Seqs.FirstIndex(Matches(email, code), t.codes)
    case None => (Err(HttpError(400, InvalidCode)), t)
    case Some(k) =>
      match FindUser(t.users, email)
      case None => (Err(HttpError(404, UserNotFound)), t)
      case Some(i) => (Ok(Verified), Tables(t.users[i := t.users[i].(isVerified := true)], RemoveAt(t.codes, k)))
  }

  /** `login`, given the password check and the token maker. */
  function LoginOn(t: Tables, email: string, password: string,
                   check: (string, string) -> bool, token: string -> string): Result<Token, HttpError>
  {
    match FindUser(t.users, email)
    case None => Err(HttpError(400, BadCredentials))
    case Some(i) =>
      var u := t.users[i];
      if !check(password, u.hashedPassword) then Err(HttpError(400, BadCredentials))
      else if !u.isVerified then Err(HttpError(400, NotVerified))
      else Ok(Token(token(u.email), "bearer"))
  }

  // ---------------------------------------------------------------------
  // Properties

  /** A number of six digits is written with six characters. */
  lemma CodeHasSixDigits(draw: nat)
    requires 100000 <= draw <= 999999
    ensures |Text.NatToStr(draw)| == 6
    ensures forall i :: 0 <= i < 6 ==> '0' <= Text.NatToStr(draw)[i] <= '9'
  {
    var n5 := draw;
    var n4 := n5 / 10;
    var n3 := n4 / 10;
    var n2 := n3 / 10;
    var n1 := n2 / 10;
    var n0 := n1 / 10;
    assert 1 <= n0 <= 9 && 10 <= n1 && 10 <= n2 && 10 <= n3 && 10 <= n4 && 10 <= n5;
    assert |Text.NatToStr(n0)| == 1;
    assert |Text.NatToStr(n1)| == 2;
    assert |Text.NatToStr(n2)| == 3;
    assert |Text.NatToStr(n3)| == 4;
    assert |Text.NatToStr(n4)| == 5;
  }

  /** The email column stays unique when an address not in the table is
      added. */
  lemma AddKeepsUnique(users: seq<User>, u: User)
    requires Seqs.DistinctKeys(UserEmail, users)
    requires forall i :: 0 <= i < |users| ==> users[i].email != u.email
    ensures Seqs.DistinctKeys(UserEmail, users + [u])
  {
    var after := users + [u];
    forall i, j | 0 <= i < j < |after| ensures UserEmail(after[i]) != UserEmail(after[j]) {
      if j < |users| {
        assert after[i] == users[i] && after[j] == users[j];
      } else {
        assert after[i] == users[i];
      }
    }
  }

  /** `register` validates the password before it looks at the table; an
      address already there is refused and nothing changes; otherwise the
      user is added unverified, with a six-digit code for the address, and
      the email column stays unique. */
  lemma RegisterSpec(t: Tables, email: string, password: string, hash: string -> string, draw: nat, now: string)
    requires ValidTables(t)
    requires 100000 <= draw <= 999999
    ensures var (r, after) := RegisterOn(t, email, password, hash, draw, now);
      && ValidTables(after)
      && (ValidatePasswordStrength(password).Some? ==> r == Err(ValidatePasswordStrength(password).value) && after == t)
      && (ValidatePasswordStrength(password).None? && (exists i :: 0 <= i < |t.users| && t.users[i].email == email) ==>
            r == Err(HttpError(400, AlreadyRegistered)) && after == t)
      && (r.Ok? <==> ValidatePasswordStrength(password).None? && forall i :: 0 <= i < |t.users| ==> t.users[i].email != email)
      && (r.Ok? ==>
            && after.users == t.users + [User(email, hash(password), false)]
            && |after.codes| == |t.codes| + 1 && after.codes[..|t.codes|] == t.codes
            && var c := after.codes[|t.codes|];
               c.email == email && |c.code| == 6 && forall i :: 0 <= i < 6 ==> '0' <= c.code[i] <= '9')
  {
    CodeHasSixDigits(draw);
    if ValidatePasswordStrength(password).None? && FindUser(t.users, email).None? {
      AddKeepsUnique(t.users, User(email, hash(password), false));
      var after := RegisterOn(t, email, password, hash, draw, now).1;
      assert after.codes[..|t.codes|] == t.codes;
    }
  }

  /** With the email column unique, the user found by address is the only
      one with it. */
  lemma FoundIsOnly(users: seq<User>, email: string, i: nat)
    requires Seqs.DistinctKeys(UserEmail, users)
    requires i < |users| && users[i].email == email
    ensures FindUser(users, email) == Some(i)
  {
  }

  /** An unknown address and a wrong password get the identical error; a
      right password on an unverified account gets "Email not verified";
      and a token is issued exactly to a verified user whose password
      checks, for that user's address. */
  lemma LoginSpec(t: Tables, email: string, password: string, check: (string, string) -> bool, token: string -> string)
    requires ValidTables(t)
    ensures var r := LoginOn(t, email, password, check, token);
      && ((forall i :: 0 <= i < |t.users| ==> t.users[i].email != email) ==> r == Err(HttpError(400, BadCredentials)))
      && (forall i :: 0 <= i < |t.users| && t.users[i].email == email ==>
            && (!check(password, t.users[i].hashedPassword) ==> r == Err(HttpError(400, BadCredentials)))
            && (check(password, t.users[i].hashedPassword) && !t.users[i].isVerified ==> r == Err(HttpError(400, NotVerified))))
      && (r.Ok? <==> exists i :: && 0 <= i < |t.users| && t.users[i].email == email && t.users[i].isVerified
                              && check(password, t.users[i].hashedPassword))
      && (r.Ok? ==> r.value == Token(token(email), "bearer"))
  {
    forall i | 0 <= i < |t.users| && t.users[i].email == email ensures FindUser(t.users, email) == Some(i) {
      FoundIsOnly(t.users, email, i);
    }
  }

  /** `verify` refuses a pair with no code record and leaves the tables as
      they were; a record for an address with no user gives 404 and also
      changes nothing; on success only the user with that address becomes
      verified, one record with that pair is deleted, and the email column
      stays unique. */
  lemma VerifySpec(t: Tables, email: string, code: string)
    requires ValidTables(t)
    ensures var (r, after) := VerifyOn(t, email, code);
      && ValidTables(after)
      && ((forall k :: 0 <= k < |t.codes| ==> !(t.codes[k].email == email && t.codes[k].code == code)) ==>
            r == Err(HttpError(400, InvalidCode)) && after == t)
      && ((exists k :: 0 <= k < |t.codes| && t.codes[k].email == email && t.codes[k].code == code)
           && (forall i :: 0 <= i < |t.users| ==> t.users[i].email != email) ==>
            r == Err(HttpError(404, UserNotFound)) && after == t)
      && (r.Ok? ==>
            && |after.users| == |t.users|
            && (forall i :: 0 <= i < |t.users| ==>
                  if t.users[i].email == email then after.users[i] == t.users[i].(isVerified := true)
                  else after.users[i] == t.users[i])
            && |after.codes| == |t.codes| - 1
            && exists k :: && 0 <= k < |t.codes| && t.codes[k].email == email && t.codes[k].code == code
                          && after.codes == t.codes[..k] + t.codes[k + 1..])
  {
    var found := Seqs.FirstIndex(Matches(email, code), t.codes);
    if found.None? {
      assert forall k :: 0 <= k < |t.codes| ==> !Matches(email, code)(t.codes[k]);
    } else {
      var k := found.value;
      assert Matches(email, code)(t.codes[k]);
      match FindUser(t.users, email)
      case None =>
      case Some(i) =>
        forall j | 0 <= j < |t.users| && t.users[j].email == email ensures j == i {
          FoundIsOnly(t.users, email, j);
        }
        var after := t.users[i := t.users[i].(isVerified := true)];
        forall a, b | 0 <= a < b < |after| ensures UserEmail(after[a]) != UserEmail(after[b]) {
          assert UserEmail(after[a]) == UserEmail(t.users[a]) && UserEmail(after[b]) == UserEmail(t.users[b]);
        }
    }
  }

  /** The whole sign-up: a new address with a strong password registers;
      login then says "Email not verified"; the code it was given verifies
      it; and login then issues the token, provided the password checks
      against its own hash. */
  lemma SignUpFlow(t: Tables, email: string, password: string, hash: string -> string, draw: nat, now: string,
                   check: (string, string) -> bool, token: string -> string)
    requires ValidTables(t)
    requires forall i :: 0 <= i < |t.users| ==> t.users[i].email != email
    requires ValidatePasswordStrength(password).None?
    requires check(password, hash(password))
    ensures var (registered, t1) := RegisterOn(t, email, password, hash, draw, now);
      var (verified, t2) := VerifyOn(t1, email, Text.NatToStr(draw));
      && registered == Ok(Registered)
      && LoginOn(t1, email, password, check, token) == Err(HttpError(400, NotVerified))
      && verified == Ok(Verified)
      && LoginOn(t2, email, password, check, token) == Ok(Token(token(email), "bearer"))
  {
    var t1 := RegisterOn(t, email, password, hash, draw, now).1;
    var n := |t.users|;
    AddKeepsUnique(t.users, User(email, hash(password), false));
    FoundIsOnly(t1.users, email, n);
    var k := |t.codes|;
    assert Matches(email, Text.NatToStr(draw))(t1.codes[k]);
    var t2 := VerifyOn(t1, email, Text.NatToStr(draw)).1;
    assert ValidTables(t2) by { VerifySpec(t1, email, Text.NatToStr(draw)); }
    assert t2.users[n] == User(email, hash(password), true);
    FoundIsOnly(t2.users, email, n);
  }

  // ---------------------------------------------------------------------
  // The service over the two tables

  class AuthService {
    var users: seq<User>
    var codes: seq<VerificationCode>

    function Contents(): Tables
      reads this
    {
      Tables(users, codes)
    }

    ghost predicate Valid()
      reads this
    {
      ValidTables(Contents())
    }

    /** The service over the tables as they are stored. */
    constructor (stored: Tables)
      requires ValidTables(stored)
      ensures Valid() && Contents() == stored
    {
      users := stored.users;
      codes := stored.codes;
    }

    /** `register`; `draw` is the number drawn for the code. */
    method Register(email: string, password: string, hash: string -> string, draw: nat, now: string)
      returns (r: Result<string, HttpError>)
      modifies this
      requires Valid() && 100000 <= draw <= 999999
      ensures Valid()
      ensures (r, Contents()) == RegisterOn(old(Contents()), email, password, hash, draw, now)
    {
      RegisterSpec(Contents(), email, password, hash, draw, now);
      var weak := ValidatePasswordStrength(password);
      if weak.Some? {
        return Err(weak.value);
      }
      var existing := FindUser(users, email);
      if existing.Some? {
        return Err(HttpError(400, AlreadyRegistered));
      }
      var hashed := hash(password);
      users := users + [User(email, hashed, false)];
      var code := Text.NatToStr(draw);
      codes := codes + [VerificationCode(email, code, now)];
      r := Ok(Registered);
    }

    /** `verify` */
    method Verify(email: string, code: string) returns (r: Result<string, HttpError>)
      modifies this
      requires Valid()
      ensures Valid()
      ensures (r, Contents()) == VerifyOn(old(Contents()), email, code)
    {
      VerifySpec(Contents(), email, code);
      var record := Seqs.FirstIndex(Matches(email, code), codes);
      if record.None? {
        return Err(HttpError(400, InvalidCode));
      }
      var user := FindUser(users, email);
      if user.None? {
        return Err(HttpError(404, UserNotFound));
      }
      var i := user.value;
      users := users[i := users[i].(isVerified := true)];
      codes := RemoveAt(codes, record.value);
      r := Ok(Verified);
    }

    /** `login`; it changes nothing. */
    method Login(email: string, password: string, check: (string, string) -> bool, token: string -> string)
      returns (r: Result<Token, HttpError>)
      requires Valid()
      ensures r == LoginOn(Contents(), email, password, check, token)
      ensures r.Ok? <==> exists i :: && 0 <= i < |users| && users[i].email == email && users[i].isVerified
                                    && check(password, users[i].hashedPassword)
    {
      LoginSpec(Contents(), email, password, check, token);
      var found := FindUser(users, email);
      if found.None? {
        return Err(HttpError(400, BadCredentials));
      }
      var u := users[found.value];
      if !check(password, u.hashedPassword) {
        return Err(HttpError(400, BadCredentials));
      }
      if !u.isVerified {
        return Err(HttpError(400, NotVerified));
      }
      r := Ok(Token(token(u.email), "bearer"));
    }
  }
}
