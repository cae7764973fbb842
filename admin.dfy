/**
 * Provisioning the first administrator (CreateAdmin): the checks on the
 * form, in order, and the user record handed to the database. The UUID,
 * the clock readings and the password hash are parameters.
 */
module Admin {
  import opened Wrappers
  import opened Errors
  import Connection

  /** A character the username pattern ^[0-9a-zA-Z_]+$ admits. */
  predicate UsernameChar(c: char)
  {
    ('0' <= c <= '9') || ('a' <= c <= 'z') || ('A' <= c <= 'Z') || c == '_'
  }

  /** The whole username matches ^[0-9a-zA-Z_]+$: at least one character, each admitted. */
  predicate ValidUsername(username: string)
  {
    |username| > 0 && forall i :: 0 <= i < |username| ==> UsernameChar(username[i])
  }

  /** The number of bytes of `c` in UTF-8. */
  function CharBytes(c: char): nat
  {
    if c as int < 0x80 then 1
    else if c as int < 0x800 then 2
    else if c as int < 0x1_0000 then 3
    else 4
  }

  /** Go's len on a string: its length in UTF-8 bytes. */
  function Utf8Length(s: string): nat
  {
    if s == [] then 0 else CharBytes(s[0]) + Utf8Length(s[1..])
  }

  const MIN_PASSWORD_BYTES: nat := 6

  /** The administrator fields of the form. */
  datatype Form = Form(username: string, email: string, password: string)

  /** The checks of CreateAdmin in order; the first that fails decides. */
  function Check(form: Form): Option<Rejection>
  {
    if !ValidUsername(form.username) then Some(UsernameInvalid)
    else if Utf8Length(form.password) < MIN_PASSWORD_BYTES then Some(PasswordTooShort)
    else if form.email == "" then Some(EmailMissing)
    else None
  }

  /** Each string is at least as long in bytes as in characters, and at most four times. */
  lemma {:induction false} Utf8LengthBounds(s: string)
    ensures |s| <= Utf8Length(s) <= 4 * |s|
  {
    if s != [] {
      Utf8LengthBounds(s[1..]);
    }
  }

  /** A string of ASCII characters has one byte per character. */
  lemma {:induction false} Utf8LengthAscii(s: string)
    requires forall i :: 0 <= i < |s| ==> s[i] as int < 0x80
    ensures Utf8Length(s) == |s|
  {
    if s != [] {
      Utf8LengthAscii(s[1..]);
    }
  }

  /**
   * The password rule counts bytes: six characters always suffice, one
   * character never does, and for ASCII passwords it is "at least six
   * characters".
   */
  lemma PasswordRule(password: string)
    ensures |password| >= MIN_PASSWORD_BYTES ==> Utf8Length(password) >= MIN_PASSWORD_BYTES
    ensures |password| <= 1 ==> Utf8Length(password) < MIN_PASSWORD_BYTES
    ensures (forall i :: 0 <= i < |password| ==> password[i] as int < 0x80) ==>
      (Utf8Length(password) >= MIN_PASSWORD_BYTES <==> |password| >= MIN_PASSWORD_BYTES)
  {
    Utf8LengthBounds(password);
    if forall i :: 0 <= i < |password| ==> password[i] as int < 0x80 {
      Utf8LengthAscii(password);
    }
  }

  /** Three two-byte characters pass the password check that five ASCII characters fail. */
  lemma {:induction false} PasswordCountsBytes()
    ensures Check(Form("admin_1", "a@b.com", "ééé")) == None
    ensures Check(Form("admin_1", "a@b.com", "abc12")) == Some(PasswordTooShort)
  {
    assert Utf8Length("ééé") == 6 by {
      assert "ééé"[1..] == "éé";
      assert "éé"[1..] == "é";
    }
    assert Utf8Length("abc12") == 5 by {
      Utf8LengthAscii("abc12");
    }
  }

  /** The example forms: a bad character, a short password, no email, and one accepted form. */
  lemma {:induction false} CheckExamples()
    ensures Check(Form("admin!", "a@b.com", "abcdef")) == Some(UsernameInvalid)
    ensures Check(Form("", "a@b.com", "abcdef")) == Some(UsernameInvalid)
    ensures Check(Form("admin_1", "", "abcdef")) == Some(EmailMissing)
    ensures Check(Form("admin_1", "a@b.com", "abcdef")) == None
  {
    assert !UsernameChar("admin!"[5]);
    assert Utf8Length("abcdef") == 6 by {
      Utf8LengthAscii("abcdef");
    }
  }

  datatype Role = RoleUnset | Administrator
  datatype Gender = GenderUnset | GenderUnknown
  datatype Status = StatusUnset | StatusOk

  /** The user record fields CreateAdmin touches; instants are nanoseconds since the epoch. */
  datatype User = User(
    uuid: string,
    createTime: int, updateTime: int, lastTime: int, sort: int,
    role: Role, username: string, password: string, email: string, phone: string,
    gender: Gender, sizeLimit: int, status: Status)

  /** The zero record `&User{}`. */
  const BLANK_USER: User := User("", 0, 0, 0, 0, RoleUnset, "", "", "", "", GenderUnset, 0, StatusUnset)

  /** The four readings of the clock CreateAdmin takes, in nanoseconds, in the order it takes them. */
  datatype Clock = Clock(create: int, update: int, last: int, sortNanos: int)

  /** The sort key UnixNano() / 1e6: milliseconds, with Go's division truncating toward zero. */
  function SortKey(nanos: int): int
  {
    if nanos >= 0 then nanos / 1_000_000 else -((-nanos) / 1_000_000)
  }

  /** The sort key is the instant in whole milliseconds, rounded toward zero. */
  lemma SortKeyMillis(nanos: int)
    ensures nanos >= 0 ==> SortKey(nanos) * 1_000_000 <= nanos < (SortKey(nanos) + 1) * 1_000_000
    ensures nanos < 0 ==> (SortKey(nanos) - 1) * 1_000_000 < nanos <= SortKey(nanos) * 1_000_000
  {
  }

  /** A later instant never gets a smaller sort key. */
  lemma SortKeyMonotone(a: int, b: int)
    requires a <= b
    ensures SortKey(a) <= SortKey(b)
  {
    SortKeyMillis(a);
    SortKeyMillis(b);
  }

  /**
   * CreateAdmin: open the connection, check the form, then fill in a fresh
   * user record field by field. The result is the record given to
   * db.Create, whose outcome the source ignores.
   */
  method CreateAdmin(params: Connection.Params, driver: Option<string>, form: Form,
                     uuid: string, clock: Clock, hash: string -> string)
    returns (r: Result<User, InstallError>)
    ensures Connection.Open(params, driver).Failure? ==> r == Failure(Connection.Open(params, driver).error)
    ensures Connection.Open(params, driver).Success? && Check(form).Some? ==> r == Failure(BadRequest(Check(form).value))
    ensures r.Success? <==> Connection.Open(params, driver).Success? && Check(form).None?
    ensures r.Success? ==>
      var user := r.value;
      && user.uuid == uuid
      && user.createTime == clock.create && user.updateTime == clock.update && user.lastTime == clock.last
      && user.sort == SortKey(clock.sortNanos)
      && user.role == Administrator
      && user.username == form.username && user.email == form.email
      && user.password == hash(form.password)
      && user.phone == ""
      && user.gender == GenderUnknown
      && user.sizeLimit == -1
      && user.status == StatusOk
    ensures r.Success? && (forall p :: hash(p) != p) ==> r.value.password != form.password
  {
    var session := Connection.Open(params, driver);
    if session.Failure? {
      return Failure(session.error);
    }
    if !ValidUsername(form.username) {
      return Failure(BadRequest(UsernameInvalid));
    }
    if Utf8Length(form.password) < MIN_PASSWORD_BYTES {
      return Failure(BadRequest(PasswordTooShort));
    }
    if form.email == "" {
      return Failure(BadRequest(EmailMissing));
    }
    var user := BLANK_USER;
    user := user.(uuid := uuid);
    user := user.(createTime := clock.create);
    user := user.(updateTime := clock.update);
    user := user.(lastTime := clock.last);
    user := user.(sort := SortKey(clock.sortNanos));
    user := user.(role := Administrator);
    user := user.(username := form.username);
    user := user.(password := hash(form.password));
    user := user.(email := form.email);
    user := user.(phone := "");
    user := user.(gender := GenderUnknown);
    user := user.(sizeLimit := -1);
    user := user.(status := StatusOk);
    r := Success(user);
  }
}
