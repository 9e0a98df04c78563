/**
 * Request validators and the user view of the backend's auth endpoints.
 * Password lengths are Go's len: the number of bytes of the UTF-8 encoding.
 */
module BackendAuthDto {
  import opened Wrappers
  import opened BackendValidation

  datatype LoginRequest = LoginRequest(username: string, password: string)

  datatype ChangePasswordRequest = ChangePasswordRequest(currentPassword: string, newPassword: string, confirmPassword: string)

  datatype RegisterRequest = RegisterRequest(
    username: string, email: string, password: string, fullName: string, nimNip: string, role: string)

  /** The number of bytes UTF-8 takes for one character. */
  function Utf8Width(c: char): (n: nat)
    ensures 1 <= n <= 4
    ensures n == 1 <==> c as int < 0x80
  {
    if c as int < 0x80 then 1 else if c as int < 0x800 then 2 else if c as int < 0x1_0000 then 3 else 4
  }

  /** Go's len on a string: the length of its UTF-8 encoding in bytes. */
  function Utf8Length(s: string): (n: nat)
    ensures |s| <= n <= 4 * |s|
    ensures n == 0 <==> s == ""
  {
    if s == [] then 0 else Utf8Width(s[0]) + Utf8Length(s[1..])
  }

  /** An ASCII string takes one byte per character. */
  lemma {:induction false} AsciiUtf8Length(s: string)
    requires forall i :: 0 <= i < |s| ==> s[i] as int < 0x80
    ensures Utf8Length(s) == |s|
  {
    if s != [] {
      assert forall i :: 0 <= i < |s| - 1 ==> s[1..][i] == s[i + 1];
      AsciiUtf8Length(s[1..]);
    }
  }

  /** A password of seven characters, one of them two bytes long, is long enough for Go. */
  lemma {:induction false} PasswordLengthInBytes()
    ensures var pw := "p\U{E4}ss123";
      |pw| == 7 && Utf8Length(pw) == 8 &&
      ValidateRegister(RegisterRequest("budi", "budi@kampus.ac.id", pw, "Budi", "", "")) == [] &&
      ValidateChangePassword(ChangePasswordRequest("old", pw, pw)) == []
  {
    var pw := "p\U{E4}ss123";
    assert pw[1..] == "\U{E4}ss123" && pw[2..] == "ss123";
    assert Utf8Length("ss123") == 5;
    assert Utf8Width('\U{E4}') == 2;
  }

  /** LoginRequest.Validate */
  function ValidateLogin(r: LoginRequest): (es: seq<FieldError>)
    ensures es == [] <==> r.username != "" && r.password != ""
    ensures Reports(es, UsernameField) <==> r.username == ""
    ensures Reports(es, PasswordField) <==> r.password == ""
  {
    var a := Check(r.username == "", UsernameField, "Username is required");
    var b := Check(r.password == "", PasswordField, "Password is required");
    ReportsCheck(r.username == "", UsernameField, "Username is required");
    ReportsCheck(r.password == "", PasswordField, "Password is required");
    ReportsConcat(a, b);
    a + b
  }

  /**
   * ChangePasswordRequest.Validate: the new password must have at least 8
   * bytes and match the confirmation; an empty one is reported twice.
   */
  function ValidateChangePassword(r: ChangePasswordRequest): (es: seq<FieldError>)
    ensures es == [] <==> r.currentPassword != "" && Utf8Length(r.newPassword) >= 8 && r.newPassword == r.confirmPassword
    ensures Reports(es, CurrentPasswordField) <==> r.currentPassword == ""
    ensures Reports(es, NewPasswordField) <==> Utf8Length(r.newPassword) < 8
    ensures Reports(es, ConfirmPasswordField) <==> r.newPassword != r.confirmPassword
  {
    var short := Utf8Length(r.newPassword) < 8;
    var a := Check(r.currentPassword == "", CurrentPasswordField, "Current password is required");
    var b := Check(r.newPassword == "", NewPasswordField, "New password is required");
    var c := Check(short, NewPasswordField, "New password must be at least 8 characters");
    var d := Check(r.newPassword != r.confirmPassword, ConfirmPasswordField, "Passwords do not match");
    ReportsCheck(r.currentPassword == "", CurrentPasswordField, "Current password is required");
    ReportsCheck(r.newPassword == "", NewPasswordField, "New password is required");
    ReportsCheck(short, NewPasswordField, "New password must be at least 8 characters");
    ReportsCheck(r.newPassword != r.confirmPassword, ConfirmPasswordField, "Passwords do not match");
    ReportsConcat(a, b);
    ReportsConcat(a + b, c);
    ReportsConcat(a + b + c, d);
    a + b + c + d
  }

  /** An empty new password is reported twice: as missing and as too short. */
  lemma {:induction false} NewPasswordErrorCount(r: ChangePasswordRequest)
    ensures Count(ValidateChangePassword(r), NewPasswordField) ==
      (if r.newPassword == "" then 2 else if Utf8Length(r.newPassword) < 8 then 1 else 0)
  {
    var a := Check(r.currentPassword == "", CurrentPasswordField, "Current password is required");
    var b := Check(r.newPassword == "", NewPasswordField, "New password is required");
    var c := Check(Utf8Length(r.newPassword) < 8, NewPasswordField, "New password must be at least 8 characters");
    var d := Check(r.newPassword != r.confirmPassword, ConfirmPasswordField, "Passwords do not match");
    CountCheck(r.currentPassword == "", CurrentPasswordField, "Current password is required", NewPasswordField);
    CountCheck(r.newPassword == "", NewPasswordField, "New password is required", NewPasswordField);
    CountCheck(Utf8Length(r.newPassword) < 8, NewPasswordField, "New password must be at least 8 characters", NewPasswordField);
    CountCheck(r.newPassword != r.confirmPassword, ConfirmPasswordField, "Passwords do not match", NewPasswordField);
    CountConcat(a, b, NewPasswordField);
    CountConcat(a + b, c, NewPasswordField);
    CountConcat(a + b + c, d, NewPasswordField);
  }

  /** RegisterRequest.Validate: nim_nip and role are not checked. */
  function ValidateRegister(r: RegisterRequest): (es: seq<FieldError>)
    ensures es == [] <==> r.username != "" && r.email != "" && Utf8Length(r.password) >= 8 && r.fullName != ""
    ensures Reports(es, UsernameField) <==> r.username == ""
    ensures Reports(es, EmailField) <==> r.email == ""
    ensures Reports(es, PasswordField) <==> Utf8Length(r.password) < 8
    ensures Reports(es, FullNameField) <==> r.fullName == ""
  {
    var short := Utf8Length(r.password) < 8;
    var a := Check(r.username == "", UsernameField, "Username is required");
    var b := Check(r.email == "", EmailField, "Email is required");
    var c := Check(r.password == "", PasswordField, "Password is required");
    var d := Check(short, PasswordField, "Password must be at least 8 characters");
    var e := Check(r.fullName == "", FullNameField, "Full name is required");
    ReportsCheck(r.username == "", UsernameField, "Username is required");
    ReportsCheck(r.email == "", EmailField, "Email is required");
    ReportsCheck(r.password == "", PasswordField, "Password is required");
    ReportsCheck(short, PasswordField, "Password must be at least 8 characters");
    ReportsCheck(r.fullName == "", FullNameField, "Full name is required");
    ReportsConcat5(a, b, c, d, e);
    a + b + c + d + e
  }

  /** An empty password is reported twice: as missing and as too short. */
  lemma {:induction false} RegisterPasswordErrorCount(r: RegisterRequest)
    ensures Count(ValidateRegister(r), PasswordField) ==
      (if r.password == "" then 2 else if Utf8Length(r.password) < 8 then 1 else 0)
  {
    var a := Check(r.username == "", UsernameField, "Username is required");
    var b := Check(r.email == "", EmailField, "Email is required");
    var c := Check(r.password == "", PasswordField, "Password is required");
    var d := Check(Utf8Length(r.password) < 8, PasswordField, "Password must be at least 8 characters");
    var e := Check(r.fullName == "", FullNameField, "Full name is required");
    CountCheck(r.username == "", UsernameField, "Username is required", PasswordField);
    CountCheck(r.email == "", EmailField, "Email is required", PasswordField);
    CountCheck(r.password == "", PasswordField, "Password is required", PasswordField);
    CountCheck(Utf8Length(r.password) < 8, PasswordField, "Password must be at least 8 characters", PasswordField);
    CountCheck(r.fullName == "", FullNameField, "Full name is required", PasswordField);
    CountConcat(a, b, PasswordField);
    CountConcat(a + b, c, PasswordField);
    CountConcat(a + b + c, d, PasswordField);
    CountConcat(a + b + c + d, e, PasswordField);
  }

  /** A user row joined with its role name. */
  datatype UserWithRole = UserWithRole(
    id: nat, username: string, email: string, fullName: string,
    nimNip: Option<string>, roleName: string, avatarUrl: Option<string>)

  /** The JSON view of a user; None fields are omitted. */
  datatype UserResponse = UserResponse(
    id: nat, username: string, email: string, fullName: string,
    nimNip: Option<string>, role: string, avatarUrl: Option<string>)

  /** ToUserResponse: nim_nip and avatar_url appear only when present. */
  function ToUserResponse(u: UserWithRole): (r: UserResponse)
    ensures r.nimNip.Some? <==> u.nimNip.Some?
    ensures r.avatarUrl.Some? <==> u.avatarUrl.Some?
    ensures r.nimNip.Some? ==> r.nimNip.value == u.nimNip.value
    ensures r.avatarUrl.Some? ==> r.avatarUrl.value == u.avatarUrl.value
    ensures r.id == u.id && r.username == u.username && r.email == u.email && r.role == u.roleName
  {
    UserResponse(u.id, u.username, u.email, u.fullName, u.nimNip, u.roleName, u.avatarUrl)
  }
}
