/** Sessions and identities (`AuthManager`): the login and registration check
    chains, the session's current user, and the sign-in and sign-up forms. */
module Auth {
  import opened Wrappers
  import opened Seqs
  import opened Records
  import opened Storage

  // ---------------------------------------------------------------- login

  datatype LoginError = UserNotFound | InvalidPassword | RoleMismatch | NotVerified

  function LoginMessage(e: LoginError): string {
    match e
    case UserNotFound => "User not found"
    case InvalidPassword => "Invalid password"
    case RoleMismatch => "Role mismatch"
    case NotVerified => "NGO account not verified by admin"
  }

  datatype LoginResult = LoginOk(user: User) | LoginFailed(error: LoginError)

  /** The checks of `login`, in their order: the email must belong to a user,
      the password must match exactly, the role must match, and an NGO must be verified. */
  function CheckLogin(users: seq<User>, email: string, password: string, role: Role): (r: LoginResult)
    ensures r == LoginFailed(UserNotFound) <==> forall i :: 0 <= i < |users| ==> users[i].data.email != email
    ensures r == LoginFailed(InvalidPassword) <==>
      FindUserByEmail(users, email).Some? && FindUserByEmail(users, email).value.data.password != password
    ensures r == LoginFailed(RoleMismatch) <==>
      FindUserByEmail(users, email).Some? && FindUserByEmail(users, email).value.data.password == password
      && FindUserByEmail(users, email).value.data.role != role
    ensures r == LoginFailed(NotVerified) <==>
      FindUserByEmail(users, email).Some? && FindUserByEmail(users, email).value.data.password == password
      && role == Ngo && FindUserByEmail(users, email).value.data.role == Ngo && !FindUserByEmail(users, email).value.data.verified
    ensures r.LoginOk? ==>
      (r.user in users && r.user.data.email == email && r.user.data.password == password
       && r.user.data.role == role && (role == Ngo ==> r.user.data.verified))
  {
    match FindUserByEmail(users, email)
    case None => LoginFailed(UserNotFound)
    case Some(user) =>
      if user.data.password != password then LoginFailed(InvalidPassword)
      else if user.data.role != role then LoginFailed(RoleMismatch)
      else if user.data.role == Ngo && !user.data.verified then LoginFailed(NotVerified)
      else LoginOk(user)
  }

  /** User `i` is the first with that email, has that password and role, and is
      verified if an NGO. */
  ghost predicate LoginWitness(users: seq<User>, email: string, password: string, role: Role, i: int) {
    && 0 <= i < |users| && users[i].data.email == email
    && (forall j :: 0 <= j < i ==> users[j].data.email != email)
    && users[i].data.password == password && users[i].data.role == role
    && (role == Ngo ==> users[i].data.verified)
  }

  /** Login succeeds exactly when the first user with that email has that password
      and role, and is verified if an NGO. */
  lemma LoginSucceedsIff(users: seq<User>, email: string, password: string, role: Role)
    ensures CheckLogin(users, email, password, role).LoginOk? <==>
      exists i :: LoginWitness(users, email, password, role, i)
  {
    if CheckLogin(users, email, password, role).LoginOk? {
      var k := LoginOkWitness(users, email, password, role);
    }
    if exists i :: LoginWitness(users, email, password, role, i) {
      var i :| LoginWitness(users, email, password, role, i);
      WitnessLogsIn(users, email, password, role, i);
    }
  }

  lemma LoginOkWitness(users: seq<User>, email: string, password: string, role: Role) returns (k: int)
    requires CheckLogin(users, email, password, role).LoginOk?
    ensures LoginWitness(users, email, password, role, k)
  {
    k := FirstIndex(users, HasEmail(email));
    FindIsFirst(users, HasEmail(email), k);
    assert HasEmail(email)(users[k]);
  }

  lemma WitnessLogsIn(users: seq<User>, email: string, password: string, role: Role, i: int)
    requires LoginWitness(users, email, password, role, i)
    ensures CheckLogin(users, email, password, role) == LoginOk(users[i])
  {
    FindIsFirst(users, HasEmail(email), i);
  }

  // ---------------------------------------------------------------- register

  /** The fields `register` reads; `organization` holds the three organisation fields. */
  datatype RegisterInput = RegisterInput(
    name: string,
    email: string,
    password: string,
    role: Role,
    organization: Organization)

  datatype RegisterError = EmailTaken | PasswordTooShort

  function RegisterMessage(e: RegisterError): string {
    match e
    case EmailTaken => "Email already registered"
    case PasswordTooShort => "Password must be at least 6 characters"
  }

  const MinPasswordLength: nat := 6

  /** The checks of `register`, in their order: the email must be new, then the password long enough. */
  function RegisterCheck(users: seq<User>, input: RegisterInput): (r: Option<RegisterError>)
    ensures r == Some(EmailTaken) <==> exists i :: 0 <= i < |users| && users[i].data.email == input.email
    ensures r == Some(PasswordTooShort) <==>
      (forall i :: 0 <= i < |users| ==> users[i].data.email != input.email) && |input.password| < MinPasswordLength
    ensures r.None? <==>
      (forall i :: 0 <= i < |users| ==> users[i].data.email != input.email) && |input.password| >= MinPasswordLength
  {
    if FindUserByEmail(users, input.email).Some? then Some(EmailTaken)
    else if |input.password| < MinPasswordLength then Some(PasswordTooShort)
    else None
  }

  /** The record `register` hands to `addUser`: donors and admins start verified,
      NGOs do not and are the only ones to carry organisation fields. */
  function NewUserData(input: RegisterInput): (d: UserData)
    ensures d.name == input.name && d.email == input.email && d.password == input.password && d.role == input.role
    ensures d.verified <==> (input.role == Donor || input.role == Admin)
    ensures d.organization.Some? <==> input.role == Ngo
    ensures d.organization.Some? ==> d.organization.value == input.organization
  {
    UserData(input.name, input.email, input.password, input.role,
             input.role == Donor || input.role == Admin,
             if input.role == Ngo then Some(input.organization) else None)
  }

  datatype RegisterResult = Registered(user: User) | RegisterFailed(error: RegisterError)

  /** The user `register` would create, appended by `addUser` at time `now`. */
  function NewUser(users: seq<User>, input: RegisterInput, now: nat): User {
    User(NextUserId(users), NewUserData(input), now)
  }

  /** A donor or admin who has just registered can log in with the same credentials. */
  lemma RegisteredCanLogIn(users: seq<User>, input: RegisterInput, now: nat)
    requires RegisterCheck(users, input).None?
    requires input.role != Ngo
    ensures CheckLogin(users + [NewUser(users, input, now)], input.email, input.password, input.role)
         == LoginOk(NewUser(users, input, now))
  {
    FindAppend(users, NewUser(users, input, now), HasEmail(input.email));
  }

  /** A newly registered NGO is refused as unverified. */
  lemma RegisteredNgoNeedsVerification(users: seq<User>, input: RegisterInput, now: nat)
    requires RegisterCheck(users, input).None?
    requires input.role == Ngo
    ensures CheckLogin(users + [NewUser(users, input, now)], input.email, input.password, Ngo) == LoginFailed(NotVerified)
  {
    FindAppend(users, NewUser(users, input, now), HasEmail(input.email));
  }

  /** Setting `verified` leaves every email in place, so the same user is found. */
  lemma VerifiedPatchKeepsLookup(users: seq<User>, id: int, b: bool, email: string)
    ensures FirstIndex(PatchUsers(users, id, SetVerified(b)), HasEmail(email)) == FirstIndex(users, HasEmail(email))
  {
    var patched := PatchUsers(users, id, SetVerified(b));
    FirstIndexAgrees(patched, users, HasEmail(email));
  }

  /** Once an admin sets `verified` on an NGO whose email and password match, it can log in. */
  lemma VerifyEnablesLogin(users: seq<User>, id: int, email: string, password: string)
    requires FindUserByEmail(users, email).Some?
    requires var u := FindUserByEmail(users, email).value;
      u.id == id && u.data.role == Ngo && u.data.password == password
    ensures CheckLogin(PatchUsers(users, id, SetVerified(true)), email, password, Ngo)
         == LoginOk(FindUserByEmail(users, email).value.Patched(SetVerified(true)))
  {
    VerifiedPatchKeepsLookup(users, id, true, email);
  }

  /** Once an admin clears `verified` on an NGO, its login is refused as unverified. */
  lemma RevokeDisablesLogin(users: seq<User>, id: int, email: string, password: string)
    requires FindUserByEmail(users, email).Some?
    requires var u := FindUserByEmail(users, email).value;
      u.id == id && u.data.role == Ngo && u.data.password == password
    ensures CheckLogin(PatchUsers(users, id, SetVerified(false)), email, password, Ngo) == LoginFailed(NotVerified)
  {
    VerifiedPatchKeepsLookup(users, id, false, email);
  }

  // ---------------------------------------------------------------- session

  class AuthManager {
    /** The signed-in user, a copy of the record taken at login. */
    var currentUser: Option<User>
    const store: StorageManager

    /** `initializeAuth`: the session restores the user saved by an earlier login, if any. */
    constructor(store: StorageManager, session: Option<User>)
      ensures this.store == store && currentUser == session
    {
      this.store := store;
      currentUser := session;
    }

    /** `login`: on success the session holds the stored user; a failure leaves it as it was. */
    method Login(email: string, password: string, role: Role) returns (r: LoginResult)
      modifies this
      ensures r == CheckLogin(store.users, email, password, role)
      ensures r.LoginOk? ==> currentUser == Some(r.user) && HasRole(role)
      ensures r.LoginFailed? ==> currentUser == old(currentUser)
    {
      var found := FindUserByEmail(store.users, email);
      if found.None? {
        return LoginFailed(UserNotFound);
      }
      var user := found.value;
      if user.data.password != password {
        return LoginFailed(InvalidPassword);
      }
      if user.data.role != role {
        return LoginFailed(RoleMismatch);
      }
      if user.data.role == Ngo && !user.data.verified {
        return LoginFailed(NotVerified);
      }
      currentUser := Some(user);
      r := LoginOk(user);
    }

    /** `register`: the email check, then the password check, then exactly one
        `addUser`; a failure adds nothing. */
    method Register(input: RegisterInput, now: nat) returns (r: RegisterResult)
      requires store.Valid() && store.clock <= now
      modifies store
      ensures store.Valid()
      ensures r.RegisterFailed? <==> RegisterCheck(old(store.users), input).Some?
      ensures r.RegisterFailed? ==> r.error == RegisterCheck(old(store.users), input).value && unchanged(store)
      ensures r.Registered? ==>
        (r.user == NewUser(old(store.users), input, now)
         && store.users == old(store.users) + [r.user]
         && store.donations == old(store.donations) && store.donationIdCounter == old(store.donationIdCounter))
    {
      if FindUserByEmail(store.users, input.email).Some? {
        return RegisterFailed(EmailTaken);
      }
      if |input.password| < MinPasswordLength {
        return RegisterFailed(PasswordTooShort);
      }
      var created := store.AddUser(NewUserData(input), now);
      r := Registered(created);
    }

    /** `logout`: when the user confirms, the session ends. */
    method Logout(confirmed: bool)
      modifies this
      ensures confirmed ==> currentUser == None && !IsAuthenticated()
      ensures !confirmed ==> currentUser == old(currentUser)
    {
      if confirmed {
        currentUser := None;
      }
    }

    /** `isAuthenticated`: someone is signed in, that is, the session holds some role. */
    predicate IsAuthenticated()
      reads this
      ensures IsAuthenticated() <==> exists role :: HasRole(role)
    {
      assert currentUser.Some? ==> HasRole(currentUser.value.data.role);
      currentUser.Some?
    }

    /** `hasRole`: someone is signed in and has that role. */
    predicate HasRole(role: Role)
      reads this
      ensures HasRole(role) <==> currentUser.Some? && currentUser.value.data.role == role
    {
      currentUser.Some? && currentUser.value.data.role == role
    }

    /** A role holds exactly when someone is signed in and that is their role. */
    lemma HasRoleIff(role: Role)
      ensures HasRole(role) <==> IsAuthenticated() && currentUser.value.data.role == role
    {
    }

    /** `protectRoute(required)`: whether the page may show; `None` is the default `null`. */
    function ProtectRoute(required: Option<Role>): (ok: bool)
      reads this
      ensures !IsAuthenticated() ==> !ok
      ensures IsAuthenticated() && required.None? ==> ok
      ensures required.Some? ==> (ok <==> currentUser.Some? && currentUser.value.data.role == required.value)
    {
      if !IsAuthenticated() then false
      else if required.Some? && !HasRole(required.value) then false
      else true
    }
  }

  // ---------------------------------------------------------------- forms

  /** The sign-up form's fields; `role` is None while the role select is empty. */
  datatype RegistrationForm = RegistrationForm(
    name: string,
    email: string,
    password: string,
    confirmPassword: string,
    role: Option<Role>,
    organizationName: string,
    organizationAddress: string,
    organizationPhone: string)

  datatype FormError = MissingRequired | PasswordsDiffer | MissingNgoFields

  function FormMessage(e: FormError): string {
    match e
    case MissingRequired => "Please fill in all required fields"
    case PasswordsDiffer => "Passwords do not match"
    case MissingNgoFields => "Please fill in all NGO fields"
  }

  predicate RequiredFilled(f: RegistrationForm) {
    f.name != "" && f.email != "" && f.password != "" && f.confirmPassword != "" && f.role.Some?
  }

  predicate OrganizationFilled(f: RegistrationForm) {
    f.organizationName != "" && f.organizationAddress != "" && f.organizationPhone != ""
  }

  /** The sign-up form's checks before `register` is called, in their order. */
  function CheckRegistrationForm(f: RegistrationForm): (r: Option<FormError>)
    ensures r == Some(MissingRequired) <==> !RequiredFilled(f)
    ensures r == Some(PasswordsDiffer) <==> RequiredFilled(f) && f.password != f.confirmPassword
    ensures r == Some(MissingNgoFields) <==>
      RequiredFilled(f) && f.password == f.confirmPassword && f.role == Some(Ngo) && !OrganizationFilled(f)
    ensures r.None? <==>
      RequiredFilled(f) && f.password == f.confirmPassword && (f.role == Some(Ngo) ==> OrganizationFilled(f))
  {
    if f.name == "" || f.email == "" || f.password == "" || f.confirmPassword == "" || f.role.None? then Some(MissingRequired)
    else if f.password != f.confirmPassword then Some(PasswordsDiffer)
    else if f.role == Some(Ngo) && (f.organizationName == "" || f.organizationAddress == "" || f.organizationPhone == "") then
      Some(MissingNgoFields)
    else None
  }

  /** The `userData` the form passes to `register`. */
  function FormInput(f: RegistrationForm): (input: RegisterInput)
    requires f.role.Some?
    ensures input.name == f.name && input.role == f.role.value && input.email == f.email && input.password == f.password
    ensures input.organization == Organization(f.organizationName, f.organizationAddress, f.organizationPhone)
  {
    RegisterInput(f.name, f.email, f.password, f.role.value,
                  Organization(f.organizationName, f.organizationAddress, f.organizationPhone))
  }

  datatype SignUpOutcome = FormRejected(formError: FormError) | SignUpDone(result: RegisterResult)

  /** The sign-up form's submit handler: a form error stops before `register`;
      `error` is the text put in the error element, None on success. */
  method SubmitRegistration(auth: AuthManager, f: RegistrationForm, now: nat) returns (out: SignUpOutcome, error: Option<string>)
    requires auth.store.Valid() && auth.store.clock <= now
    modifies auth.store
    ensures auth.store.Valid()
    ensures out.FormRejected? <==> CheckRegistrationForm(f).Some?
    ensures out.FormRejected? ==> out.formError == CheckRegistrationForm(f).value && unchanged(auth.store)
    ensures out.SignUpDone? ==>
      (f.password == f.confirmPassword && f.role.Some?
       && (out.result.Registered? <==> RegisterCheck(old(auth.store.users), FormInput(f)).None?))
    ensures out.SignUpDone? && out.result.Registered? ==>
      auth.store.users == old(auth.store.users) + [NewUser(old(auth.store.users), FormInput(f), now)]
    ensures out.SignUpDone? && out.result.RegisterFailed? ==> unchanged(auth.store)
    ensures out.FormRejected? ==> error == Some(FormMessage(out.formError))
    ensures out.SignUpDone? && out.result.RegisterFailed? ==> error == Some(RegisterMessage(out.result.error))
    ensures error.None? <==> out.SignUpDone? && out.result.Registered?
  {
    var formError := CheckRegistrationForm(f);
    if formError.Some? {
      return FormRejected(formError.value), Some(FormMessage(formError.value));
    }
    var result := auth.Register(FormInput(f), now);
    out := SignUpDone(result);
    error := if result.RegisterFailed? then Some(RegisterMessage(result.error)) else None;
  }

  /** The sign-in form's submit handler: an empty field stops before `login`;
      the message shown, or None when the login went through. */
  method SubmitLogin(auth: AuthManager, email: string, password: string, role: Option<Role>) returns (message: Option<string>)
    modifies auth
    ensures email == "" || password == "" || role.None? ==>
      message == Some("Please fill in all fields") && auth.currentUser == old(auth.currentUser)
    ensures email != "" && password != "" && role.Some? ==>
      var r := CheckLogin(auth.store.users, email, password, role.value);
      && (message.None? <==> r.LoginOk?)
      && (r.LoginFailed? ==> message == Some(LoginMessage(r.error)) && auth.currentUser == old(auth.currentUser))
      && (r.LoginOk? ==> auth.currentUser == Some(r.user))
  {
    if email == "" || password == "" || role.None? {
      return Some("Please fill in all fields");
    }
    var r := auth.Login(email, password, role.value);
    if r.LoginOk? {
      message := None;
    } else {
      message := Some(LoginMessage(r.error));
    }
  }
}
