/** The session manager of src/context/AuthContext.js: the signed-in user,
    the startup `loading` flag, and the one `localStorage` slot ('userEmail')
    that remembers who was signed in across restarts. */
module AuthContext {
  import opened Wrappers
  import opened Records
  import Db

  const InvalidCredentials: string := "Invalid email or password"
  const LoginFailed: string := "Login failed. Please try again."
  const EmailTaken: string := "Email already exists"
  const SignupFailed: string := "Signup failed. Please try again."

  /** `if (storedEmail)`: an absent pointer and an empty string are both falsy. */
  function RememberedEmail(slot: Option<string>): (r: Option<string>)
    ensures r.Some? <==> slot.Some? && slot.value != ""
    ensures r.Some? ==> r == slot
  {
    if slot.Some? && slot.value != "" then slot else None
  }

  /** The record the store holds for an email, if any. */
  function Lookup(users: map<string, User>, email: string): (r: Option<User>)
    ensures r.Some? <==> email in users
    ensures r.Some? ==> r.value == users[email]
  {
    if email in users then Some(users[email]) else None
  }

  class Session {
    const db: Db.IndexedDBManager
    var user: Option<User>
    var loading: bool
    /** `localStorage.getItem('userEmail')`. */
    var remembered: Option<string>

    /** A fresh provider: no user yet, still loading. */
    constructor (db: Db.IndexedDBManager, remembered: Option<string>)
      ensures this.db == db && this.remembered == remembered
      ensures user == None && loading
    {
      this.db := db;
      this.remembered := remembered;
      user := None;
      loading := true;
    }

    /** `checkAuth`, run once when the provider mounts. A remembered email
        is looked up; the user becomes whatever the store holds for it (none
        when the record is missing, and then the pointer stays). Only a
        failed lookup clears the pointer. Loading ends in every case. */
    method CheckAuth(ioFault: bool)
      requires db.Valid()
      modifies this`user, this`loading, this`remembered, db`stores
      ensures db.Valid() && !loading
      ensures RememberedEmail(old(remembered)).None? ==>
        user == old(user) && remembered == old(remembered) && db.stores == old(db.stores)
      ensures RememberedEmail(old(remembered)).Some? ==> db.stores == Db.UpgradedSchema(old(db.stores))
      ensures RememberedEmail(old(remembered)).Some? && ioFault ==>
        user == old(user) && remembered == None
      ensures RememberedEmail(old(remembered)).Some? && !ioFault ==>
        user == Lookup(db.users, old(remembered).value) && remembered == old(remembered)
    {
      var stored := RememberedEmail(remembered);
      if stored.Some? {
        var r := db.GetUser(stored.value, ioFault);
        if r.Ok? {
          user := r.value;
        } else {
          remembered := None;
        }
      }
      loading := false;
    }

    /** `login`: succeeds exactly when the email has a stored user whose
        password is the one supplied, character for character. A failure
        leaves the session and the pointer as they were. */
    method Login(email: string, password: string, ioFault: bool) returns (r: Outcome)
      requires db.Valid()
      modifies this`user, this`remembered, db`stores
      ensures db.Valid() && db.stores == Db.UpgradedSchema(old(db.stores))
      ensures r.Success? <==> !ioFault && email in db.users && db.users[email].password == password
      ensures r.Success? ==> user == Some(db.users[email]) && remembered == Some(email)
      ensures r.Failure? ==> user == old(user) && remembered == old(remembered)
      ensures r.Failure? ==> r.error == (if ioFault then LoginFailed else InvalidCredentials)
    {
      var found := db.GetUser(email, ioFault);
      if found.Err? {
        return Failure(LoginFailed);
      }
      if found.value.Some? && found.value.value.password == password {
        user := found.value;
        remembered := Some(email);
        return Success;
      }
      r := Failure(InvalidCredentials);
    }

    /** `signup`: an email already stored fails with "Email already exists"
        and writes nothing; otherwise the new user is stored, signed in and
        remembered. `createdAt` is the caller's clock reading. */
    method Signup(name: string, email: string, password: string, createdAt: string,
                  lookupFault: bool, addFault: bool) returns (r: Outcome)
      requires db.Valid()
      modifies this`user, this`remembered, db`stores, db`users
      ensures db.Valid() && db.stores == Db.UpgradedSchema(old(db.stores))
      ensures r.Failure? ==> db.users == old(db.users) && user == old(user) && remembered == old(remembered)
      ensures lookupFault ==> r == Failure(SignupFailed)
      ensures !lookupFault && email in old(db.users) ==> r == Failure(EmailTaken)
      ensures !lookupFault && email !in old(db.users) && addFault ==> r == Failure(SignupFailed)
      ensures !lookupFault && email !in old(db.users) && !addFault ==>
        && r == Success
        && db.users == old(db.users)[email := User(name, email, password, createdAt)]
        && user == Some(User(name, email, password, createdAt))
        && remembered == Some(email)
    {
      var existing := db.GetUser(email, lookupFault);
      if existing.Err? {
        return Failure(SignupFailed);
      }
      if existing.value.Some? {
        return Failure(EmailTaken);
      }
      var newUser := User(name, email, password, createdAt);
      var added := db.AddUser(newUser, addFault);
      if added.Err? {
        return Failure(SignupFailed);
      }
      user := Some(newUser);
      remembered := Some(email);
      r := Success;
    }

    /** `logout`: always ends signed out with nothing remembered. */
    method Logout()
      modifies this`user, this`remembered
      ensures user == None && remembered == None
    {
      user := None;
      remembered := None;
    }
  }

  /** A signup followed by a login with the same credentials succeeds. */
  method SignupThenLogin(s: Session, name: string, email: string, password: string, createdAt: string)
    requires s.db.Valid() && email !in s.db.users
    modifies s, s.db
    ensures s.user == Some(User(name, email, password, createdAt))
  {
    var signedUp := s.Signup(name, email, password, createdAt, false, false);
    assert signedUp == Success;
    s.Logout();
    var loggedIn := s.Login(email, password, false);
    assert loggedIn == Success;
  }

  /** After a logout, the next start of the application is anonymous even
      though the user's record is still stored. */
  method LogoutThenRestart(s: Session) returns (next: Session)
    requires s.db.Valid()
    modifies s, s.db`stores
    ensures next.user == None && next.remembered == None && !next.loading
    ensures s.db.users == old(s.db.users)
  {
    s.Logout();
    next := new Session(s.db, s.remembered);
    next.CheckAuth(false);
  }
}
