/** The session provider: the signed-in user, the loading flag and the copy
    of the user kept in browser storage. Storage is a field of the session;
    a write that the browser refuses is a `writeFails` argument, and the
    simulated network delays are left out, so each operation is one step. */
module Session {
  import opened Common
  import opened Entities

  /** What storage holds under the key "user": text that parses to a user,
      or text that does not parse. */
  datatype Stored = Json(user: User) | Malformed

  datatype RegisterData = RegisterData(
    name: string, email: string, phone: string, password: string, favoriteGenres: seq<string>)

  const VerificationCode := "123456"

  /** The demonstration user every login produces. */
  function MockUser(email: string): (r: User)
    ensures r.email == email && r.id == "1" && r.name == "Usuario Demo"
    ensures r.booksOwned == [] && r.booksWanted == [] && !r.isPremium
    ensures r.favoriteGenres == ["Ficción", "Misterio", "Romance"]
    ensures r.location.None?
  {
    User("1", "Usuario Demo", email, "+1234567890", Some("https://via.placeholder.com/150"), Some(""),
         Some("Amante de los libros y las historias"), ["Ficción", "Misterio", "Romance"], [], [], None, false)
  }

  /** The user a registration creates: the submitted fields, no books, not
      premium, an empty cover and no avatar or biography. */
  function NewUser(data: RegisterData, newId: string): (r: User)
    ensures r.id == newId && r.name == data.name && r.email == data.email && r.phone == data.phone
    ensures r.favoriteGenres == data.favoriteGenres
    ensures r.booksOwned == [] && r.booksWanted == [] && !r.isPremium
    ensures r.avatar.None? && r.bio.None? && r.coverImage == Some("")
  {
    User(newId, data.name, data.email, data.phone, None, Some(""), None, data.favoriteGenres, [], [], None, false)
  }

  /** `loadUser`: a stored user replaces the session's; missing or
      unparsable storage leaves it as it was. */
  function Loaded(stored: Option<Stored>, current: Option<User>): (r: Option<User>)
    ensures (stored.Some? && stored.value.Json?) ==> r == Some(stored.value.user)
    ensures !(stored.Some? && stored.value.Json?) ==> r == current
  {
    match stored
    case Some(Json(u)) => Some(u)
    case _ => current
  }

  /** `sendVerificationCode` always reports the code as sent. */
  function SendVerificationCode(phone: string): (r: bool)
    ensures r
  {
    true
  }

  /** `verifyPhone` accepts exactly the fixed development code. */
  function VerifyPhone(phone: string, code: string): (r: bool)
    ensures r <==> code == VerificationCode
    ensures r ==> |code| == 6
  {
    code == VerificationCode
  }

  class AuthState {
    var user: Option<User>
    var loading: bool
    var stored: Option<Stored>

    /** The stored copy is the signed-in user, whenever there is one. */
    predicate Synced()
      reads this
    {
      user.Some? ==> stored == Some(Json(user.value))
    }

    /** The provider mounts with no user, loading, over whatever storage holds. */
    constructor (storage: Option<Stored>)
      ensures user.None? && loading && stored == storage
      ensures Synced()
    {
      user := None;
      loading := true;
      stored := storage;
    }

    method LoadUser()
      modifies this`user, this`loading
      requires Synced()
      ensures user == Loaded(stored, old(user))
      ensures !loading
      ensures Synced()
    {
      match stored {
        case Some(Json(u)) => user := Some(u);
        case _ =>
      }
      loading := false;
    }

    /** `saveUser`: storage first, then the session; when the write is
        refused neither changes. */
    method SaveUser(u: User, writeFails: bool)
      modifies this`user, this`stored
      requires Synced()
      ensures writeFails ==> user == old(user) && stored == old(stored)
      ensures !writeFails ==> user == Some(u) && stored == Some(Json(u))
      ensures Synced()
    {
      if writeFails {
        return;
      }
      stored := Some(Json(u));
      user := Some(u);
    }

    /** `login` succeeds for every email and password; loading ends false. */
    method Login(email: string, password: string, writeFails: bool) returns (ok: bool)
      modifies this
      requires Synced()
      ensures ok && !loading
      ensures !writeFails ==> user == Some(MockUser(email)) && stored == Some(Json(MockUser(email)))
      ensures writeFails ==> user == old(user) && stored == old(stored)
      ensures Synced()
    {
      loading := true;
      SaveUser(MockUser(email), writeFails);
      ok := true;
      loading := false;
    }

    /** `register` keeps the submitted fields and succeeds; loading ends false. */
    method Register(data: RegisterData, newId: string, writeFails: bool) returns (ok: bool)
      modifies this
      requires Synced()
      ensures ok && !loading
      ensures !writeFails ==> user == Some(NewUser(data, newId)) && stored == Some(Json(NewUser(data, newId)))
      ensures writeFails ==> user == old(user) && stored == old(stored)
      ensures Synced()
    {
      loading := true;
      SaveUser(NewUser(data, newId), writeFails);
      ok := true;
      loading := false;
    }

    /** `updateProfile`: without a user nothing happens; otherwise the fields
        present in the patch replace the user's and the result is saved. */
    method UpdateProfile(p: UserPatch, writeFails: bool)
      modifies this`user, this`stored
      requires Synced()
      ensures old(user).None? ==> user == old(user) && stored == old(stored)
      ensures old(user).Some? && !writeFails ==>
                user == Some(Merge(old(user).value, p)) && stored == Some(Json(Merge(old(user).value, p)))
      ensures writeFails ==> user == old(user) && stored == old(stored)
      ensures Synced()
    {
      if user.Some? {
        SaveUser(Merge(user.value, p), writeFails);
      }
    }

    /** `logout` clears storage and the session; a refused removal changes nothing. */
    method Logout(removeFails: bool)
      modifies this`user, this`stored
      requires Synced()
      ensures !removeFails ==> user.None? && stored.None?
      ensures removeFails ==> user == old(user) && stored == old(stored)
      ensures Synced()
    {
      if removeFails {
        return;
      }
      stored := None;
      user := None;
    }
  }

  /** A reload over a synchronised session finds the same user: the
      provider mounts with no user over the stored copy, and loading it
      restores the user that was signed in. */
  lemma ReloadRestoresUser(user: Option<User>, stored: Option<Stored>)
    requires user.Some? ==> stored == Some(Json(user.value))
    ensures user.Some? ==> Loaded(stored, None) == user
  {
  }
}
