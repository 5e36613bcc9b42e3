/** The profile editing screen: its form fields, the error messages shown
    under them, the genre selection and the submission that saves the form
    into the session. Picking an avatar or cover image (a file read) is left
    out; the form holds the resulting text. */
module ProfileEdit {
  import opened Common
  import opened Entities
  import opened Validation
  import Session
  import Routes

  /** The checks of `validateForm` on the two checked fields: the error
      record, and whether it is empty. */
  method CheckProfile(name: string, email: string) returns (errors: map<Field, string>, valid: bool)
    ensures errors == ProfileErrors(name, email)
    ensures valid <==> !IsBlank(name) && !IsBlank(email) && IsEmail(email)
  {
    errors := ProfileErrors(name, email);
    ProfileValidIff(name, email);
    valid := |errors| == 0;
  }

  class ProfileEditForm {
    var name: string
    var email: string
    var bio: string
    var favoriteGenres: seq<string>
    var avatar: string
    var coverImage: string
    var errors: map<Field, string>
    var isLoading: bool
    var navigatedTo: Option<Routes.Path>

    /** The form starts from the signed-in user, with empty text for every
        missing field. */
    constructor (user: Option<User>)
      ensures user.Some? ==> name == user.value.name && email == user.value.email
                             && favoriteGenres == user.value.favoriteGenres
                             && bio == Pick(user.value.bio, "") && avatar == Pick(user.value.avatar, "")
                             && coverImage == Pick(user.value.coverImage, "")
      ensures user.None? ==> name == [] && email == [] && bio == [] && favoriteGenres == []
                             && avatar == [] && coverImage == []
      ensures errors == map[] && !isLoading && navigatedTo.None?
    {
      if user.Some? {
        var u := user.value;
        name, email, bio := u.name, u.email, Pick(u.bio, "");
        favoriteGenres := u.favoriteGenres;
        avatar, coverImage := Pick(u.avatar, ""), Pick(u.coverImage, "");
      } else {
        name, email, bio, favoriteGenres, avatar, coverImage := "", "", "", [], "", "";
      }
      errors := map[];
      isLoading := false;
      navigatedTo := None;
    }

    /** The update the form sends: all six of its fields. */
    function Patch(): (r: UserPatch)
      reads this`name, this`email, this`bio, this`favoriteGenres, this`avatar, this`coverImage
      ensures r.name == Some(name) && r.email == Some(email) && r.bio == Some(bio)
      ensures r.favoriteGenres == Some(favoriteGenres)
      ensures r.avatar == Some(avatar) && r.coverImage == Some(coverImage)
      ensures r.phone.None? && r.booksOwned.None? && r.booksWanted.None?
      ensures r.location.None? && r.isPremium.None?
    {
      NoChanges.(name := Some(name), email := Some(email), bio := Some(bio),
                 favoriteGenres := Some(favoriteGenres), avatar := Some(avatar), coverImage := Some(coverImage))
    }

    /** `handleInputChange`: the field takes the value, and its error, when
        one is shown, is emptied; no other error changes. */
    method InputChange(field: Field, value: string)
      modifies this`name, this`email, this`bio, this`errors
      ensures field == NameField ==> name == value && email == old(email) && bio == old(bio)
      ensures field == EmailField ==> email == value && name == old(name) && bio == old(bio)
      ensures field == BioField ==> bio == value && name == old(name) && email == old(email)
      ensures field in old(errors) && old(errors)[field] != [] ==> errors == old(errors)[field := ""]
      ensures !(field in old(errors) && old(errors)[field] != []) ==> errors == old(errors)
      ensures forall f :: f != field ==> (f in errors <==> f in old(errors))
      ensures forall f :: f != field && f in errors ==> errors[f] == old(errors)[f]
    {
      match field {
        case NameField => name := value;
        case EmailField => email := value;
        case BioField => bio := value;
      }
      if field in errors && errors[field] != [] {
        errors := errors[field := ""];
      }
    }

    /** `handleGenreToggle` */
    method ToggleGenre(g: string)
      modifies this`favoriteGenres
      ensures favoriteGenres == Toggle(old(favoriteGenres), g)
      ensures g in favoriteGenres <==> g !in old(favoriteGenres)
    {
      favoriteGenres := Toggle(favoriteGenres, g);
    }

    /** `validateForm`: the errors are replaced by the form's current ones,
        and the form is valid when there are none. */
    method Validate() returns (valid: bool)
      modifies this`errors
      ensures errors == ProfileErrors(name, email)
      ensures valid <==> !IsBlank(name) && !IsBlank(email) && IsEmail(email)
    {
      errors, valid := CheckProfile(name, email);
    }

    /** `handleSubmit`: an invalid form only shows its errors; a valid one is
        merged into the signed-in user, and the screen moves to the profile
        whether or not the save took effect. */
    method Submit(auth: Session.AuthState, writeFails: bool) returns (valid: bool)
      modifies this`errors, this`isLoading, this`navigatedTo, auth`user, auth`stored
      requires auth.Synced()
      ensures valid <==> !IsBlank(name) && !IsBlank(email) && IsEmail(email)
      ensures errors == ProfileErrors(name, email)
      ensures name == old(name) && email == old(email) && bio == old(bio)
      ensures favoriteGenres == old(favoriteGenres) && avatar == old(avatar) && coverImage == old(coverImage)
      ensures !valid ==> auth.user == old(auth.user) && auth.stored == old(auth.stored)
                         && navigatedTo == old(navigatedTo)
      ensures valid ==> navigatedTo == Some(Routes.Profile)
      ensures valid && old(auth.user).Some? && !writeFails ==>
                auth.user == Some(Merge(old(auth.user).value, Patch()))
      ensures valid && (old(auth.user).None? || writeFails) ==> auth.user == old(auth.user)
      ensures !valid ==> isLoading == old(isLoading)
      ensures valid ==> !isLoading
      ensures auth.Synced()
    {
      valid := Validate();
      if !valid {
        return;
      }
      Save(auth, writeFails);
    }

    /** The valid branch of `handleSubmit`: the form is merged into the
        signed-in user, loading ends, and the screen moves to the profile. */
    method Save(auth: Session.AuthState, writeFails: bool)
      modifies this`isLoading, this`navigatedTo, auth`user, auth`stored
      requires auth.Synced()
      ensures navigatedTo == Some(Routes.Profile) && !isLoading
      ensures old(auth.user).Some? && !writeFails ==> auth.user == Some(Merge(old(auth.user).value, Patch()))
      ensures old(auth.user).None? || writeFails ==> auth.user == old(auth.user)
      ensures auth.Synced()
    {
      isLoading := true;
      auth.UpdateProfile(Patch(), writeFails);
      navigatedTo := Some(Routes.Profile);
      isLoading := false;
    }
  }

  /** Saving the form over a user keeps the user's id, phone, books,
      location and plan, and takes the form's name, email and genres. */
  lemma SavedProfile(u: User, name: string, email: string, bio: string, genres: seq<string>,
                     avatar: string, cover: string)
    ensures var p := NoChanges.(name := Some(name), email := Some(email), bio := Some(bio),
                                favoriteGenres := Some(genres), avatar := Some(avatar),
                                coverImage := Some(cover));
            var r := Merge(u, p);
            && r.id == u.id && r.phone == u.phone && r.booksOwned == u.booksOwned
            && r.booksWanted == u.booksWanted && r.location == u.location && r.isPremium == u.isPremium
            && r.name == name && r.email == email && r.favoriteGenres == genres && r.bio == Some(bio)
  {
  }
}
