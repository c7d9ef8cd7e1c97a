/** The profile form component of src/Views/cadastro.tsx as an object: its
    state slots are fields, and each handler is a method that overwrites
    the slots the handler sets. Every reply from outside (the profile
    fetch, the CEP lookup, the storage and table calls, the sign-up) is a
    parameter. */
module ProfileFormState {
  import opened Common
  import opened SessionModel
  import opened ProfileForm

  /** What the edit-mode profile fetch does: it fails (an error reply or a
      throw), or it returns a row or nothing. */
  datatype ProfileLoad = LoadFailed | Loaded(row: Option<StoredProfile>)

  /** The `try` block of `handleSubmit` on a snapshot of the form, up to
      a usable identifier: validation and sign-up in create mode, then the
      identifier check. It ends as the pipeline `Submit` does. */
  method SubmitSteps(s: Submission, b: Backend) returns (r: SubmitResult)
    ensures r == Submit(s, b)
  {
    var effects: seq<Effect> := [];
    var currentUserId := if s.currentUser.Some? then Some(s.currentUser.value.id) else None;

    if !s.editMode {
      if s.email == "" || s.password == "" || s.fields.username == "" {
        return Aborted(Validation, effects);
      }
      effects := [SignUpCall(s.email, s.password)];
      if !(b.signUp.SignUpOk? && b.signUp.data.user.Some?) {
        return Aborted(Registration, effects);
      }
      currentUserId := Some(b.signUp.data.user.value.id);
    }

    if !Present(currentUserId) {
      return Aborted(IdentityCheck, effects);
    }
    var uid := currentUserId.value;
    r := SaveSteps(s, b, uid, effects);
  }

  /** The rest of the block, after `issued`: avatar upload, banner upload,
      table write and navigation, each failure ending the block. */
  method SaveSteps(s: Submission, b: Backend, uid: string, issued: seq<Effect>) returns (r: SubmitResult)
    ensures r == Behind(issued, AvatarStage(s, b, uid))
  {
    var effects := issued;
    var photoUrl: Option<string> := None;
    if s.photo.Some? {
      var up := Upload(AvatarObject(uid, s.photo.value.name));
      if b.avatar.UploadFailed? {
        return Aborted(AvatarUpload, effects + [up]);
      }
      BehindBehind(effects, [up], BannerStage(s, b, uid));
      effects := effects + [up];
      photoUrl := Some(b.avatar.publicUrl);
    }
    assert Behind(issued, AvatarStage(s, b, uid)) == Behind(effects, BannerStage(s, b, uid));

    var coverPhotoUrl: Option<string> := None;
    if s.cover.Some? {
      var up := Upload(BannerObject(uid, s.cover.value.name));
      if b.banner.UploadFailed? {
        return Aborted(BannerUpload, effects + [up]);
      }
      BehindBehind(effects, [up], WriteStage(s, b, uid));
      effects := effects + [up];
      coverPhotoUrl := Some(b.banner.publicUrl);
    }
    assert Behind(issued, AvatarStage(s, b, uid)) == Behind(effects, WriteStage(s, b, uid));

    var data := ProfileWrite(s.fields, photoUrl, coverPhotoUrl);
    var write := if s.editMode then Update(data, uid) else Insert(uid, s.email, data);
    assert write == WriteEffect(s, b, uid);
    if b.write.WriteFailed? {
      return Aborted(Persist, effects + [write]);
    }
    var navigations := [Navigate(if s.editMode then FeedPath else "/"), Navigate(FeedPath)];
    assert WritePlan(s, b, uid) == [write] + navigations;
    effects := effects + [write];
    return Saved(effects + navigations);
  }

  class CadastroForm {
    var isEditMode: bool
    var isLoading: bool
    var error: Option<string>

    var username: string
    var firstName: string
    var lastName: string
    var about: string
    var email: string
    var password: string

    var cep: string
    var streetAddress: string
    var city: string
    var region: string
    var isLoadingCep: bool

    var photoFileName: Option<string>
    var coverPhotoFileName: Option<string>
    var photoFile: Option<FileRef>
    var coverPhotoFile: Option<FileRef>
    var photoPreview: Option<string>
    var coverPhotoPreview: Option<string>

    /** The shown file names are the names of the selected files. */
    predicate Valid()
      reads this`photoFile, this`photoFileName, this`coverPhotoFile, this`coverPhotoFileName
    {
      && (photoFile.None? ==> photoFileName.None?)
      && (photoFile.Some? ==> photoFileName == Some(photoFile.value.name))
      && (coverPhotoFile.None? ==> coverPhotoFileName.None?)
      && (coverPhotoFile.Some? ==> coverPhotoFileName == Some(coverPhotoFile.value.name))
    }

    /** The eight text fields (the CEP field is the postal code). */
    function Fields(): ProfileFields
      reads this`username, this`firstName, this`lastName, this`about,
        this`cep, this`streetAddress, this`city, this`region
    {
      ProfileFields(username, firstName, lastName, about, cep, streetAddress, city, region)
    }

    function Addr(): Address
      reads this
    {
      Address(streetAddress, city, region)
    }

    /** What `handleSubmit` reads for a given signed-in user. */
    function SubmissionFor(currentUser: Option<AuthUser>): Submission
      reads this`isEditMode, this`email, this`password, this`photoFile, this`coverPhotoFile,
        this`username, this`firstName, this`lastName, this`about,
        this`cep, this`streetAddress, this`city, this`region
    {
      Submission(isEditMode, currentUser, email, password, Fields(), photoFile, coverPhotoFile)
    }

    /** Every slot starts empty: create mode, nothing loading, no error,
        no file selected. */
    constructor ()
      ensures Valid()
      ensures !isEditMode && !isLoading && error.None? && !isLoadingCep
      ensures Fields() == ProfileFields("", "", "", "", "", "", "", "") && email == "" && password == ""
      ensures photoFile.None? && coverPhotoFile.None? && photoPreview.None? && coverPhotoPreview.None?
    {
      isEditMode := false;
      isLoading := false;
      error := None;
      username := "";
      firstName := "";
      lastName := "";
      about := "";
      email := "";
      password := "";
      cep := "";
      streetAddress := "";
      city := "";
      region := "";
      isLoadingCep := false;
      photoFileName := None;
      coverPhotoFileName := None;
      photoFile := None;
      coverPhotoFile := None;
      photoPreview := None;
      coverPhotoPreview := None;
    }

    /** The effect on `user`: with a signed-in user the form switches to
        edit mode, starts loading and asks for that user's row (the result
        is the identifier queried); without one nothing happens. */
    method UserChanged(user: Option<AuthUser>) returns (query: Option<string>)
      modifies this`isEditMode, this`isLoading
      ensures query.Some? <==> user.Some?
      ensures user.Some? ==> query.value == user.value.id && isEditMode && isLoading
      ensures user.None? ==> isEditMode == old(isEditMode) && isLoading == old(isLoading)
    {
      if user.Some? {
        isEditMode := true;
        isLoading := true;
        query := Some(user.value.id);
      } else {
        query := None;
      }
    }

    /** The end of the profile fetch: a returned row fills the text fields
        (`x || ""`), the e-mail from the identity and the two previews
        (`x || null`); a failure or an empty reply changes nothing but
        loading, which is cleared in every case. */
    method ProfileFetched(user: AuthUser, load: ProfileLoad)
      modifies this`isLoading, this`username, this`firstName, this`lastName, this`about,
        this`cep, this`streetAddress, this`city, this`region, this`email,
        this`photoPreview, this`coverPhotoPreview
      ensures !isLoading
      ensures load.Loaded? && load.row.Some? ==>
        && Fields() == PrefilledFields(load.row.value)
        && email == OrEmpty(user.email)
        && photoPreview == OrNull(load.row.value.photoUrl)
        && coverPhotoPreview == OrNull(load.row.value.coverPhotoUrl)
      ensures !(load.Loaded? && load.row.Some?) ==>
        Fields() == old(Fields()) && email == old(email)
        && photoPreview == old(photoPreview) && coverPhotoPreview == old(coverPhotoPreview)
    {
      if load.Loaded? && load.row.Some? {
        var row := load.row.value;
        SetFields(PrefilledFields(row));
        email := OrEmpty(user.email);
        photoPreview := OrNull(row.photoUrl);
        coverPhotoPreview := OrNull(row.coverPhotoUrl);
      }
      isLoading := false;
    }

    /** Writes the eight text fields at once. */
    method SetFields(f: ProfileFields)
      modifies this`username, this`firstName, this`lastName, this`about,
        this`cep, this`streetAddress, this`city, this`region
      ensures Fields() == f
    {
      username, firstName, lastName, about := f.username, f.firstName, f.lastName, f.about;
      cep, streetAddress, city, region := f.postalCode, f.streetAddress, f.city, f.region;
    }

    /** Leaving the CEP field: with exactly eight digits in it, the lookup
        starts (the result is the request URL), the spinner shows and the
        error is cleared; otherwise nothing happens. */
    method CepBlur() returns (request: Option<string>)
      modifies this`isLoadingCep, this`error
      ensures request.Some? <==> CepQuery(cep).Some?
      ensures request.Some? ==> request.value == ViaCepUrl(CepQuery(cep).value) && isLoadingCep && error.None?
      ensures request.None? ==> isLoadingCep == old(isLoadingCep) && error == old(error)
    {
      var query := CepQuery(cep);
      if query.None? {
        return None;
      }
      isLoadingCep := true;
      error := None;
      request := Some(ViaCepUrl(query.value));
    }

    /** The end of the lookup: the address fields are the reply applied to
        the address; a failure or "not found" sets its message, a found
        address leaves the message alone (the blur cleared it); the spinner
        is hidden. */
    method CepReplied(reply: CepReply)
      modifies this`isLoadingCep, this`error, this`streetAddress, this`city, this`region
      ensures Addr() == ApplyCepReply(old(Addr()), reply).address
      ensures ApplyCepReply(old(Addr()), reply).message.Some? ==> error == ApplyCepReply(old(Addr()), reply).message
      ensures ApplyCepReply(old(Addr()), reply).message.None? ==> error == old(error)
      ensures !isLoadingCep
    {
      match reply {
        case CepBody(erro, street, place, uf) =>
          if erro {
            error := Some(CepNotFound);
            streetAddress := "";
            city := "";
            region := "";
          } else {
            streetAddress := OrEmpty(street);
            city := OrEmpty(place);
            region := OrEmpty(uf);
          }
        case _ =>
          error := Some(CepLookupFailed);
      }
      isLoadingCep := false;
    }

    /** `handleRemovePhoto`: no avatar file, name or preview. */
    method RemovePhoto()
      requires Valid()
      modifies this`photoFileName, this`photoFile, this`photoPreview
      ensures Valid()
      ensures photoFile.None? && photoFileName.None? && photoPreview.None?
    {
      photoFileName := None;
      photoFile := None;
      photoPreview := None;
    }

    /** `handleRemoveCoverPhoto`: no banner file, name or preview. */
    method RemoveCoverPhoto()
      requires Valid()
      modifies this`coverPhotoFileName, this`coverPhotoFile, this`coverPhotoPreview
      ensures Valid()
      ensures coverPhotoFile.None? && coverPhotoFileName.None? && coverPhotoPreview.None?
    {
      coverPhotoFileName := None;
      coverPhotoFile := None;
      coverPhotoPreview := None;
    }

    /** `handlePhotoFileChange`: the first chosen file becomes the avatar
        file with its name and an object-URL preview; no file removes the
        avatar. */
    method PhotoFileChange(first: Option<FileRef>, objectUrl: string)
      requires Valid()
      modifies this`photoFileName, this`photoFile, this`photoPreview
      ensures Valid()
      ensures photoFile == first
      ensures photoPreview == if first.Some? then Some(objectUrl) else None
    {
      if first.Some? {
        photoFileName := Some(first.value.name);
        photoFile := first;
        photoPreview := Some(objectUrl);
      } else {
        RemovePhoto();
      }
    }

    /** `handleCoverPhotoFileChange`, the same for the banner. */
    method CoverPhotoFileChange(first: Option<FileRef>, objectUrl: string)
      requires Valid()
      modifies this`coverPhotoFileName, this`coverPhotoFile, this`coverPhotoPreview
      ensures Valid()
      ensures coverPhotoFile == first
      ensures coverPhotoPreview == if first.Some? then Some(objectUrl) else None
    {
      if first.Some? {
        coverPhotoFileName := Some(first.value.name);
        coverPhotoFile := first;
        coverPhotoPreview := Some(objectUrl);
      } else {
        RemoveCoverPhoto();
      }
    }

    /** `handleSubmit`, step by step with early exits where the source
        throws. The effects it issues are those of the pipeline `Submit`
        for the form's current state; the message is cleared on success
        and is "Erro ao salvar." on any failure; loading ends cleared. The
        submit button is disabled while a submission or a CEP lookup is
        under way, so neither is when it runs. */
    method HandleSubmit(currentUser: Option<AuthUser>, b: Backend) returns (effects: seq<Effect>)
      requires !isLoading && !isLoadingCep
      modifies this`isLoading, this`error
      ensures effects == Submit(SubmissionFor(currentUser), b).effects
      ensures error == if Submit(SubmissionFor(currentUser), b).Saved? then None else Some(SaveFailed)
      ensures !isLoading
    {
      // The handler sees the state of the render that created it.
      var s := SubmissionFor(currentUser);
      isLoading := true;
      error := None;
      var r := SubmitSteps(s, b);
      effects := r.effects;
      error, isLoading := if r.Saved? then None else Some(SaveFailed), false;
    }
  }
}
