/**
 * The profile page of the web front end: the form filled from the stored
 * profile, the multipart body it sends, the choice between creating and
 * updating, the error shown when saving fails and the picture preview.
 */
module ProfilePage {
  import opened Common
  import Models
  import ProfileRoutes
  import ApiClient
  import Dashboard
  import AuthSession

  const DEFAULT_LEVEL: string := "Beginner"
  const SAVED: string := "Profile saved successfully!"
  const SAVE_FAILED: string := "Failed to save profile"
  const SAVE_RETRY: string := "Failed to save profile. Please try again."
  const SAVE_ERROR: string := "An error occurred while saving profile"
  const BLOB_SCHEME: string := "blob:"
  const MULTIPART: string := "multipart/form-data"
  const PROFILE_EXISTS: Reply := Reply(400, "Profile already exists")

  /** The `profile` object of a fetched body as the page reads it. */
  datatype Fetched = Fetched(bio: Option<string>, interests: Dashboard.InterestsField, specialization: Option<string>,
                             schedule: Option<string>, level: Option<string>, picture: Option<string>)

  /** The body the profile route sends for a view: the interests always as a list. */
  function FromView(v: ProfileRoutes.ProfileView): Fetched
  {
    Fetched(v.bio, Dashboard.InterestList(v.interests), v.specialization, v.schedule, v.level, v.picture)
  }

  /** The form; `picture` is the chosen file's name. */
  datatype ProfileForm = ProfileForm(bio: string, interests: string, specialization: string, schedule: string,
                                     level: string, picture: Option<string>)

  const INITIAL_FORM := ProfileForm("", "", "", "", DEFAULT_LEVEL, None)

  /** The form filled from a fetched profile: missing texts become "", a missing level the beginner level, and no file is chosen. */
  function FormOf(p: Fetched): (r: ProfileForm)
    ensures r.bio == OrEmpty(p.bio) && r.specialization == OrEmpty(p.specialization) && r.schedule == OrEmpty(p.schedule)
    ensures r.interests == Dashboard.FormInterests(p.interests)
    ensures r.level == (if Truthy(p.level) then p.level.value else DEFAULT_LEVEL) && r.level != []
    ensures r.picture.None?
  {
    ProfileForm(OrEmpty(p.bio), Dashboard.FormInterests(p.interests), OrEmpty(p.specialization), OrEmpty(p.schedule),
                if Truthy(p.level) then p.level.value else DEFAULT_LEVEL, None)
  }

  /** A user without a stored profile starts from the form the page opens with. */
  lemma NoProfileGivesInitialForm(profiles: map<nat, Models.Profile>, userId: nat)
    requires userId !in profiles
    ensures FormOf(FromView(ProfileRoutes.GetProfile(profiles, userId))) == INITIAL_FORM
  {
  }

  /** A stored profile fills the form with its bio, specialization, schedule and level as stored. */
  lemma StoredProfileFillsForm(profiles: map<nat, Models.Profile>, userId: nat)
    requires userId in profiles
    ensures var p := profiles[userId];
            var f := FormOf(FromView(ProfileRoutes.GetProfile(profiles, userId)));
            f.bio == OrEmpty(p.bio) && f.specialization == OrEmpty(p.specialization)
            && f.schedule == OrEmpty(p.schedule) && (Truthy(p.level) ==> f.level == p.level.value)
  {
  }

  // ------------------------------------------------------------------- body

  /** A part of the multipart body: a text field, or the chosen file by its name. */
  datatype Part = TextPart(name: string, text: string) | FilePart(name: string, fileName: string)

  /** The body in the order it is appended: the five texts, then the picture only when one was chosen. */
  function FormParts(f: ProfileForm): (r: seq<Part>)
    ensures |r| == 5 + (if f.picture.Some? then 1 else 0)
    ensures r[..5] == [TextPart("bio", f.bio), TextPart("interests", f.interests),
                       TextPart("specialization", f.specialization), TextPart("schedule", f.schedule),
                       TextPart("level", f.level)]
    ensures forall i :: 0 <= i < |r| && r[i].FilePart? ==> i == 5 && r[i] == FilePart("profilePic", f.picture.value)
  {
    [TextPart("bio", f.bio), TextPart("interests", f.interests), TextPart("specialization", f.specialization),
     TextPart("schedule", f.schedule), TextPart("level", f.level)]
    + (if f.picture.Some? then [FilePart("profilePic", f.picture.value)] else [])
  }

  /** The text fields the server finds in the body (`request.form`). */
  function FormFields(f: ProfileForm): map<string, string>
  {
    map["bio" := f.bio, "interests" := f.interests, "specialization" := f.specialization,
        "schedule" := f.schedule, "level" := f.level]
  }

  /** Every text part of the body reaches the server under its name with its text, and the file part carries the chosen file. */
  lemma PartsReachServer(f: ProfileForm)
    ensures forall i :: 0 <= i < |FormParts(f)| && FormParts(f)[i].TextPart? ==>
              FormParts(f)[i].name in FormFields(f) && FormFields(f)[FormParts(f)[i].name] == FormParts(f)[i].text
    ensures (exists i :: 0 <= i < |FormParts(f)| && FormParts(f)[i].FilePart?) <==> f.picture.Some?
  {
    var parts := FormParts(f);
    if f.picture.Some? {
      assert parts[5].FilePart?;
    }
  }

  /** The server reads the body as form data carrying the five fields, so it is never an empty body. */
  lemma ServerSeesWholeForm(f: ProfileForm, boundary: string)
    ensures var data := ProfileRoutes.RequestData(Some(MULTIPART + boundary), FormFields(f), map[]);
            data.Some? && data.value != map[]
            && forall k :: k in FormFields(f) ==> k in data.value && data.value[k] == ProfileRoutes.Text(FormFields(f)[k])
  {
    assert (MULTIPART + boundary)[..|MULTIPART|] == MULTIPART;
    var data := ProfileRoutes.RequestData(Some(MULTIPART + boundary), FormFields(f), map[]);
    assert "bio" in FormFields(f) && "bio" in data.value;
  }

  // ------------------------------------------------------- PUT or POST

  /** Whether a fetched profile counts as filled in: a bio, a specialization or some interests. */
  predicate HasContent(p: Fetched)
  {
    Truthy(p.bio) || Truthy(p.specialization)
    || (match p.interests
        case InterestList(items) => |items| > 0
        case InterestText(t) => Truthy(t))
  }

  /** How the check request before saving ended. */
  datatype Check = CheckOk(profile: Option<Fetched>) | CheckRefused | CheckUnreachable

  /** The method of the save request as written: PUT only for an ok check showing a filled-in profile, POST otherwise. */
  function ChooseMethod(check: Check): (m: ApiClient.Verb)
    ensures m == ApiClient.Put <==> check.CheckOk? && check.profile.Some? && HasContent(check.profile.value)
  {
    if check.CheckOk? && check.profile.Some? && HasContent(check.profile.value) then ApiClient.Put else ApiClient.Post
  }

  /**
   * A stored profile without a bio, a specialization or interests is read
   * back as blank, so the page chooses POST for it although it exists.
   */
  lemma BlankProfileIsPosted(profiles: map<nat, Models.Profile>, userId: nat)
    requires userId in profiles
    requires !Truthy(profiles[userId].bio) && !Truthy(profiles[userId].specialization)
    requires !Truthy(profiles[userId].interests)
    ensures ChooseMethod(CheckOk(Some(FromView(ProfileRoutes.GetProfile(profiles, userId))))) == ApiClient.Post
  {
  }

  /** Saving the opening form of a new user stores such a blank profile, so every later save is posted too. */
  lemma EmptyFirstSaveStoresBlankProfile(profiles: map<nat, Models.Profile>, userId: nat, boundary: string)
    ensures var data := ProfileRoutes.RequestData(Some(MULTIPART + boundary), FormFields(INITIAL_FORM), map[]);
            data.Some? &&
            var stored := profiles[userId := ProfileRoutes.NewProfile(userId, data.value, None)];
            ChooseMethod(CheckOk(Some(FromView(ProfileRoutes.GetProfile(stored, userId))))) == ApiClient.Post
  {
    ServerSeesWholeForm(INITIAL_FORM, boundary);
    var data := ProfileRoutes.RequestData(Some(MULTIPART + boundary), FormFields(INITIAL_FORM), map[]);
    var stored := profiles[userId := ProfileRoutes.NewProfile(userId, data.value, None)];
    BlankProfileIsPosted(stored, userId);
  }

  /**
   * The save as written, against the profile routes: the check reads the
   * stored profile, the method is chosen from it, and the request goes to
   * the create route for POST and to the update route for PUT. For a blank
   * stored profile the create route refuses.
   */
  method SaveAsWritten(db: Models.Database, current: Models.User, f: ProfileForm, boundary: string,
                       secure: string -> string, failure: Option<string>) returns (reply: Reply)
    requires db.Valid()
    modifies db
    ensures db.Valid()
    ensures current.id in old(db.profiles) && !HasContent(FromView(ProfileRoutes.GetProfile(old(db.profiles), current.id)))
            ==> reply == PROFILE_EXISTS && db.profiles == old(db.profiles)
  {
    ServerSeesWholeForm(f, boundary);
    var check := CheckOk(Some(FromView(ProfileRoutes.GetProfile(db.profiles, current.id))));
    if ChooseMethod(check) == ApiClient.Put {
      reply := ProfileRoutes.UpdateProfile(db, current, Some(MULTIPART + boundary), FormFields(f), map[],
                                           f.picture, secure, failure);
    } else {
      reply := ProfileRoutes.CreateProfile(db, current, Some(MULTIPART + boundary), FormFields(f), map[],
                                           f.picture, secure, failure);
    }
  }

  /**
   * The save as intended: always PUT, which the update route turns into a
   * create when there is no profile yet. It is never refused as existing,
   * and without a database error it always stores the form.
   */
  method SaveCorrected(db: Models.Database, current: Models.User, f: ProfileForm, boundary: string,
                       secure: string -> string, failure: Option<string>) returns (reply: Reply)
    requires db.Valid()
    modifies db
    ensures db.Valid()
    ensures reply != PROFILE_EXISTS
    ensures failure.None? ==> (reply.code == 200 || reply.code == 201) && current.id in db.profiles
    ensures failure.Some? ==> db.profiles == old(db.profiles)
  {
    ServerSeesWholeForm(f, boundary);
    reply := ProfileRoutes.UpdateProfile(db, current, Some(MULTIPART + boundary), FormFields(f), map[],
                                         f.picture, secure, failure);
  }

  // ---------------------------------------------------------------- errors

  /** The body of a refused save: JSON with an optional `error`, or text that is not JSON. */
  datatype ErrorBody = JsonBody(error: Option<string>) | NotJson

  /** The error shown for a refused save: the body's error, else a fixed message that says which case it was. */
  function SaveError(body: ErrorBody): (r: string)
    ensures r != []
    ensures body.JsonBody? && Truthy(body.error) ==> r == body.error.value
    ensures body.JsonBody? && !Truthy(body.error) ==> r == SAVE_FAILED
    ensures body.NotJson? ==> r == SAVE_RETRY
  {
    match body
    case JsonBody(e) => if Truthy(e) then e.value else SAVE_FAILED
    case NotJson => SAVE_RETRY
  }

  /** How the save request ended. */
  datatype Save = Saved | SaveRefused(body: ErrorBody) | SaveUnreachable

  // ----------------------------------------------------------------- state

  /** The page's state; `revoked` lists the preview URLs released so far, `refreshes` the calls of the session's update. */
  class ProfileEditor {
    var form: ProfileForm
    var previewUrl: Option<string>
    var loading: bool
    var error: string
    var success: string
    var revoked: seq<string>
    var refreshes: nat

    constructor ()
      ensures form == INITIAL_FORM && previewUrl.None? && loading && error == [] && success == []
      ensures revoked == [] && refreshes == 0
    {
      form := INITIAL_FORM;
      previewUrl := None;
      loading := true;
      error := [];
      success := [];
      revoked := [];
      refreshes := 0;
    }

    /** The fetch on opening: a body with a profile fills the form and shows its picture; anything else leaves both. Loading ends either way. */
    method Load(fetched: Option<Option<Fetched>>)
      modifies this
      ensures fetched.Some? && fetched.value.Some? ==>
                form == FormOf(fetched.value.value) && previewUrl == fetched.value.value.picture
      ensures !(fetched.Some? && fetched.value.Some?) ==> form == old(form) && previewUrl == old(previewUrl)
      ensures !loading && error == old(error) && success == old(success)
      ensures revoked == old(revoked) && refreshes == old(refreshes)
    {
      if fetched.Some? && fetched.value.Some? {
        form := FormOf(fetched.value.value);
        previewUrl := fetched.value.value.picture;
      }
      loading := false;
    }

    /**
     * `handleFileChange`: a previous `blob:` preview is released; the
     * chosen file, or none, goes into the form; the preview becomes the new
     * file's `blobUrl`, or nothing.
     */
    method ChooseFile(file: Option<string>, blobUrl: string)
      modifies this
      ensures revoked == old(revoked) + (if old(previewUrl).Some? && StartsWith(old(previewUrl).value, BLOB_SCHEME)
                                         then [old(previewUrl).value] else [])
      ensures form == old(form).(picture := file)
      ensures previewUrl == (if file.Some? then Some(blobUrl) else None)
      ensures loading == old(loading) && error == old(error) && success == old(success) && refreshes == old(refreshes)
    {
      if previewUrl.Some? && StartsWith(previewUrl.value, BLOB_SCHEME) {
        revoked := revoked + [previewUrl.value];
      }
      form := form.(picture := file);
      if file.Some? {
        previewUrl := Some(blobUrl);
      } else {
        previewUrl := None;
      }
    }

    /**
     * `handleSubmit`: the body is built, the check decides the method, and
     * the save's ending decides the message: success (and a refresh of the
     * session), the refused body's error, or the fixed error when either
     * request got no answer. `sent` is the request made, if any.
     */
    method HandleSubmit(check: Check, save: Save) returns (sent: Option<(ApiClient.Verb, seq<Part>)>)
      modifies this
      ensures check.CheckUnreachable? ==>
                sent.None? && error == SAVE_ERROR && success == [] && refreshes == old(refreshes)
      ensures !check.CheckUnreachable? ==> sent == Some((ChooseMethod(check), FormParts(old(form))))
      ensures !check.CheckUnreachable? && save.Saved? ==> success == SAVED && error == [] && refreshes == old(refreshes) + 1
      ensures !check.CheckUnreachable? && save.SaveRefused? ==>
                error == SaveError(save.body) && success == [] && refreshes == old(refreshes)
      ensures !check.CheckUnreachable? && save.SaveUnreachable? ==>
                error == SAVE_ERROR && success == [] && refreshes == old(refreshes)
      ensures form == old(form) && previewUrl == old(previewUrl) && loading == old(loading) && revoked == old(revoked)
    {
      error := [];
      success := [];
      var parts := FormParts(form);
      if check.CheckUnreachable? {
        error := SAVE_ERROR;
        return None;
      }
      var verb := ChooseMethod(check);
      sent := Some((verb, parts));
      match save {
        case Saved =>
          success := SAVED;
          refreshes := refreshes + 1;
        case SaveRefused(body) =>
          error := SaveError(body);
        case SaveUnreachable =>
          error := SAVE_ERROR;
      }
    }
  }

  // ------------------------------------------------ the session refresh after a save

  /**
   * The refresh a successful save ends with, as written: the session's
   * `updateProfile` is called with no form data, so its PUT carries no body
   * and no content type. The profile route refuses it with 415 whether or
   * not the profile exists, so the call throws the refusal's text and the
   * signed-in user stays as it was; nothing is stored.
   */
  method RefreshAsWritten(session: AuthSession.Session, db: Models.Database, current: Models.User,
                          secure: string -> string, me: AuthSession.Call<AuthSession.Account>)
    returns (reply: Reply, r: AuthSession.Result<bool>)
    requires db.Valid()
    modifies session, db
    ensures reply == ProfileRoutes.UNSUPPORTED_MEDIA
    ensures r == AuthSession.Thrown(ProfileRoutes.UNSUPPORTED_MEDIA.text)
    ensures session.user == old(session.user) && session.loading == old(session.loading)
    ensures db.profiles == old(db.profiles)
  {
    reply := ProfileRoutes.UpdateProfile(db, current, None, map[], map[], None, secure, None);
    var call := AuthSession.Replied(reply.code, AuthSession.Body(Some(reply.text), None, None));
    r := session.UpdateProfile(call, me);
  }

  /**
   * The refresh the page means to make: only the `/me` refetch, so an ok
   * answer becomes the signed-in user and anything else leaves it.
   */
  method RefreshCorrected(session: AuthSession.Session, me: AuthSession.Call<AuthSession.Account>)
    modifies session
    ensures me.Replied? && AuthSession.Ok(me.status) ==> session.user == Some(me.body)
    ensures !(me.Replied? && AuthSession.Ok(me.status)) ==> session.user == old(session.user)
    ensures session.loading == old(session.loading)
  {
    if me.Replied? && AuthSession.Ok(me.status) {
      session.user := Some(me.body);
    }
  }

  /** The stored picture shown on opening is a server URL, which choosing a file never releases. */
  lemma ServerPictureNeverRevoked(stored: Option<string>)
    requires ProfileRoutes.PictureUrl(stored).Some?
    ensures !StartsWith(ProfileRoutes.PictureUrl(stored).value, BLOB_SCHEME)
  {
    var url := ProfileRoutes.PictureUrl(stored).value;
    assert url[0] == ProfileRoutes.PICTURE_HOST[0];
  }
}
