/**
 * The profile routes: reading a profile (with defaults when there is none
 * and a public URL for the picture), creating one, and updating one as a
 * merge of the fields the request carries. A picture is stored only when
 * a file with an allowed image extension is uploaded.
 */
module ProfileRoutes {
  import opened Common
  import opened Models

  const ALLOWED_EXTENSIONS: set<string> := {"png", "jpg", "jpeg", "gif"}
  const PICTURE_HOST: string := "http://127.0.0.1:5000/"
  const UPLOAD_PREFIX: string := "/uploads/profile_pics/"
  const INTERESTS_SEPARATOR: string := ", "
  const UNSUPPORTED_MEDIA: Reply :=
    Reply(415, "Unsupported media type. Use multipart/form-data for file uploads or application/json for data only.")

  // ------------------------------------------------------------ file names

  /**
   * `allowed_file`: the name holds a '.', and the text after its last '.',
   * lower-cased, is one of the allowed image extensions.
   */
  function AllowedFile(filename: string): (r: bool)
    ensures r <==> exists i :: IsLastDot(filename, i) && Lower(filename[i + 1..]) in ALLOWED_EXTENSIONS
  {
    match LastIndexOf(filename, '.')
    case None => false
    case Some(k) =>
      assert IsLastDot(filename, k);
      LastDotUnique(filename, k);
      Lower(filename[k + 1..]) in ALLOWED_EXTENSIONS
  }

  /** Position `i` holds the last '.' of `s`. */
  predicate IsLastDot(s: string, i: int)
  {
    0 <= i < |s| && s[i] == '.' && '.' !in s[i + 1..]
  }

  lemma LastDotUnique(s: string, k: nat)
    requires IsLastDot(s, k)
    ensures forall i :: IsLastDot(s, i) ==> i == k
  {
    forall i | IsLastDot(s, i) ensures i == k {
      assert s[k] == '.' && s[i] == '.';
    }
  }

  /** Only the last extension counts: `photo.png.exe` is refused and `archive.exe.PNG` accepted. */
  lemma LastExtensionDecides(base: string, ext: string)
    requires '.' !in ext
    ensures AllowedFile(base + "." + ext) <==> Lower(ext) in ALLOWED_EXTENSIONS
  {
    var s := base + "." + ext;
    assert s[|base|] == '.';
    assert s[|base| + 1..] == ext;
    assert IsLastDot(s, |base|);
    LastDotUnique(s, |base|);
  }

  /**
   * `os.path.splitext`: the extension starts at the last '.' after the last
   * '/', unless only dots precede it in that last component (a leading dot
   * belongs to the name).
   */
  function SplitExt(p: string): (r: (string, string))
    ensures r.0 + r.1 == p
    ensures r.1 == [] || (r.1[0] == '.' && '.' !in r.1[1..] && '/' !in r.1)
  {
    var sepIndex: int := match LastIndexOf(p, '/') case None => -1 case Some(k) => k;
    match LastIndexOf(p, '.')
    case None => (p, [])
    case Some(dotIndex) =>
      if dotIndex > sepIndex && exists j :: sepIndex + 1 <= j < dotIndex && p[j] != '.' then
        assert p[..dotIndex] + p[dotIndex..] == p;
        assert '/' !in p[dotIndex..] by {
          if sepIndex >= 0 {
            forall j | dotIndex <= j < |p| ensures p[j] != '/' {
              assert p[j] == p[sepIndex + 1..][j - sepIndex - 1];
            }
          }
        }
        assert p[dotIndex..][1..] == p[dotIndex + 1..];
        (p[..dotIndex], p[dotIndex..])
      else (p, [])
  }

  /**
   * Where an upload is saved: `<user id>_<name><ext>` under the picture
   * folder, `secured` being what `secure_filename` made of the uploaded
   * name.
   */
  function UploadPath(userId: nat, secured: string): (r: string)
    ensures r == UPLOAD_PREFIX + NatToString(userId) + "_" + secured
  {
    var parts := SplitExt(secured);
    var name := parts.0;
    var ext := parts.1;
    assert NatToString(userId) + "_" + name + ext == NatToString(userId) + "_" + secured;
    UPLOAD_PREFIX + NatToString(userId) + "_" + name + ext
  }

  /** Pictures of two different users never share a path. */
  lemma UploadPathsSeparateUsers(a: nat, b: nat, secured: string, secured': string)
    requires UploadPath(a, secured) == UploadPath(b, secured')
    ensures a == b && secured == secured'
  {
    var x := NatToString(a) + "_" + secured;
    var y := NatToString(b) + "_" + secured';
    PrefixedName(a, secured);
    PrefixedName(b, secured');
    assert x == (UPLOAD_PREFIX + x)[|UPLOAD_PREFIX|..];
    assert y == (UPLOAD_PREFIX + y)[|UPLOAD_PREFIX|..];
    NatToStringPrefixFree(a, b, secured, secured');
  }

  /** The path is the folder followed by the user's name for the file. */
  lemma PrefixedName(userId: nat, secured: string)
    ensures UploadPath(userId, secured) == UPLOAD_PREFIX + (NatToString(userId) + "_" + secured)
  {
    var n := NatToString(userId);
    assert UPLOAD_PREFIX + n + "_" + secured == UPLOAD_PREFIX + (n + "_" + secured);
  }

  lemma NatToStringPrefixFree(a: nat, b: nat, s: string, t: string)
    requires NatToString(a) + "_" + s == NatToString(b) + "_" + t
    ensures a == b && s == t
  {
    var x := NatToString(a);
    var y := NatToString(b);
    var u := x + "_" + s;
    assert u[|x|] == '_' && u[|y|] == '_';
    assert x == u[..|x|] && y == (y + "_" + t)[..|y|];
    NatToStringInjective(a, b);
    assert s == u[|x| + 1..];
  }

  lemma {:induction false} NatToStringInjective(a: nat, b: nat)
    requires NatToString(a) == NatToString(b)
    ensures a == b
    decreases a
  {
    if a >= 10 && b >= 10 {
      var x := NatToString(a);
      assert x == NatToString(a / 10) + [DigitChar(a % 10)];
      assert x == NatToString(b / 10) + [DigitChar(b % 10)];
      assert x[..|x| - 1] == NatToString(a / 10) && x[..|x| - 1] == NatToString(b / 10);
      NatToStringInjective(a / 10, b / 10);
    }
  }

  // ------------------------------------------------------------ reading

  /** The interests as the API returns them: the stored text split at every comma, without stripping. */
  function InterestsOut(stored: Option<string>): (r: seq<string>)
    ensures !Truthy(stored) ==> r == []
    ensures Truthy(stored) ==> |r| >= 1 && Join(r, ",") == stored.value
    ensures Truthy(stored) ==> forall i :: 0 <= i < |r| ==> ',' !in r[i]
  {
    if Truthy(stored) then Split(stored.value, ',') else []
  }

  /** The picture as the API returns it: the stored path without its leading slashes, on the backend's host. */
  function PictureUrl(stored: Option<string>): (r: Option<string>)
    ensures r.None? <==> !Truthy(stored)
    ensures r.Some? ==> StartsWith(r.value, PICTURE_HOST)
                        && var rest := r.value[|PICTURE_HOST|..];
                           (rest == [] || rest[0] != '/')
                           && exists k :: 0 <= k <= |stored.value| && rest == stored.value[k..]
                                          && forall j :: 0 <= j < k ==> stored.value[j] == '/'
  {
    if Truthy(stored) then
      var path := stored.value[LeadingSlashes(stored.value)..];
      assert (PICTURE_HOST + path)[|PICTURE_HOST|..] == path;
      Some(PICTURE_HOST + path)
    else None
  }

  /** The number of '/' a path starts with (`lstrip('/')`). */
  function LeadingSlashes(s: string): (n: nat)
    ensures n <= |s|
    ensures forall j :: 0 <= j < n ==> s[j] == '/'
    ensures n == |s| || s[n] != '/'
  {
    if s != [] && s[0] == '/' then 1 + LeadingSlashes(s[1..]) else 0
  }

  /** An upload path is served under the host exactly once: the URL is the host followed by the path without its slash. */
  lemma UploadPictureUrl(userId: nat, secured: string)
    ensures PictureUrl(Some(UploadPath(userId, secured)))
            == Some(PICTURE_HOST + "uploads/profile_pics/" + NatToString(userId) + "_" + secured)
  {
    var p := UploadPath(userId, secured);
    var folder := "uploads/profile_pics/";
    var n := NatToString(userId) + "_" + secured;
    var q := folder + n;
    PrefixedName(userId, secured);
    UnderUploadFolder(n);
    PictureUrlOfRooted(q);
    Regrouped(PICTURE_HOST, folder, NatToString(userId), secured);
  }

  /** A name under the upload folder is one slash followed by the folder's name without it. */
  lemma UnderUploadFolder(n: string)
    ensures UPLOAD_PREFIX + n == ['/'] + ("uploads/profile_pics/" + n)
    ensures ("uploads/profile_pics/" + n)[0] == 'u'
  {
    var folder := "uploads/profile_pics/";
    assert UPLOAD_PREFIX == ['/'] + folder;
    assert (['/'] + folder) + n == ['/'] + (folder + n);
  }

  /** The URL of an upload, regrouped as host, folder, user and file name. */
  lemma Regrouped(host: string, folder: string, user: string, name: string)
    ensures host + (folder + (user + "_" + name)) == host + folder + user + "_" + name
  {
    assert host + (folder + ((user + "_") + name)) == (host + folder) + ((user + "_") + name);
    assert (host + folder) + ((user + "_") + name) == ((host + folder) + (user + "_")) + name;
    assert (host + folder) + (user + "_") == ((host + folder) + user) + "_";
  }

  /** A path with one leading slash is served as the host followed by the rest of the path. */
  lemma PictureUrlOfRooted(q: string)
    requires q != [] && q[0] != '/'
    ensures PictureUrl(Some(['/'] + q)) == Some(PICTURE_HOST + q)
  {
    var p := ['/'] + q;
    assert p[1..] == q;
    assert LeadingSlashes(q) == 0;
    assert LeadingSlashes(p) == 1;
  }

  /** The `profile` object of `get_profile`. */
  datatype ProfileView = ProfileView(bio: Option<string>, interests: seq<string>, specialization: Option<string>,
                                     level: Option<string>, schedule: Option<string>, picture: Option<string>)

  /**
   * `get_profile`: without a stored profile the defaults (empty texts, no
   * interests, the beginner level, no picture); otherwise the stored
   * columns, the interests split at commas and the picture as a URL.
   */
  function GetProfile(profiles: map<nat, Profile>, userId: nat): (r: ProfileView)
    ensures userId !in profiles ==> r == ProfileView(Some(""), [], Some(""), Some(DEFAULT_LEVEL), Some(""), None)
    ensures userId in profiles ==>
              var p := profiles[userId];
              r.bio == p.bio && r.specialization == p.specialization && r.level == p.level
              && r.schedule == p.schedule
              && (Truthy(p.interests) <==> r.interests != [])
              && (Truthy(p.interests) ==> Join(r.interests, ",") == p.interests.value)
              && (forall i :: 0 <= i < |r.interests| ==> ',' !in r.interests[i])
              && (r.picture.Some? <==> Truthy(p.picture))
              && (r.picture.Some? ==> StartsWith(r.picture.value, PICTURE_HOST))
  {
    if userId !in profiles then ProfileView(Some(""), [], Some(""), Some(DEFAULT_LEVEL), Some(""), None)
    else
      var p := profiles[userId];
      ProfileView(p.bio, InterestsOut(p.interests), p.specialization, p.level, p.schedule, PictureUrl(p.picture))
  }

  // ---------------------------------------------------------- request bodies

  /** A value of the request body: text, a list of texts, or null. */
  datatype Value = Text(text: string) | Items(items: seq<string>) | Null

  /** The column a body value is stored as. */
  function Column(v: Value): (r: Option<string>)
    ensures v.Null? <==> r.None?
    ensures v.Text? ==> r == Some(v.text)
  {
    match v
    case Text(s) => Some(s)
    case Items(xs) => Some(Join(xs, INTERESTS_SEPARATOR))
    case Null => None
  }

  /** The interests column written for a list: the items joined with ", ". */
  function InterestsColumn(v: Value): (r: Option<string>)
    ensures v.Items? ==> r == Some(Join(v.items, INTERESTS_SEPARATOR))
    ensures !v.Items? ==> r == Column(v)
  {
    Column(v)
  }

  /** Every item after the first, with a space in front. */
  function SpacePrefixed(parts: seq<string>): (r: seq<string>)
    ensures |r| == |parts|
    ensures |parts| > 0 ==> r[0] == parts[0]
    ensures forall i :: 0 < i < |parts| ==> r[i] == " " + parts[i]
  {
    if parts == [] then [] else [parts[0]] + seq(|parts| - 1, i requires 0 <= i < |parts| - 1 => " " + parts[i + 1])
  }

  lemma {:induction false} JoinWithSpace(parts: seq<string>)
    ensures Join(parts, INTERESTS_SEPARATOR) == Join(SpacePrefixed(parts), ",")
  {
    if |parts| >= 2 {
      var tail := parts[1..];
      JoinWithSpace(tail);
      var sp := SpacePrefixed(parts);
      assert sp[1..] == [" " + parts[1]] + SpacePrefixed(tail)[1..];
      JoinSpaceHead(tail);
      assert Join(sp, ",") == sp[0] + "," + Join(sp[1..], ",");
      assert Join(sp[1..], ",") == " " + Join(SpacePrefixed(tail), ",");
    }
  }

  lemma JoinSpaceHead(parts: seq<string>)
    requires |parts| >= 1
    ensures Join(SpacePrefixed(parts)[0 := " " + parts[0]], ",") == " " + Join(SpacePrefixed(parts), ",")
  {
    var sp := SpacePrefixed(parts);
    if |parts| >= 2 {
      assert sp[0 := " " + parts[0]][1..] == sp[1..];
    }
  }

  /**
   * A list of interests saved by the routes comes back, when it is not
   * empty and no item holds a comma, as the same items with a space in
   * front of every item after the first.
   */
  lemma InterestsComeBackSpaced(parts: seq<string>)
    requires |parts| >= 1 && Join(parts, INTERESTS_SEPARATOR) != ""
    requires forall i :: 0 <= i < |parts| ==> ',' !in parts[i]
    ensures InterestsOut(InterestsColumn(Items(parts))) == SpacePrefixed(parts)
  {
    JoinWithSpace(parts);
    var sp := SpacePrefixed(parts);
    forall i | 0 <= i < |sp| ensures ',' !in sp[i] {
      if i > 0 {
        assert sp[i] == " " + parts[i];
      }
    }
    SplitJoin(sp, ',');
  }

  /** The body a request carries, by its content type; `None` for an unsupported type (415). */
  function RequestData(contentType: Option<string>, form: map<string, string>, json: map<string, Value>)
    : (r: Option<map<string, Value>>)
    ensures contentType.Some? && StartsWith(contentType.value, "multipart/form-data")
            ==> r == Some(map k | k in form :: Text(form[k]))
    ensures r.None? <==> !(Truthy(contentType) && (StartsWith(contentType.value, "multipart/form-data")
                                                    || StartsWith(contentType.value, "application/json")))
  {
    if Truthy(contentType) && StartsWith(contentType.value, "multipart/form-data") then
      Some(map k | k in form :: Text(form[k]))
    else if Truthy(contentType) && StartsWith(contentType.value, "application/json") then Some(json)
    else None
  }

  /** The path a multipart upload is stored under, when its file name is allowed. */
  function UploadedPicture(contentType: Option<string>, userId: nat, fileName: Option<string>,
                           secure: string -> string): (r: Option<string>)
    ensures r.Some? <==> Truthy(contentType) && StartsWith(contentType.value, "multipart/form-data")
                         && Truthy(fileName) && AllowedFile(fileName.value)
    ensures r.Some? ==> r.value == UploadPath(userId, secure(fileName.value))
  {
    if Truthy(contentType) && StartsWith(contentType.value, "multipart/form-data")
       && Truthy(fileName) && AllowedFile(fileName.value)
    then Some(UploadPath(userId, secure(fileName.value)))
    else None
  }

  // ---------------------------------------------------------------- writes

  /**
   * `update_profile`'s merge: each of bio, interests, specialization, level
   * and schedule is replaced only when the body carries it; the picture
   * only when one was uploaded.
   */
  function Merge(p: Profile, data: map<string, Value>, picture: Option<string>): (r: Profile)
    ensures r.userId == p.userId
    ensures r.bio == (if "bio" in data then Column(data["bio"]) else p.bio)
    ensures r.interests == (if "interests" in data then InterestsColumn(data["interests"]) else p.interests)
    ensures r.specialization == (if "specialization" in data then Column(data["specialization"]) else p.specialization)
    ensures r.level == (if "level" in data then Column(data["level"]) else p.level)
    ensures r.schedule == (if "schedule" in data then Column(data["schedule"]) else p.schedule)
    ensures r.picture == (if picture.Some? then picture else p.picture)
  {
    var p1 := if "bio" in data then p.(bio := Column(data["bio"])) else p;
    var p2 := if "interests" in data then p1.(interests := InterestsColumn(data["interests"])) else p1;
    var p3 := if "specialization" in data then p2.(specialization := Column(data["specialization"])) else p2;
    var p4 := if "level" in data then p3.(level := Column(data["level"])) else p3;
    var p5 := if "schedule" in data then p4.(schedule := Column(data["schedule"])) else p4;
    if picture.Some? then p5.(picture := picture) else p5
  }

  /** An update with no known field and no upload changes nothing; applying the same update twice is applying it once. */
  lemma MergeProperties(p: Profile, data: map<string, Value>, picture: Option<string>)
    ensures (forall k :: k in data ==> k !in {"bio", "interests", "specialization", "level", "schedule"}) && picture.None?
            ==> Merge(p, data, picture) == p
    ensures Merge(Merge(p, data, picture), data, picture) == Merge(p, data, picture)
  {
    if (forall k :: k in data ==> k !in {"bio", "interests", "specialization", "level", "schedule"}) && picture.None? {
      assert "bio" !in data && "interests" !in data && "specialization" !in data;
      assert "level" !in data && "schedule" !in data;
    }
  }

  /** The row `create_profile` adds: defaults for the fields the body leaves out. */
  function NewProfile(userId: nat, data: map<string, Value>, picture: Option<string>): (r: Profile)
    ensures r.userId == userId && r.picture == picture
    ensures r.bio == (if "bio" in data then Column(data["bio"]) else Some(""))
    ensures r.interests == (if "interests" in data then InterestsColumn(data["interests"]) else Some(""))
    ensures r.specialization == (if "specialization" in data then Column(data["specialization"]) else Some(""))
    ensures r.level == (if "level" in data then Column(data["level"]) else Some(DEFAULT_LEVEL))
    ensures r.schedule == (if "schedule" in data then Column(data["schedule"]) else Some(""))
  {
    Merge(Profile(userId, Some(""), Some(""), Some(""), Some(DEFAULT_LEVEL), Some(""), None), data, picture)
  }

  /**
   * `create_profile`: an unsupported content type (415), an empty body
   * (400) (a multipart request carrying only a file counts as empty), an
   * existing profile (400); otherwise the new row (201). `failure` is the
   * text of a database error, on which nothing is stored (500).
   */
  method CreateProfile(db: Database, current: User, contentType: Option<string>, form: map<string, string>,
                       json: map<string, Value>, fileName: Option<string>, secure: string -> string,
                       failure: Option<string>) returns (reply: Reply)
    requires db.Valid()
    modifies db
    ensures db.Valid()
    ensures RequestData(contentType, form, json).None? ==> reply == UNSUPPORTED_MEDIA
    ensures RequestData(contentType, form, json) == Some(map[]) ==> reply == Reply(400, "No input data provided")
    ensures (RequestData(contentType, form, json).Some? && RequestData(contentType, form, json) != Some(map[])
             && current.id in old(db.profiles)) ==> reply == Reply(400, "Profile already exists")
    ensures reply == Reply(400, "Profile already exists") ==> current.id in old(db.profiles)
    ensures reply.code == 201 <==>
              RequestData(contentType, form, json).Some? && RequestData(contentType, form, json) != Some(map[])
              && current.id !in old(db.profiles) && failure.None?
    ensures reply.code == 201 ==>
              reply.text == "Profile created successfully"
              && db.profiles == old(db.profiles)[current.id := NewProfile(current.id,
                                  RequestData(contentType, form, json).value,
                                  UploadedPicture(contentType, current.id, fileName, secure))]
    ensures reply.code != 201 ==> db.profiles == old(db.profiles)
    ensures reply.code == 500 ==> reply.text == "Failed to create profile: " + failure.value
    ensures db.users == old(db.users) && db.connections == old(db.connections) && db.messages == old(db.messages)
    ensures db.notifications == old(db.notifications) && db.challenges == old(db.challenges)
  {
    var data := RequestData(contentType, form, json);
    if data.None? {
      return UNSUPPORTED_MEDIA;
    }
    var picture := UploadedPicture(contentType, current.id, fileName, secure);
    if data.value == map[] {
      return Reply(400, "No input data provided");
    }
    if current.id in db.profiles {
      return Reply(400, "Profile already exists");
    }
    if failure.Some? {
      return Reply(500, "Failed to create profile: " + failure.value);
    }
    db.profiles := db.profiles[current.id := NewProfile(current.id, data.value, picture)];
    reply := Reply(201, "Profile created successfully");
  }

  /**
   * `update_profile`: without a profile the request is handled by
   * `create_profile`; otherwise an unsupported content type (415), and then
   * the merge (200). `failure` is the text of a database error, on which
   * nothing is stored (500).
   */
  method UpdateProfile(db: Database, current: User, contentType: Option<string>, form: map<string, string>,
                       json: map<string, Value>, fileName: Option<string>, secure: string -> string,
                       failure: Option<string>) returns (reply: Reply)
    requires db.Valid()
    modifies db
    ensures db.Valid()
    ensures RequestData(contentType, form, json).None? ==> reply == UNSUPPORTED_MEDIA
    ensures current.id in old(db.profiles) && RequestData(contentType, form, json).Some? ==>
              if failure.Some? then
                reply == Reply(500, "Failed to update profile: " + failure.value) && db.profiles == old(db.profiles)
              else
                reply == Reply(200, "Profile updated successfully")
                && db.profiles == old(db.profiles)[current.id := Merge(old(db.profiles)[current.id],
                                    RequestData(contentType, form, json).value,
                                    UploadedPicture(contentType, current.id, fileName, secure))]
    ensures current.id in old(db.profiles) && reply.code != 200 ==> db.profiles == old(db.profiles)
    ensures reply != Reply(400, "Profile already exists")
    ensures current.id !in old(db.profiles) ==>
              (reply.code == 201 <==>
                 RequestData(contentType, form, json).Some? && RequestData(contentType, form, json) != Some(map[])
                 && failure.None?)
    ensures current.id !in old(db.profiles) && reply.code == 201 ==>
              db.profiles == old(db.profiles)[current.id := NewProfile(current.id,
                               RequestData(contentType, form, json).value,
                               UploadedPicture(contentType, current.id, fileName, secure))]
    ensures current.id !in old(db.profiles) && reply.code != 201 ==> db.profiles == old(db.profiles)
    ensures db.users == old(db.users) && db.connections == old(db.connections) && db.messages == old(db.messages)
    ensures db.notifications == old(db.notifications) && db.challenges == old(db.challenges)
  {
    if current.id !in db.profiles {
      reply := CreateProfile(db, current, contentType, form, json, fileName, secure, failure);
      return;
    }
    var data := RequestData(contentType, form, json);
    if data.None? {
      return UNSUPPORTED_MEDIA;
    }
    var picture := UploadedPicture(contentType, current.id, fileName, secure);
    if failure.Some? {
      return Reply(500, "Failed to update profile: " + failure.value);
    }
    db.profiles := db.profiles[current.id := Merge(db.profiles[current.id], data.value, picture)];
    reply := Reply(200, "Profile updated successfully");
  }

  /** After an update, reading the profile shows each field the body carried and the old value of every other. */
  lemma UpdateThenRead(profiles: map<nat, Profile>, userId: nat, data: map<string, Value>, picture: Option<string>)
    requires userId in profiles
    ensures var r := GetProfile(profiles[userId := Merge(profiles[userId], data, picture)], userId);
            var old_ := GetProfile(profiles, userId);
            r.bio == (if "bio" in data then Column(data["bio"]) else old_.bio)
            && r.specialization == (if "specialization" in data then Column(data["specialization"]) else old_.specialization)
            && r.level == (if "level" in data then Column(data["level"]) else old_.level)
            && r.schedule == (if "schedule" in data then Column(data["schedule"]) else old_.schedule)
            && ("interests" !in data ==> r.interests == old_.interests)
            && (picture.None? ==> r.picture == old_.picture)
  {
  }
}
