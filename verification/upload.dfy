/**
 * `POST /api/upload`: an authenticated user uploads a profile photo or a resume. The file is
 * validated, stored under a generated path, and its public URL written to one field of the
 * caller's candidate profile.
 */
module UploadRoute {
  import opened Wrappers
  import opened Seqs
  import opened Strings
  import opened Model
  import opened Database

  const MiB := 1024 * 1024
  const PhotoTypes := ["image/jpeg", "image/png", "image/webp"]

  /** An uploaded file: its name, MIME type and size in bytes. */
  datatype File = File(name: string, mime: string, size: nat)

  /** The form fields `file` and `type`. */
  datatype Form = Form(file: Option<File>, kind: Option<string>)

  datatype Kind = Photo | Resume

  /** Where the validated file goes. */
  datatype Target = Target(kind: Kind, path: string)

  /** The response body: the public URL and the `type` field as sent. */
  datatype Uploaded = Uploaded(url: string, kind: string)

  function KindName(k: Kind): string
  {
    match k
    case Photo => "photo"
    case Resume => "resume"
  }

  function Folder(k: Kind): string
  {
    match k
    case Photo => "photos"
    case Resume => "resumes"
  }

  /** `name.split('.').pop()`: the text after the last dot, or the whole name without one. */
  function Extension(name: string): string
  {
    Last(Split(name, '.'))
  }

  /** The extension has no dot and ends the name; it follows the last dot, if there is one. */
  lemma ExtensionAfterLastDot(name: string)
    ensures var e := Extension(name);
      && '.' !in e
      && |e| <= |name| && name[|name| - |e|..] == e
      && ('.' in name ==> |e| < |name| && name[|name| - |e| - 1] == '.')
      && ('.' !in name ==> e == name)
  {
    SplitLast(name, '.');
  }

  /** `${userId}-${Date.now()}.${ext}` */
  function FileName(uid: UserId, now: nat, name: string): string
  {
    NatToString(uid) + "-" + NatToString(now) + "." + Extension(name)
  }

  /** `${folder}/${fileName}` */
  function StoragePath(k: Kind, uid: UserId, now: nat, name: string): string
  {
    Folder(k) + "/" + FileName(uid, now, name)
  }

  /** The guard chain; `now` is the millisecond clock read when the name is generated. */
  function Decide(session: Session, form: Form, now: nat): Reply<Target>
  {
    if session.None? then Fail(401, "Unauthorized")
    else if form.file.None? then Fail(400, "No file provided")
    else if !Present(form.kind) || form.kind.value !in ["photo", "resume"] then
      Fail(400, "Invalid file type. Must be 'photo' or 'resume'")
    else
      var file := form.file.value;
      if form.kind.value == "photo" && file.mime !in PhotoTypes then
        Fail(400, "Invalid image type. Only JPEG, PNG, and WebP are allowed.")
      else if form.kind.value == "photo" && file.size > 5 * MiB then
        Fail(400, "Image must be less than 5MB")
      else if form.kind.value == "resume" && file.mime != "application/pdf" then
        Fail(400, "Only PDF files are allowed for resumes")
      else if form.kind.value == "resume" && file.size > 10 * MiB then
        Fail(400, "Resume must be less than 10MB")
      else
        var k := if form.kind.value == "photo" then Photo else Resume;
        Ok(Target(k, StoragePath(k, session.value.id, now, file.name)))
  }

  /** The file rules: a JPEG, PNG or WebP photo of at most 5 MiB, or a PDF resume of at most 10 MiB. */
  predicate Acceptable(k: Kind, f: File)
  {
    match k
    case Photo => (f.mime == "image/jpeg" || f.mime == "image/png" || f.mime == "image/webp") && f.size <= 5242880
    case Resume => f.mime == "application/pdf" && f.size <= 10485760
  }

  /** Any signed-in caller, whatever their role, may upload exactly the acceptable files. */
  lemma AcceptedIff(session: Session, form: Form, now: nat)
    ensures Decide(session, form, now).Ok? <==>
      && session.Some? && form.file.Some? && form.kind.Some?
      && (exists k :: KindName(k) == form.kind.value && Acceptable(k, form.file.value))
  {
    if session.Some? && form.file.Some? && form.kind.Some? {
      var f := form.file.value;
      if form.kind.value == "photo" {
        assert KindName(Photo) == form.kind.value;
        assert Acceptable(Photo, f) <==> f.mime in PhotoTypes && f.size <= 5 * MiB;
      } else if form.kind.value == "resume" {
        assert KindName(Resume) == form.kind.value;
      } else {
        assert forall k :: KindName(k) != form.kind.value;
      }
    }
  }

  /**
   * An accepted file goes to `photos/` or `resumes/` under a name made of the caller's id,
   * the time and the original extension.
   */
  lemma StoredUnder(session: Session, form: Form, now: nat, k: Kind)
    requires Decide(session, form, now).Ok? && form.kind == Some(KindName(k))
    ensures Decide(session, form, now).body == Target(k, StoragePath(k, session.value.id, now, form.file.value.name))
  {
  }

  /** A photo of exactly 5 MiB and a resume of exactly 10 MiB are still accepted; one byte more is not. */
  lemma SizeLimitsInclusive(uid: UserId, name: string, now: nat)
    ensures Decide(Some(AuthUser(uid, None)), Form(Some(File(name, "image/png", 5242880)), Some("photo")), now).Ok?
    ensures Decide(Some(AuthUser(uid, None)), Form(Some(File(name, "image/png", 5242881)), Some("photo")), now)
         == Fail(400, "Image must be less than 5MB")
    ensures Decide(Some(AuthUser(uid, None)), Form(Some(File(name, "application/pdf", 10485760)), Some("resume")), now).Ok?
    ensures Decide(Some(AuthUser(uid, None)), Form(Some(File(name, "application/pdf", 10485761)), Some("resume")), now)
         == Fail(400, "Resume must be less than 10MB")
  {
  }

  /** The profile after storing `url` in the field for `k`, when the caller has a candidate profile. */
  function WithUrl(candidates: map<UserId, CandidateProfile>, uid: UserId, k: Kind, url: string)
    : map<UserId, CandidateProfile>
  {
    if uid !in candidates then candidates
    else match k
      case Photo => candidates[uid := candidates[uid].(photoUrl := Some(url))]
      case Resume => candidates[uid := candidates[uid].(resumeUrl := Some(url))]
  }

  /**
   * The profile write sets exactly one field, of the caller's profile only: `photo_url` for a
   * photo, `resume_url` for a resume. A caller without a candidate profile has nothing written.
   */
  lemma WritesOneField(candidates: map<UserId, CandidateProfile>, uid: UserId, k: Kind, url: string)
    ensures var c := WithUrl(candidates, uid, k, url);
      && c.Keys == candidates.Keys
      && (forall v :: v in candidates && v != uid ==> c[v] == candidates[v])
      && (uid in candidates && k == Photo ==> c[uid] == candidates[uid].(photoUrl := Some(url)))
      && (uid in candidates && k == Resume ==> c[uid] == candidates[uid].(resumeUrl := Some(url)))
  {
  }

  /**
   * The handler. The storage upload failing is `uploadFails`; the profile write failing is
   * `profileWriteFails`, whose error the handler ignores. `baseUrl` is the bucket's public
   * URL prefix.
   */
  method Post(st: Store, session: Session, form: Form, now: nat, baseUrl: string,
              uploadFails: bool, profileWriteFails: bool)
    returns (r: Reply<Uploaded>)
    requires st.Valid()
    modifies st
    ensures st.Valid()
    ensures var d := Decide(session, form, now);
      && (d.Fail? ==> r == Fail(d.code, d.message) && st.View() == old(st.View()))
      && (d.Ok? && uploadFails ==> r == Fail(500, "Failed to upload file") && st.View() == old(st.View()))
      && (d.Ok? && !uploadFails ==>
            && r == Ok(Uploaded(baseUrl + d.body.path, form.kind.value))
            && st.View() == old(st.View()).(candidates :=
                 if profileWriteFails then old(st.candidates)
                 else WithUrl(old(st.candidates), session.value.id, d.body.kind, baseUrl + d.body.path)))
  {
    if session.None? {
      return Fail(401, "Unauthorized");
    }
    if form.file.None? {
      return Fail(400, "No file provided");
    }
    if !Present(form.kind) || form.kind.value !in ["photo", "resume"] {
      return Fail(400, "Invalid file type. Must be 'photo' or 'resume'");
    }
    var file := form.file.value;
    var kind := form.kind.value;
    if kind == "photo" {
      if file.mime !in PhotoTypes {
        return Fail(400, "Invalid image type. Only JPEG, PNG, and WebP are allowed.");
      }
      if file.size > 5 * MiB {
        return Fail(400, "Image must be less than 5MB");
      }
    } else if kind == "resume" {
      if file.mime != "application/pdf" {
        return Fail(400, "Only PDF files are allowed for resumes");
      }
      if file.size > 10 * MiB {
        return Fail(400, "Resume must be less than 10MB");
      }
    }

    var ext := Last(Split(file.name, '.'));
    var fileName := NatToString(session.value.id) + "-" + NatToString(now) + "." + ext;
    var folder := if kind == "photo" then "photos" else "resumes";
    var filePath := folder + "/" + fileName;
    var k := if kind == "photo" then Photo else Resume;
    assert Decide(session, form, now) == Ok(Target(k, filePath));

    if uploadFails {
      return Fail(500, "Failed to upload file");
    }
    var publicUrl := baseUrl + filePath;
    WriteUrl(st, session.value.id, k, publicUrl, profileWriteFails);
    return Ok(Uploaded(publicUrl, kind));
  }

  /**
   * The profile update: `photo_url` or `resume_url` of the caller's candidate profile becomes
   * `url`; it touches no row when the caller has no candidate profile, and nothing at all when
   * the write fails.
   */
  method WriteUrl(st: Store, uid: UserId, k: Kind, url: string, writeFails: bool)
    requires st.Valid()
    modifies st
    ensures st.Valid()
    ensures st.View() == old(st.View()).(candidates :=
      if writeFails then old(st.candidates) else WithUrl(old(st.candidates), uid, k, url))
  {
    if !writeFails && uid in st.candidates {
      match k
      case Photo => st.PutCandidate(uid, st.candidates[uid].(photoUrl := Some(url)));
      case Resume => st.PutCandidate(uid, st.candidates[uid].(resumeUrl := Some(url)));
    }
  }
}
