/** The decision logic of the profile form (src/Views/cadastro.tsx) as
    functions: postal-code (CEP) normalisation and the lookup reply, the
    file-extension and storage-path naming, the profile record, and the
    submit pipeline with every backend call replaced by its reply. */
module ProfileForm {
  import opened Common
  import opened SessionModel

  // ---------------------------------------------------------------------
  // Postal code
  // ---------------------------------------------------------------------

  /** `\d` in a JavaScript regular expression: an ASCII digit. */
  predicate IsDigit(c: char)
  {
    '0' <= c <= '9'
  }

  predicate AllDigits(s: string)
  {
    forall i :: 0 <= i < |s| ==> IsDigit(s[i])
  }

  /** `replace(/\D/g, "")`: the digits of `s`, in order. */
  function StripNonDigits(s: string): (r: string)
    ensures |r| <= |s|
    ensures AllDigits(r)
    ensures forall c :: IsDigit(c) ==> multiset(r)[c] == multiset(s)[c]
  {
    if s == [] then []
    else
      var rest := StripNonDigits(s[1..]);
      assert s == [s[0]] + s[1..];
      if IsDigit(s[0]) then [s[0]] + rest else rest
  }

  /** Stripping distributes over concatenation, so the digits keep their
      order. */
  lemma {:induction false} StripNonDigitsAppend(a: string, b: string)
    ensures StripNonDigits(a + b) == StripNonDigits(a) + StripNonDigits(b)
    decreases |a|
  {
    if a == [] {
      assert a + b == b;
    } else {
      assert (a + b)[0] == a[0];
      assert (a + b)[1..] == a[1..] + b;
      StripNonDigitsAppend(a[1..], b);
    }
  }

  /** A string of digits is left as it is. */
  lemma {:induction false} StripNonDigitsKeepsDigits(s: string)
    requires AllDigits(s)
    ensures StripNonDigits(s) == s
    decreases |s|
  {
    if s != [] {
      StripNonDigitsKeepsDigits(s[1..]);
    }
  }

  /** Stripping twice is stripping once. */
  lemma StripNonDigitsIdempotent(s: string)
    ensures StripNonDigits(StripNonDigits(s)) == StripNonDigits(s)
  {
    StripNonDigitsKeepsDigits(StripNonDigits(s));
  }

  /** A CEP has eight digits. */
  const CepLength := 8

  /** The code `handleCepBlur` looks up, if any: the field's digits when
      there are exactly eight of them, otherwise nothing. */
  function CepQuery(fieldText: string): (cep: Option<string>)
    ensures cep.Some? <==> |StripNonDigits(fieldText)| == CepLength
    ensures cep.Some? ==> |cep.value| == CepLength && AllDigits(cep.value)
    ensures cep.Some? ==> cep.value == StripNonDigits(fieldText)
  {
    var digits := StripNonDigits(fieldText);
    if |digits| == CepLength then Some(digits) else None
  }

  /** Punctuation anywhere in the field does not change the lookup. */
  lemma CepQueryIgnoresNonDigit(before: string, c: char, after: string)
    requires !IsDigit(c)
    ensures CepQuery(before + [c] + after) == CepQuery(before + after)
  {
    assert StripNonDigits([c]) == [] by {
      assert [c][1..] == [];
    }
    calc {
      StripNonDigits(before + [c] + after);
      { StripNonDigitsAppend(before + [c], after); }
      StripNonDigits(before + [c]) + StripNonDigits(after);
      { StripNonDigitsAppend(before, [c]); }
      StripNonDigits(before) + [] + StripNonDigits(after);
      { assert StripNonDigits(before) + [] == StripNonDigits(before); }
      StripNonDigits(before) + StripNonDigits(after);
      { StripNonDigitsAppend(before, after); }
      StripNonDigits(before + after);
    }
  }

  /** The lookup request for a CEP. */
  function ViaCepUrl(cep: string): string
  {
    "https://viacep.com.br/ws/" + cep + "/json/"
  }

  /** What the lookup does: a non-ok status or a throw (network, JSON), or
      a JSON body that either carries `erro` or the address parts. */
  datatype CepReply =
    | CepNotOk
    | CepThrew
    | CepBody(erro: bool, logradouro: Option<string>, localidade: Option<string>, uf: Option<string>)

  /** The street, city and region fields. */
  datatype Address = Address(street: string, city: string, region: string)

  const CepNotFound := "CEP não encontrado."
  const CepLookupFailed := "Falha ao buscar CEP."

  /** The address fields and the error message after a lookup. */
  datatype CepResult = CepResult(address: Address, message: Option<string>)

  /** The reply applied to the form: an `erro` body clears all three address
      fields with "not found"; a good body fills them, "" for missing parts,
      and leaves the message cleared; a failed request keeps the address and
      reports the failure. */
  function ApplyCepReply(before: Address, reply: CepReply): (r: CepResult)
    ensures r.message.None? <==> reply.CepBody? && !reply.erro
    ensures !reply.CepBody? ==> r.address == before && r.message == Some(CepLookupFailed)
    ensures reply.CepBody? && reply.erro ==>
      r.address == Address("", "", "") && r.message == Some(CepNotFound)
    ensures reply.CepBody? && !reply.erro ==>
      r.address == Address(OrEmpty(reply.logradouro), OrEmpty(reply.localidade), OrEmpty(reply.uf))
  {
    match reply
    case CepBody(erro, street, city, uf) =>
      if erro then CepResult(Address("", "", ""), Some(CepNotFound))
      else CepResult(Address(OrEmpty(street), OrEmpty(city), OrEmpty(uf)), None)
    case _ => CepResult(before, Some(CepLookupFailed))
  }

  // ---------------------------------------------------------------------
  // Storage paths
  // ---------------------------------------------------------------------

  /** `name.split(".").pop()`: the text after the last ".", or the whole
      name when it has none. */
  function FileExtension(name: string): string
  {
    if name == [] || name[|name| - 1] == '.' then []
    else FileExtension(name[..|name| - 1]) + [name[|name| - 1]]
  }

  /** The extension is the longest suffix of the name without a dot: it
      has no dot, it ends the name, and it is preceded by a dot unless it
      is the whole name. */
  lemma {:induction false} FileExtensionIsLastPart(name: string)
    ensures '.' !in FileExtension(name)
    ensures |FileExtension(name)| <= |name|
    ensures FileExtension(name) == name[|name| - |FileExtension(name)|..]
    ensures |FileExtension(name)| < |name| ==> name[|name| - |FileExtension(name)| - 1] == '.'
  {
    if name != [] && name[|name| - 1] != '.' {
      // The split at the last '.': `name` is `init` and its last character,
      // and the extension grows by that character.
      var init, last := name[..|name| - 1], name[|name| - 1];
      assert name == init + [last];
      FileExtensionIsLastPart(init);
      var e := FileExtension(init);
      assert FileExtension(name) == e + [last];
      assert '.' !in e + [last];
      assert name[|name| - |e| - 1..] == init[|init| - |e|..] + [last];
      if |e| < |init| {
        assert name[|name| - |e| - 2] == init[|init| - |e| - 1];
      }
    }
  }

  /** A name without a dot is its own extension. */
  lemma {:induction false} FileExtensionOfUndotted(name: string)
    requires '.' !in name
    ensures FileExtension(name) == name
  {
    if name != [] {
      var init := name[..|name| - 1];
      assert '.' !in init by {
        forall i | 0 <= i < |init| ensures init[i] != '.' { assert init[i] == name[i]; }
      }
      FileExtensionOfUndotted(init);
      assert name == init + [name[|name| - 1]];
    }
  }

  /** The extension of `stem.ext` is `ext` when `ext` has no dot. */
  lemma FileExtensionOfDotted(stem: string, ext: string)
    requires '.' !in ext
    ensures FileExtension(stem + "." + ext) == ext
  {
    var n := stem + "." + ext;
    var e := FileExtension(n);
    FileExtensionIsLastPart(n);
    assert n[|n| - |ext| - 1] == '.';
    if |e| != |ext| {
      assert false;
    }
    assert ext == n[|n| - |ext|..];
  }

  /** A file in a storage bucket. */
  datatype StorageObject = StorageObject(bucket: string, path: string)

  const AvatarBucket := "avatars"
  const BannerBucket := "banners"

  /** `<userId>/<stem>.<extension of fileName>`. */
  function ImagePath(userId: string, stem: string, fileName: string): string
  {
    userId + "/" + stem + "." + FileExtension(fileName)
  }

  /** The avatar goes to `avatars` under `<id>/avatar.<ext>`. */
  function AvatarObject(userId: string, fileName: string): (o: StorageObject)
    ensures o.bucket == AvatarBucket && o.path == ImagePath(userId, "avatar", fileName)
  {
    StorageObject(AvatarBucket, ImagePath(userId, "avatar", fileName))
  }

  /** The banner goes to `banners` under `<id>/banner.<ext>`. */
  function BannerObject(userId: string, fileName: string): (o: StorageObject)
    ensures o.bucket == BannerBucket && o.path == ImagePath(userId, "banner", fileName)
  {
    StorageObject(BannerBucket, ImagePath(userId, "banner", fileName))
  }

  /** The stored path keeps the uploaded file's extension. */
  lemma ImagePathKeepsExtension(userId: string, stem: string, fileName: string)
    ensures FileExtension(ImagePath(userId, stem, fileName)) == FileExtension(fileName)
  {
    assert ImagePath(userId, stem, fileName) == (userId + "/" + stem) + "." + FileExtension(fileName);
    FileExtensionIsLastPart(fileName);
    FileExtensionOfDotted(userId + "/" + stem, FileExtension(fileName));
  }

  /** A string split at the first occurrence of a separator that the
      first part does not contain splits only one way. */
  lemma SplitAtFirst(a: string, b: string, c: string, d: string, sep: char)
    requires sep !in a && sep !in c
    requires a + [sep] + b == c + [sep] + d
    ensures a == c && b == d
  {
    var p := a + [sep] + b;
    assert p == c + [sep] + d;
    assert p[|a|] == sep && p[|c|] == sep;
    assert forall i :: 0 <= i < |a| ==> p[i] == a[i] != sep;
    assert forall i :: 0 <= i < |c| ==> p[i] == c[i] != sep;
    assert |a| == |c|;
    assert a == p[..|a|] == c;
    assert b == p[|a| + 1..] == d;
  }

  /** `id/stem.ext` determines its three parts when the identifier has no
      slash and the stem no dot. */
  lemma PathPartsUnique(id1: string, stem1: string, e1: string, id2: string, stem2: string, e2: string)
    requires '/' !in id1 && '/' !in id2 && '.' !in stem1 && '.' !in stem2
    requires id1 + "/" + stem1 + "." + e1 == id2 + "/" + stem2 + "." + e2
    ensures id1 == id2 && stem1 == stem2 && e1 == e2
  {
    assert id1 + "/" + stem1 + "." + e1 == id1 + ['/'] + (stem1 + ['.'] + e1);
    assert id2 + "/" + stem2 + "." + e2 == id2 + ['/'] + (stem2 + ['.'] + e2);
    SplitAtFirst(id1, stem1 + ['.'] + e1, id2, stem2 + ['.'] + e2, '/');
    SplitAtFirst(stem1, e1, stem2, e2, '.');
  }

  /** Paths are namespaced by the identity: two image paths are equal only
      for the same identity, the same stem and the same extension, so one
      user's upload never overwrites another's and the avatar and banner
      never share a path. */
  lemma ImagePathInjective(id1: string, stem1: string, f1: string, id2: string, stem2: string, f2: string)
    requires '/' !in id1 && '/' !in id2 && '.' !in stem1 && '.' !in stem2
    requires ImagePath(id1, stem1, f1) == ImagePath(id2, stem2, f2)
    ensures id1 == id2 && stem1 == stem2 && FileExtension(f1) == FileExtension(f2)
  {
    PathPartsUnique(id1, stem1, FileExtension(f1), id2, stem2, FileExtension(f2));
  }

  // ---------------------------------------------------------------------
  // Profile record
  // ---------------------------------------------------------------------

  /** The eight text fields of the form. */
  datatype ProfileFields = ProfileFields(
    username: string, firstName: string, lastName: string, about: string,
    postalCode: string, streetAddress: string, city: string, region: string)

  /** A row as written to the `users` table: column name to value. */
  type Row = map<string, string>

  const TextColumns: set<string> :=
    {"username", "first_name", "last_name", "about", "postal_code", "street_address", "city", "region"}

  /** The eight text columns with the form's values. */
  function TextRow(f: ProfileFields): (row: Row)
    ensures row.Keys == TextColumns
  {
    map["username" := f.username, "first_name" := f.firstName, "last_name" := f.lastName,
        "about" := f.about, "postal_code" := f.postalCode, "street_address" := f.streetAddress,
        "city" := f.city, "region" := f.region]
  }

  /** `...(url && { column: url })`: the column only when the URL is
      truthy. */
  function UrlColumn(column: string, url: Option<string>): (row: Row)
    ensures row.Keys == if Present(url) then {column} else {}
    ensures column in row ==> row[column] == url.value
  {
    if Present(url) then map[column := url.value] else map[]
  }

  /** `profileData`: the eight text fields always, `photo_url` and
      `cover_photo_url` only when that URL was produced. */
  function ProfileData(f: ProfileFields, photoUrl: Option<string>, coverUrl: Option<string>): (row: Row)
    ensures row.Keys == TextColumns
      + (if Present(photoUrl) then {"photo_url"} else {})
      + (if Present(coverUrl) then {"cover_photo_url"} else {})
    ensures forall c :: c in TextColumns ==> row[c] == TextRow(f)[c]
    ensures Present(photoUrl) ==> row["photo_url"] == photoUrl.value
    ensures Present(coverUrl) ==> row["cover_photo_url"] == coverUrl.value
  {
    ExtraColumnsAreNotText();
    var text := TextRow(f);
    var withPhoto := text + UrlColumn("photo_url", photoUrl);
    AddUrlColumn(text, "photo_url", photoUrl);
    AddUrlColumn(withPhoto, "cover_photo_url", coverUrl);
    withPhoto + UrlColumn("cover_photo_url", coverUrl)
  }

  /** Adding an optional URL column to a row keeps every other column. */
  lemma AddUrlColumn(row: Row, column: string, url: Option<string>)
    ensures (row + UrlColumn(column, url)).Keys == row.Keys + (if Present(url) then {column} else {})
    ensures forall c :: c in row && c != column ==> (row + UrlColumn(column, url))[c] == row[c]
    ensures Present(url) ==> (row + UrlColumn(column, url))[column] == url.value
    ensures !Present(url) ==> row + UrlColumn(column, url) == row
  {
  }

  /** The inserted row `{ id, email, ...profileData }`. */
  function InsertRow(id: string, email: string, data: Row): (row: Row)
    ensures row.Keys == data.Keys + {"id", "email"}
    ensures forall c :: c in data ==> row[c] == data[c]
    ensures "id" !in data ==> row["id"] == id
    ensures "email" !in data ==> row["email"] == email
  {
    map["id" := id, "email" := email] + data
  }

  /** A stored row as read back for edit mode; `None` is a null column. */
  datatype StoredProfile = StoredProfile(
    username: Option<string>, firstName: Option<string>, lastName: Option<string>,
    about: Option<string>, postalCode: Option<string>, streetAddress: Option<string>,
    city: Option<string>, region: Option<string>,
    photoUrl: Option<string>, coverPhotoUrl: Option<string>)

  /** A text column of a stored row, by its column name. */
  function StoredColumn(row: StoredProfile, column: string): Option<string>
  {
    match column
    case "username" => row.username
    case "first_name" => row.firstName
    case "last_name" => row.lastName
    case "about" => row.about
    case "postal_code" => row.postalCode
    case "street_address" => row.streetAddress
    case "city" => row.city
    case "region" => row.region
    case _ => None
  }

  /** The text fields edit mode copies from a stored row (`x || ""`). */
  function PrefilledFields(row: StoredProfile): ProfileFields
  {
    ProfileFields(
      OrEmpty(row.username), OrEmpty(row.firstName), OrEmpty(row.lastName), OrEmpty(row.about),
      OrEmpty(row.postalCode), OrEmpty(row.streetAddress), OrEmpty(row.city), OrEmpty(row.region))
  }

  /** Saving an edit form as loaded, without new images, writes back every
      text column as read (a null read back as "") and does not write the
      photo or cover columns, so the stored URLs survive. */
  lemma UnchangedEditWritesBackLoadedText(row: StoredProfile)
    ensures ProfileData(PrefilledFields(row), None, None).Keys == TextColumns
    ensures forall c :: c in TextColumns ==>
      ProfileData(PrefilledFields(row), None, None)[c] == OrEmpty(StoredColumn(row, c))
  {
  }

  // ---------------------------------------------------------------------
  // Submit pipeline
  // ---------------------------------------------------------------------

  /** A selected file (only its name is used). */
  datatype FileRef = FileRef(name: string)

  /** What a table write carries: the form's text fields and the image
      URLs this submission produced; `WrittenRow` turns it into columns. */
  datatype ProfileWrite = ProfileWrite(fields: ProfileFields, photoUrl: Option<string>, coverUrl: Option<string>)

  /** The outside effects of a submission, in the order they happen. */
  datatype Effect =
    | SignUpCall(email: string, password: string)
    | Upload(target: StorageObject)
    | Insert(id: string, email: string, data: ProfileWrite)
    | Update(data: ProfileWrite, id: string)
    | Navigate(to: string)

  /** Where a submission stopped. */
  datatype Stage = Validation | Registration | IdentityCheck | AvatarUpload | BannerUpload | Persist

  datatype SubmitResult = Saved(effects: seq<Effect>) | Aborted(stage: Stage, effects: seq<Effect>)

  /** What an upload does: it fails, or it succeeds and the public URL is
      read. */
  datatype UploadReply = Uploaded(publicUrl: string) | UploadFailed

  /** What the table write does. */
  datatype WriteReply = Written | WriteFailed

  /** The replies of every backend call a submission may make. */
  datatype Backend = Backend(signUp: SignUpReply, avatar: UploadReply, banner: UploadReply, write: WriteReply)

  /** The form's state read by `handleSubmit`. */
  datatype Submission = Submission(
    editMode: bool, currentUser: Option<AuthUser>, email: string, password: string,
    fields: ProfileFields, photo: Option<FileRef>, cover: Option<FileRef>)

  const SaveFailed := "Erro ao salvar."

  /** The step an effect belongs to, in pipeline order. */
  function Rank(e: Effect): nat
  {
    match e
    case SignUpCall(_, _) => 1
    case Upload(o) => if o.bucket == AvatarBucket then 2 else 3
    case Insert(_, _, _) => 4
    case Update(_, _) => 4
    case Navigate(_) => 5
  }

  /** The rank of the last step a stage may have reached. */
  function StageRank(s: Stage): nat
  {
    match s
    case Validation => 0
    case Registration => 1
    case IdentityCheck => 1
    case AvatarUpload => 2
    case BannerUpload => 3
    case Persist => 4
  }

  /** Every effect of `trace` belongs to a step no later than `k`. */
  predicate Bounded(trace: seq<Effect>, k: nat)
  {
    forall i :: 0 <= i < |trace| ==> Rank(trace[i]) <= k
  }

  /** Every effect of `trace` belongs to step `k` or a later one. */
  predicate AtLeast(trace: seq<Effect>, k: nat)
  {
    forall i :: 0 <= i < |trace| ==> k <= Rank(trace[i])
  }

  /** The effects of `trace` happen in pipeline order. */
  predicate Ordered(trace: seq<Effect>)
  {
    forall i, j :: 0 <= i < j < |trace| ==> Rank(trace[i]) <= Rank(trace[j])
  }

  /** An effect issued before the effects of later steps keeps the trace in
      order. */
  lemma Prepend(e: Effect, trace: seq<Effect>, k: nat)
    requires Ordered(trace) && AtLeast(trace, k) && Rank(e) <= k
    ensures Ordered([e] + trace) && AtLeast([e] + trace, Rank(e))
  {
    var t := [e] + trace;
    forall i, j | 0 <= i < j < |t|
      ensures Rank(t[i]) <= Rank(t[j])
    {
      assert t[j] == trace[j - 1];
      if 0 < i {
        assert t[i] == trace[i - 1];
      }
    }
    forall i | 0 <= i < |t|
      ensures Rank(e) <= Rank(t[i])
    {
      if 0 < i {
        assert t[i] == trace[i - 1];
      }
    }
  }

  /** An effect no later than a bound keeps a bounded trace bounded. */
  lemma PrependBounded(e: Effect, trace: seq<Effect>, k: nat)
    requires Bounded(trace, k) && Rank(e) <= k
    ensures Bounded([e] + trace, k)
  {
    forall i | 0 < i < |trace| + 1
      ensures Rank(([e] + trace)[i]) <= k
    {
      assert ([e] + trace)[i] == trace[i - 1];
    }
  }

  /** In create mode, the three fields that must be filled in. */
  predicate MissingRequired(s: Submission)
  {
    s.email == "" || s.password == "" || s.fields.username == ""
  }

  /** The URL an image contributes to the row: produced only when a file
      was selected and its upload succeeded. */
  function ProducedUrl(file: Option<FileRef>, reply: UploadReply): Option<string>
  {
    if file.Some? && reply.Uploaded? then Some(reply.publicUrl) else None
  }

  /** `r` with the effects `p` issued before it. */
  function Behind(p: seq<Effect>, r: SubmitResult): (r': SubmitResult)
    ensures r'.effects == p + r.effects
    ensures r'.Saved? == r.Saved? && (r.Aborted? ==> r'.stage == r.stage)
  {
    match r
    case Saved(t) => Saved(p + t)
    case Aborted(stage, t) => Aborted(stage, p + t)
  }

  /** Issuing `q` after `p` is issuing `p + q`. */
  lemma BehindBehind(p: seq<Effect>, q: seq<Effect>, r: SubmitResult)
    ensures Behind(p, Behind(q, r)) == Behind(p + q, r)
  {
    assert p + (q + r.effects) == (p + q) + r.effects;
  }

  /** What each stage from step `k` on promises about the effects it issues
      and how it ends. */
  predicate StageResult(s: Submission, b: Backend, k: nat, r: SubmitResult)
  {
    && Ordered(r.effects)
    && AtLeast(r.effects, k)
    && (r.Aborted? ==> k <= StageRank(r.stage) && Bounded(r.effects, StageRank(r.stage)))
    && (r.Aborted? ==> r.stage in {AvatarUpload, BannerUpload, Persist})
    && (r.Aborted? && r.stage == AvatarUpload ==> s.photo.Some? && b.avatar.UploadFailed?)
    && (r.Aborted? && r.stage == BannerUpload ==> s.cover.Some? && b.banner.UploadFailed?)
    && (r.Aborted? && r.stage == Persist ==> b.write.WriteFailed?)
    && (r.Saved? ==> b.write.Written? && |r.effects| >= 2 && r.effects[|r.effects| - 1] == Navigate(FeedPath))
  }

  /** Putting an effect of an earlier step in front keeps a stage's
      promises. */
  lemma BehindKeepsStageResult(s: Submission, b: Backend, e: Effect, k: nat, r: SubmitResult)
    requires StageResult(s, b, k, r) && Rank(e) <= k
    ensures StageResult(s, b, Rank(e), Behind([e], r))
  {
    Prepend(e, r.effects, k);
    if r.Aborted? {
      PrependBounded(e, r.effects, StageRank(r.stage));
    }
  }

  /** Avatar uploads belong to step 2 and banner uploads to step 3. */
  lemma UploadRanks(uid: string, name: string)
    ensures Rank(Upload(AvatarObject(uid, name))) == 2
    ensures Rank(Upload(BannerObject(uid, name))) == 3
  {
    assert BannerBucket != AvatarBucket by { assert BannerBucket[0] != AvatarBucket[0]; }
  }

  /** A stage that promises its effects from step `k + 1` on promises
      them from step `k` on. */
  lemma StageResultFromLater(s: Submission, b: Backend, k: nat, r: SubmitResult)
    requires StageResult(s, b, k + 1, r)
    ensures StageResult(s, b, k, r)
  {
  }

  /** A failed upload ends its stage with that upload as the only effect. */
  lemma UploadAbortResult(s: Submission, b: Backend, up: Effect, stage: Stage)
    requires stage == AvatarUpload || stage == BannerUpload
    requires Rank(up) == StageRank(stage)
    requires stage == AvatarUpload ==> s.photo.Some? && b.avatar.UploadFailed?
    requires stage == BannerUpload ==> s.cover.Some? && b.banner.UploadFailed?
    ensures StageResult(s, b, StageRank(stage), Aborted(stage, [up]))
  {
  }

  /** The table write: `profileData` with the URLs this submission
      produced, as an update filtered by id in edit mode, or as an insert
      that adds id and email in create mode. */
  function WriteEffect(s: Submission, b: Backend, uid: string): (e: Effect)
    ensures e.Update? <==> s.editMode
    ensures e.Insert? <==> !s.editMode
    ensures e.id == uid && (e.Insert? ==> e.email == s.email)
    ensures e.data.fields == s.fields
    ensures Present(e.data.photoUrl) <==> s.photo.Some? && Present(ProducedUrl(s.photo, b.avatar))
    ensures Present(e.data.coverUrl) <==> s.cover.Some? && Present(ProducedUrl(s.cover, b.banner))
    ensures Rank(e) == 4
  {
    var data := ProfileWrite(s.fields, ProducedUrl(s.photo, b.avatar), ProducedUrl(s.cover, b.banner));
    if s.editMode then Update(data, uid) else Insert(uid, s.email, data)
  }

  /** The columns a table write sends: `profileData`, plus `id` and `email`
      for an insert. */
  function WrittenRow(e: Effect): (row: Row)
    requires e.Insert? || e.Update?
  {
    var data := ProfileData(e.data.fields, e.data.photoUrl, e.data.coverUrl);
    if e.Insert? then InsertRow(e.id, e.email, data) else data
  }

  /** The columns the form adds around `profileData` are not text
      columns. */
  lemma ExtraColumnsAreNotText()
    ensures "id" !in TextColumns && "email" !in TextColumns
    ensures "photo_url" !in TextColumns && "cover_photo_url" !in TextColumns
    ensures "photo_url" != "cover_photo_url"
  {
    assert "photo_url"[0] != "cover_photo_url"[0];
  }

  /** The written row has `photo_url` and `cover_photo_url` only when that
      image was selected and its upload produced a non-empty URL, so an
      edit without a new image keeps the stored URL. */
  lemma WrittenImageColumns(s: Submission, b: Backend, uid: string)
    ensures var row := WrittenRow(WriteEffect(s, b, uid));
      && ("photo_url" in row <==> s.photo.Some? && b.avatar.Uploaded? && b.avatar.publicUrl != "")
      && ("cover_photo_url" in row <==> s.cover.Some? && b.banner.Uploaded? && b.banner.publicUrl != "")
      && ("photo_url" in row ==> row["photo_url"] == b.avatar.publicUrl)
      && ("cover_photo_url" in row ==> row["cover_photo_url"] == b.banner.publicUrl)
  {
    ExtraColumnsAreNotText();
  }

  /** An insert adds `id` (the new account's identifier) and `email`; an
      update writes neither and is filtered by the identifier instead. */
  lemma WrittenIdentityColumns(s: Submission, b: Backend, uid: string)
    ensures var row := WrittenRow(WriteEffect(s, b, uid));
      && ("id" in row <==> !s.editMode)
      && ("email" in row <==> !s.editMode)
      && (!s.editMode ==> row["id"] == uid && row["email"] == s.email)
  {
    ExtraColumnsAreNotText();
  }

  /** Every text column is written, with the form's value. */
  lemma WrittenTextColumns(s: Submission, b: Backend, uid: string)
    ensures var row := WrittenRow(WriteEffect(s, b, uid));
      forall c :: c in TextColumns ==> c in row && row[c] == TextRow(s.fields)[c]
  {
  }

  // ---------------------------------------------------------------------
  // The planned calls: what a submission issues when no step fails
  // ---------------------------------------------------------------------

  /** The table write and the two navigations after it. */
  function WritePlan(s: Submission, b: Backend, uid: string): seq<Effect>
  {
    [WriteEffect(s, b, uid), Navigate(if s.editMode then FeedPath else "/"), Navigate(FeedPath)]
  }

  /** The banner upload when a cover was selected, then the write. */
  function BannerPlan(s: Submission, b: Backend, uid: string): seq<Effect>
  {
    (if s.cover.Some? then [Upload(BannerObject(uid, s.cover.value.name))] else []) + WritePlan(s, b, uid)
  }

  /** The avatar upload when a photo was selected, then the banner step. */
  function AvatarPlan(s: Submission, b: Backend, uid: string): seq<Effect>
  {
    (if s.photo.Some? then [Upload(AvatarObject(uid, s.photo.value.name))] else []) + BannerPlan(s, b, uid)
  }

  /** Every call of a submission that nothing stops: the sign-up in
      create mode, then the uploads, the write and the navigations. */
  function SubmitPlan(s: Submission, b: Backend, uid: string): seq<Effect>
  {
    SignUpCalls(s) + AvatarPlan(s, b, uid)
  }

  /** The sign-up call, made in create mode only. */
  function SignUpCalls(s: Submission): seq<Effect>
  {
    if s.editMode then [] else [SignUpCall(s.email, s.password)]
  }

  /** The write is among the planned calls. */
  lemma WriteInPlan(s: Submission, b: Backend, uid: string)
    ensures WriteEffect(s, b, uid) in SubmitPlan(s, b, uid)
  {
    var before := SignUpCalls(s)
      + (if s.photo.Some? then [Upload(AvatarObject(uid, s.photo.value.name))] else [])
      + (if s.cover.Some? then [Upload(BannerObject(uid, s.cover.value.name))] else []);
    assert SubmitPlan(s, b, uid) == before + WritePlan(s, b, uid);
    assert SubmitPlan(s, b, uid)[|before|] == WriteEffect(s, b, uid);
  }

  /** The call whose failure ends a stage from the avatar upload on. */
  function FailedCall(s: Submission, b: Backend, uid: string, stage: Stage): Effect
    requires stage == AvatarUpload || stage == BannerUpload || stage == Persist
    requires stage == AvatarUpload ==> s.photo.Some?
    requires stage == BannerUpload ==> s.cover.Some?
  {
    match stage
    case AvatarUpload => Upload(AvatarObject(uid, s.photo.value.name))
    case BannerUpload => Upload(BannerObject(uid, s.cover.value.name))
    case _ => WriteEffect(s, b, uid)
  }

  function Last(t: seq<Effect>): Effect
    requires t != []
  {
    t[|t| - 1]
  }

  /** Calls issued before a prefix of a plan are a prefix of the longer
      plan, and do not change which call came last. */
  lemma PrefixBehind(p: seq<Effect>, t: seq<Effect>, plan: seq<Effect>)
    requires t <= plan
    ensures p + t <= p + plan
    ensures t != [] ==> Last(p + t) == Last(t)
  {
    assert forall i :: 0 <= i < |p + t| ==> (p + t)[i] == (p + plan)[i];
  }

  // ---------------------------------------------------------------------
  // The stages
  // ---------------------------------------------------------------------

  /** The table write and, on success, the navigation. */
  function WriteStage(s: Submission, b: Backend, uid: string): SubmitResult
  {
    if b.write.WriteFailed? then Aborted(Persist, [WriteEffect(s, b, uid)])
    else Saved(WritePlan(s, b, uid))
  }

  /** The banner upload, when a cover file was selected. */
  function BannerStage(s: Submission, b: Backend, uid: string): SubmitResult
  {
    if s.cover.Some? then
      var up := Upload(BannerObject(uid, s.cover.value.name));
      if b.banner.UploadFailed? then Aborted(BannerUpload, [up])
      else Behind([up], WriteStage(s, b, uid))
    else WriteStage(s, b, uid)
  }

  /** The avatar upload, when a photo file was selected. */
  function AvatarStage(s: Submission, b: Backend, uid: string): SubmitResult
  {
    if s.photo.Some? then
      var up := Upload(AvatarObject(uid, s.photo.value.name));
      if b.avatar.UploadFailed? then Aborted(AvatarUpload, [up])
      else Behind([up], BannerStage(s, b, uid))
    else BannerStage(s, b, uid)
  }

  /** The write stage is saved exactly when the write succeeds, and then
      issues the write and both navigations; a failed write aborts there,
      the write being the last call. */
  lemma WriteStageResult(s: Submission, b: Backend, uid: string)
    ensures var r := WriteStage(s, b, uid);
      && StageResult(s, b, 4, r)
      && (r.Saved? <==> b.write.Written?)
      && (r.Aborted? ==> r.stage == Persist)
      && r.effects <= WritePlan(s, b, uid)
      && (r.Saved? ==> r.effects == WritePlan(s, b, uid))
      && (r.Aborted? ==> r.effects != [] && Last(r.effects) == FailedCall(s, b, uid, r.stage))
  {
    var write := WriteEffect(s, b, uid);
    var navigations := [Navigate(if s.editMode then FeedPath else "/"), Navigate(FeedPath)];
    assert WritePlan(s, b, uid) == [write] + navigations;
    if !b.write.WriteFailed? {
      Prepend(write, navigations, 5);
    }
  }

  /** From the banner step on: saved exactly when neither a selected
      cover's upload nor the write fails; a failed cover upload aborts
      there, its upload being the last call. */
  lemma BannerStageResult(s: Submission, b: Backend, uid: string)
    ensures var r := BannerStage(s, b, uid);
      && StageResult(s, b, 3, r)
      && (r.Saved? <==> !(s.cover.Some? && b.banner.UploadFailed?) && b.write.Written?)
      && (s.cover.Some? && b.banner.UploadFailed? ==> r.Aborted? && r.stage == BannerUpload)
      && (r.Aborted? ==> r.effects != [] && Last(r.effects) == FailedCall(s, b, uid, r.stage))
  {
    WriteStageResult(s, b, uid);
    var w := WriteStage(s, b, uid);
    if s.cover.Some? {
      var up := Upload(BannerObject(uid, s.cover.value.name));
      UploadRanks(uid, s.cover.value.name);
      if b.banner.UploadFailed? {
        UploadAbortResult(s, b, up, BannerUpload);
      } else {
        BehindKeepsStageResult(s, b, up, 4, w);
        PrefixBehind([up], w.effects, WritePlan(s, b, uid));
      }
    } else {
      StageResultFromLater(s, b, 3, w);
    }
  }

  /** From the banner step on, the calls issued are the planned ones in
      order, and all of them when the submission is saved. */
  lemma BannerStagePlan(s: Submission, b: Backend, uid: string)
    ensures var r := BannerStage(s, b, uid);
      && r.effects <= BannerPlan(s, b, uid)
      && (r.Saved? ==> r.effects == BannerPlan(s, b, uid))
  {
    WriteStageResult(s, b, uid);
    var w := WriteStage(s, b, uid);
    var r := BannerStage(s, b, uid);
    if s.cover.Some? {
      var up := Upload(BannerObject(uid, s.cover.value.name));
      assert BannerPlan(s, b, uid) == [up] + WritePlan(s, b, uid);
      if !b.banner.UploadFailed? {
        PrefixBehind([up], w.effects, WritePlan(s, b, uid));
        assert r == Behind([up], w);
      }
    } else {
      assert BannerPlan(s, b, uid) == WritePlan(s, b, uid);
    }
  }

  /** From the avatar step on: saved exactly when no selected image's
      upload and not the write fails; the first of those failures is
      where it aborts, the failed call being the last one. */
  lemma AvatarStageResult(s: Submission, b: Backend, uid: string)
    ensures var r := AvatarStage(s, b, uid);
      && StageResult(s, b, 2, r)
      && (r.Saved? <==>
            !(s.photo.Some? && b.avatar.UploadFailed?) && !(s.cover.Some? && b.banner.UploadFailed?)
            && b.write.Written?)
      && (s.photo.Some? && b.avatar.UploadFailed? ==> r.Aborted? && r.stage == AvatarUpload)
      && (!(s.photo.Some? && b.avatar.UploadFailed?) && s.cover.Some? && b.banner.UploadFailed? ==>
            r.Aborted? && r.stage == BannerUpload)
      && (r.Aborted? ==> r.effects != [] && Last(r.effects) == FailedCall(s, b, uid, r.stage))
  {
    BannerStageResult(s, b, uid);
    var n := BannerStage(s, b, uid);
    if s.photo.Some? {
      var up := Upload(AvatarObject(uid, s.photo.value.name));
      UploadRanks(uid, s.photo.value.name);
      if b.avatar.UploadFailed? {
        UploadAbortResult(s, b, up, AvatarUpload);
      } else {
        BehindKeepsStageResult(s, b, up, 3, n);
        PrefixBehind([up], n.effects, BannerPlan(s, b, uid));
      }
    } else {
      StageResultFromLater(s, b, 2, n);
    }
  }

  /** From the avatar step on, the calls issued are the planned ones in
      order, and all of them when the submission is saved. */
  lemma AvatarStagePlan(s: Submission, b: Backend, uid: string)
    ensures var r := AvatarStage(s, b, uid);
      && r.effects <= AvatarPlan(s, b, uid)
      && (r.Saved? ==> r.effects == AvatarPlan(s, b, uid))
  {
    BannerStagePlan(s, b, uid);
    var n := BannerStage(s, b, uid);
    var r := AvatarStage(s, b, uid);
    if s.photo.Some? {
      var up := Upload(AvatarObject(uid, s.photo.value.name));
      assert AvatarPlan(s, b, uid) == [up] + BannerPlan(s, b, uid);
      if !b.avatar.UploadFailed? {
        PrefixBehind([up], n.effects, BannerPlan(s, b, uid));
        assert r == Behind([up], n);
      }
    } else {
      assert AvatarPlan(s, b, uid) == BannerPlan(s, b, uid);
    }
  }

  // ---------------------------------------------------------------------
  // The whole submission
  // ---------------------------------------------------------------------

  /** `handleSubmit`: validate (create mode), sign up (create mode), check
      the identifier, upload the avatar, upload the banner, insert or
      update, navigate. Steps happen in that order, and the first failure
      stops every later step. */
  function Submit(s: Submission, b: Backend): (r: SubmitResult)
    ensures Ordered(r.effects)
    ensures r.Aborted? ==> Bounded(r.effects, StageRank(r.stage))
    ensures r == Aborted(Validation, []) <==> !s.editMode && MissingRequired(s)
    ensures r.Aborted? && r.stage == Registration ==>
      !s.editMode && !(b.signUp.SignUpOk? && b.signUp.data.user.Some?)
    ensures r.Aborted? && r.stage == AvatarUpload ==> s.photo.Some? && b.avatar.UploadFailed?
    ensures r.Aborted? && r.stage == BannerUpload ==> s.cover.Some? && b.banner.UploadFailed?
    ensures r.Aborted? && r.stage == Persist ==> b.write.WriteFailed?
    ensures r.Saved? ==> |r.effects| >= 2 && r.effects[|r.effects| - 1] == Navigate(FeedPath)
    ensures s.editMode ==> forall i :: 0 <= i < |r.effects| ==> !r.effects[i].SignUpCall?
    ensures !s.editMode && !MissingRequired(s) ==>
      |r.effects| >= 1 && r.effects[0] == SignUpCall(s.email, s.password)
  {
    if !s.editMode && MissingRequired(s) then Aborted(Validation, [])
    else if s.editMode then
      if s.currentUser.Some? && s.currentUser.value.id != "" then
        AvatarStageResult(s, b, s.currentUser.value.id);
        AvatarStage(s, b, s.currentUser.value.id)
      else Aborted(IdentityCheck, [])
    else
      var call := SignUpCall(s.email, s.password);
      if !(b.signUp.SignUpOk? && b.signUp.data.user.Some?) then Aborted(Registration, [call])
      else if b.signUp.data.user.value.id == "" then Aborted(IdentityCheck, [call])
      else
        var r := AvatarStage(s, b, b.signUp.data.user.value.id);
        AvatarStageResult(s, b, b.signUp.data.user.value.id);
        BehindKeepsStageResult(s, b, call, 2, r);
        Behind([call], r)
  }

  /** The identifier the uploads and the write use once validation and,
      in create mode, the sign-up are through: the new account's in create
      mode, the signed-in user's in edit mode; none when it is missing or
      empty. */
  function SubmitUid(s: Submission, b: Backend): Option<string>
  {
    if s.editMode then
      if s.currentUser.Some? && s.currentUser.value.id != "" then Some(s.currentUser.value.id) else None
    else if !MissingRequired(s) && b.signUp.SignUpOk? && b.signUp.data.user.Some?
      && b.signUp.data.user.value.id != "" then Some(b.signUp.data.user.value.id)
    else None
  }

  /** The first step that fails, in the order validation, sign-up,
      identifier check, avatar upload, banner upload, write; none when
      every step goes through. An image that was not selected has no step
      to fail. */
  function FirstFailure(s: Submission, b: Backend): Option<Stage>
  {
    if !s.editMode && MissingRequired(s) then Some(Validation)
    else if !s.editMode && !(b.signUp.SignUpOk? && b.signUp.data.user.Some?) then Some(Registration)
    else if SubmitUid(s, b).None? then Some(IdentityCheck)
    else if s.photo.Some? && b.avatar.UploadFailed? then Some(AvatarUpload)
    else if s.cover.Some? && b.banner.UploadFailed? then Some(BannerUpload)
    else if b.write.WriteFailed? then Some(Persist)
    else None
  }

  /** A submission stops at its first failing step and at no other: it is
      saved exactly when no step fails. Before the identifier is known it
      has issued at most the sign-up. */
  lemma SubmitStopsAtFirstFailure(s: Submission, b: Backend)
    ensures var r := Submit(s, b);
      && (r.Saved? <==> FirstFailure(s, b).None?)
      && (r.Aborted? ==> r.stage == FirstFailure(s, b).value)
      && (SubmitUid(s, b).None? ==>
            r.effects == if !s.editMode && !MissingRequired(s) then [SignUpCall(s.email, s.password)] else [])
  {
    if !s.editMode && MissingRequired(s) {
    } else if s.editMode {
      if s.currentUser.Some? && s.currentUser.value.id != "" {
        AvatarStageResult(s, b, s.currentUser.value.id);
      }
    } else if b.signUp.SignUpOk? && b.signUp.data.user.Some? && b.signUp.data.user.value.id != "" {
      AvatarStageResult(s, b, b.signUp.data.user.value.id);
    }
  }

  /** Once the identifier is known, the rest of a submission is the avatar
      stage, behind the sign-up in create mode. */
  lemma SubmitOnceIdentified(s: Submission, b: Backend)
    requires SubmitUid(s, b).Some?
    ensures Submit(s, b) == Behind(SignUpCalls(s), AvatarStage(s, b, SubmitUid(s, b).value))
  {
    var r := AvatarStage(s, b, SubmitUid(s, b).value);
    if s.editMode {
      assert [] + r.effects == r.effects;
    }
  }

  /** Once the identifier is known, the calls a submission issues are the
      planned ones in order, the failed call last; a saved submission has
      issued every planned call, the table write among them. */
  lemma SubmitFollowsPlan(s: Submission, b: Backend)
    ensures var r := Submit(s, b);
      && (SubmitUid(s, b).Some? ==> r.effects <= SubmitPlan(s, b, SubmitUid(s, b).value))
      && (r.Saved? ==> SubmitUid(s, b).Some? && r.effects == SubmitPlan(s, b, SubmitUid(s, b).value))
      && (r.Saved? ==> WriteEffect(s, b, SubmitUid(s, b).value) in r.effects)
      && (r.Aborted? && SubmitUid(s, b).Some? ==>
            r.effects != [] && Last(r.effects) == FailedCall(s, b, SubmitUid(s, b).value, r.stage))
  {
    SubmitStopsAtFirstFailure(s, b);
    if SubmitUid(s, b).Some? {
      var uid := SubmitUid(s, b).value;
      var a := AvatarStage(s, b, uid);
      SubmitOnceIdentified(s, b);
      AvatarStageResult(s, b, uid);
      AvatarStagePlan(s, b, uid);
      WriteInPlan(s, b, uid);
      PrefixBehind(SignUpCalls(s), a.effects, AvatarPlan(s, b, uid));
    }
  }
}
