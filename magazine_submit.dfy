/** The magazine submit hook (`useSubmitMagazine`): it uploads the optional
    cover image under a date-based path of the `vibe-coding-storage` bucket,
    inserts the magazine row with the author's id, and reports the outcome
    with an alert. */
module MagazineSubmit {
  import opened Common
  import opened Auth
  import MagazineBinding

  const LoginNeeded := "로그인이 필요합니다."
  const SubmitError := "등록 중 오류가 발생했습니다."
  const SubmitSucceeded := "등록에 성공하였습니다."

  function UploadFailedAlert(message: string): string
  {
    "이미지 업로드에 실패하였습니다: " + message
  }

  function InsertFailedAlert(message: string): string
  {
    "등록에 실패하였습니다: " + message
  }

  function DetailPath(id: string): string
  {
    "/magazines/" + id
  }

  // ---------------------------------------------------------------------------
  // The upload path

  type Month = m: int | 1 <= m <= 12 witness 1
  type DayOfMonth = d: int | 1 <= d <= 31 witness 1

  /** The local calendar date of `new Date()`, with a 1-based month. */
  datatype LocalDate = LocalDate(year: int, month: Month, day: DayOfMonth)

  /** `${year}/${month}/${day}/${uuid}.jpg`, month and day padded to two
      digits. */
  function UploadPath(date: LocalDate, uuid: string): (path: string)
    ensures |path| == |IntToString(date.year)| + 11 + |uuid|
    ensures path[|path| - 4..] == ".jpg"
  {
    IntToString(date.year) + "/" + Pad2(date.month) + "/" + Pad2(date.day) + "/" + uuid + ".jpg"
  }

  /** Every field of the date and the id can be read back from the path at
      fixed offsets after the year. */
  lemma UploadPathFields(date: LocalDate, uuid: string)
    ensures var path := UploadPath(date, uuid);
      var n := |IntToString(date.year)|;
      && path[..n] == IntToString(date.year)
      && path[n] == '/' && path[n + 3] == '/' && path[n + 6] == '/'
      && AllDigits(path[n + 1..n + 3]) && DigitsValue(path[n + 1..n + 3]) == date.month
      && AllDigits(path[n + 4..n + 6]) && DigitsValue(path[n + 4..n + 6]) == date.day
      && path[n + 7..|path| - 4] == uuid
  {
    var y := IntToString(date.year);
    var n := |y|;
    var path := UploadPath(date, uuid);
    Pad2RoundTrip(date.month);
    Pad2RoundTrip(date.day);
    assert path == y + "/" + Pad2(date.month) + "/" + Pad2(date.day) + "/" + uuid + ".jpg";
    assert path[n + 1..n + 3] == Pad2(date.month);
    assert path[n + 4..n + 6] == Pad2(date.day);
    assert path[n + 7..|path| - 4] == uuid;
  }

  /** Two uploads get the same path only for the same date and the same id. */
  lemma UploadPathInjective(d1: LocalDate, u1: string, d2: LocalDate, u2: string)
    requires UploadPath(d1, u1) == UploadPath(d2, u2)
    ensures d1 == d2 && u1 == u2
  {
    var p := UploadPath(d1, u1);
    var y1, y2 := IntToString(d1.year), IntToString(d2.year);
    UploadPathFields(d1, u1);
    UploadPathFields(d2, u2);
    if |y1| < |y2| {
      IntToStringTailDigits(d2.year, |y1|);
      assert false;
    } else if |y2| < |y1| {
      IntToStringTailDigits(d1.year, |y2|);
      assert false;
    }
    IntToStringInjective(d1.year, d2.year);
  }

  // ---------------------------------------------------------------------------
  // The submission

  /** The form data; `hasImageFile` is the truthiness of `imageFile`. */
  datatype MagazineForm = MagazineForm(
    category: string,
    title: string,
    description: string,
    content: string,
    tags: Option<seq<string>>,
    hasImageFile: bool)

  /** The row inserted into the `magazine` table. */
  datatype MagazineRow = MagazineRow(
    imageUrl: string,
    category: string,
    title: string,
    description: string,
    content: string,
    tags: Option<seq<string>>,
    userId: string)

  /** The storage's answer to `upload`, and the table's answer to
      `insert(...).select().single()`. */
  datatype UploadOutcome = Uploaded | UploadError(message: string) | UploadThrew(thrown: Thrown)
  datatype InsertOutcome = InsertedRow(id: string) | InsertError(message: string) | NoRowReturned | InsertThrew(thrown: Thrown)

  /** The user `getUser` reports without an error, if any. */
  function SignedInUser(auth: UserLookup): (u: Option<AuthUser>)
    ensures u.Some? <==> auth.Answered? && auth.error.None? && auth.user.Some?
    ensures u.Some? ==> u == auth.user
  {
    if auth.Answered? && auth.error.None? then auth.user else None
  }

  /** `image_url` of the row: the public URL of the uploaded file, or `""`
      without a file. */
  function ImageUrlFor(form: MagazineForm, date: LocalDate, uuid: string, projectUrl: string): (url: string)
    ensures !form.hasImageFile ==> url == ""
    ensures form.hasImageFile ==> StartsWith(url, projectUrl) && |url| > |projectUrl| + |UploadPath(date, uuid)|
  {
    if form.hasImageFile then MagazineBinding.PublicUrl(projectUrl, UploadPath(date, uuid)) else ""
  }

  /** The list hook reads the uploaded file's path back out of the stored
      URL, as long as the marker occurs in it only where `getPublicUrl` put
      it. */
  lemma SubmittedImagePathRoundTrip(form: MagazineForm, date: LocalDate, uuid: string, projectUrl: string)
    requires form.hasImageFile && MagazineBinding.IsHttpUrl(projectUrl)
    requires MagazineBinding.MarkerOnlyAt(MagazineBinding.PublicUrl(projectUrl, UploadPath(date, uuid)), |projectUrl|)
    ensures MagazineBinding.StoragePath(ImageUrlFor(form, date, uuid, projectUrl)) == UploadPath(date, uuid)
  {
    MagazineBinding.StoragePathOfPublicUrl(projectUrl, UploadPath(date, uuid));
  }

  class SubmitHook {
    /** Object paths in the bucket, rows of the `magazine` table, and the
        alerts and navigations the hook causes. */
    var bucket: seq<string>
    var table: seq<MagazineRow>
    var alerts: seq<string>
    var navigations: seq<string>

    constructor(bucket: seq<string>, table: seq<MagazineRow>)
      ensures this.bucket == bucket && this.table == table
      ensures alerts == [] && navigations == []
    {
      this.bucket := bucket;
      this.table := table;
      alerts := [];
      navigations := [];
    }

    /** `submitMagazine`. Every exception ends in the generic alert. */
    method SubmitMagazine(form: MagazineForm, auth: UserLookup, today: LocalDate, uuid: string,
                          projectUrl: string, upload: UploadOutcome, insert: InsertOutcome)
      returns (ok: bool)
      modifies this
      // Succeeds exactly for a signed-in user whose image (if any) uploaded
      // and whose row came back from the insert.
      ensures ok <==> SignedInUser(auth).Some? && (!form.hasImageFile || upload.Uploaded?) && insert.InsertedRow?
      ensures ok ==> alerts == old(alerts) + [SubmitSucceeded] && navigations == old(navigations) + [DetailPath(insert.id)]
      ensures !ok ==> navigations == old(navigations)
      // No user: nothing is uploaded or inserted.
      ensures SignedInUser(auth).None? ==>
        && bucket == old(bucket) && table == old(table)
        && alerts == old(alerts) + [if auth.LookupThrew? then SubmitError else LoginNeeded]
      // The image is uploaded under its date path, and only when there is one.
      ensures SignedInUser(auth).Some? ==>
        bucket == old(bucket) + (if form.hasImageFile && upload.Uploaded? then [UploadPath(today, uuid)] else [])
      // A failed upload: nothing inserted.
      ensures SignedInUser(auth).Some? && form.hasImageFile && !upload.Uploaded? ==>
        && table == old(table)
        && alerts == old(alerts) + [if upload.UploadError? then UploadFailedAlert(upload.message) else SubmitError]
      // Otherwise the row carries the form, the image URL and the author.
      ensures SignedInUser(auth).Some? && (!form.hasImageFile || upload.Uploaded?) ==>
        var row := MagazineRow(ImageUrlFor(form, today, uuid, projectUrl), form.category, form.title,
                               form.description, form.content, form.tags, SignedInUser(auth).value.id);
        && table == old(table) + (if insert.InsertedRow? then [row] else [])
        && (insert.InsertError? ==> alerts == old(alerts) + [InsertFailedAlert(insert.message)])
        && (insert.InsertThrew? ==> alerts == old(alerts) + [SubmitError])
        && (insert.NoRowReturned? ==> alerts == old(alerts))
    {
      if auth.LookupThrew? {
        alerts := alerts + [SubmitError];
        return false;
      }
      if auth.error.Some? || auth.user.None? {
        alerts := alerts + [LoginNeeded];
        return false;
      }
      var user := auth.user.value;

      var imageUrl := "";
      if form.hasImageFile {
        var filePath := UploadPath(today, uuid);
        match upload {
          case UploadThrew(_) =>
            alerts := alerts + [SubmitError];
            return false;
          case UploadError(message) =>
            alerts := alerts + [UploadFailedAlert(message)];
            return false;
          case Uploaded =>
            bucket := bucket + [filePath];
        }
        imageUrl := MagazineBinding.PublicUrl(projectUrl, filePath);
      }

      var row := MagazineRow(imageUrl, form.category, form.title, form.description, form.content, form.tags, user.id);
      match insert {
        case InsertThrew(_) =>
          alerts := alerts + [SubmitError];
          return false;
        case InsertError(message) =>
          alerts := alerts + [InsertFailedAlert(message)];
          return false;
        case NoRowReturned =>
          return false;
        case InsertedRow(id) =>
          table := table + [row];
          alerts := alerts + [SubmitSucceeded];
          navigations := navigations + [DetailPath(id)];
          return true;
      }
    }
  }

  /** A submitted image URL survives the list hook's rebinding unchanged, as
      long as the marker occurs in it only where `getPublicUrl` put it. */
  lemma SubmittedImageRebindsToItself(form: MagazineForm, date: LocalDate, uuid: string, projectUrl: string,
                                      m: MagazineBinding.Magazine)
    requires form.hasImageFile && MagazineBinding.IsHttpUrl(projectUrl)
    requires MagazineBinding.MarkerOnlyAt(MagazineBinding.PublicUrl(projectUrl, UploadPath(date, uuid)), |projectUrl|)
    requires m.imageUrl == Some(ImageUrlFor(form, date, uuid, projectUrl))
    ensures MagazineBinding.BindMagazine(m, projectUrl) == m
  {
    SubmittedImagePathRoundTrip(form, date, uuid, projectUrl);
  }
}
