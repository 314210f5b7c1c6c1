/** Flattening a seed-user run into one CSV row per video
    (user_metadata_to_csv.py): every video dict under every user result dict,
    in order, with the run's columns and the user's columns attached. */
module UserCsv {
  import opened Python

  // ---------------------------------------------------------------------
  // Columns
  // ---------------------------------------------------------------------

  /** What the run file says about the whole run. */
  datatype RunField = RunStartedAt | RunFinishedAt | SeedFile | RequestedMaxVideos
    | UserCountRequested | UserCountSucceeded | UserCountFailed

  /** What the user result says about the user. */
  datatype UserField = UserScrapedAt | UserSource | Username | ProfileUrl

  /** What the video dict says about the video. */
  datatype VideoField = VideoId | Url | Title | Caption | Timestamp | UploadDate | DurationSec
    | Uploader | UploaderId | ViewCount | LikeCount | CommentCount | RepostCount | Hashtags

  datatype Column = Run(run: RunField) | User(user: UserField) | Video(video: VideoField)

  /** The column's header in the CSV. */
  function Name(c: Column): string {
    match c
    case Run(RunStartedAt) => "run_started_at"
    case Run(RunFinishedAt) => "run_finished_at"
    case Run(SeedFile) => "seed_file"
    case Run(RequestedMaxVideos) => "requested_max_videos"
    case Run(UserCountRequested) => "user_count_requested"
    case Run(UserCountSucceeded) => "user_count_succeeded"
    case Run(UserCountFailed) => "user_count_failed"
    case User(UserScrapedAt) => "user_scraped_at"
    case User(UserSource) => "user_source"
    case User(Username) => "username"
    case User(ProfileUrl) => "profile_url"
    case Video(VideoId) => "video_id"
    case Video(Url) => "url"
    case Video(Title) => "title"
    case Video(Caption) => "caption"
    case Video(Timestamp) => "timestamp"
    case Video(UploadDate) => "upload_date"
    case Video(DurationSec) => "duration_sec"
    case Video(Uploader) => "uploader"
    case Video(UploaderId) => "uploader_id"
    case Video(ViewCount) => "view_count"
    case Video(LikeCount) => "like_count"
    case Video(CommentCount) => "comment_count"
    case Video(RepostCount) => "repost_count"
    case Video(Hashtags) => "hashtags"
  }

  type Row = map<Column, Json>

  // ---------------------------------------------------------------------
  // safe_get
  // ---------------------------------------------------------------------

  /** `safe_get`: `d.get(key, default)` when `d` is a dict, else `default`. */
  function SafeGet(d: Json, key: string, default: Json): (r: Json)
    ensures !d.JDict? ==> r == default
    ensures d.JDict? && !HasKey(d.fields, key) ==> r == default
    ensures d.JDict? && HasKey(d.fields, key) ==>
              exists i :: 0 <= i < |d.fields| && d.fields[i] == (key, r)
                          && forall j :: 0 <= j < i ==> d.fields[j].0 != key
  {
    if d.JDict? then
      FindFirst(d.fields, key);
      GetOr(d.fields, key, default)
    else default
  }

  // ---------------------------------------------------------------------
  // One user result
  // ---------------------------------------------------------------------

  function RunMeta(df: Fields): (r: Row)
    ensures forall c :: c in r ==> c.Run?
  {
    map[
      Run(RunStartedAt) := Get(df, "run_started_at"),
      Run(RunFinishedAt) := Get(df, "run_finished_at"),
      Run(SeedFile) := Get(df, "seed_file"),
      Run(RequestedMaxVideos) := Get(df, "requested_max_videos"),
      Run(UserCountRequested) := Get(df, "user_count_requested"),
      Run(UserCountSucceeded) := Get(df, "user_count_succeeded"),
      Run(UserCountFailed) := Get(df, "user_count_failed")
    ]
  }

  /** The run columns are all seven, each the file's value under the column's
      header. */
  lemma RunMetaValues(df: Fields)
    ensures forall c :: c in RunMeta(df) <==> c.Run?
    ensures forall c :: c in RunMeta(df) ==> RunMeta(df)[c] == Get(df, Name(c))
  {
    forall c: Column | c.Run?
      ensures c in RunMeta(df)
    {
      match c.run
      case RunStartedAt =>
      case RunFinishedAt =>
      case SeedFile =>
      case RequestedMaxVideos =>
      case UserCountRequested =>
      case UserCountSucceeded =>
      case UserCountFailed =>
    }
  }

  /** The user columns shared by all of one result's videos. */
  datatype UserInfo = UserInfo(scrapedAt: Json, source: Json, username: Json, profileUrl: Json)

  /** The result's `profile` when it is a dict, else None. */
  function Profile(rf: Fields): Json {
    var p := Get(rf, "profile");
    if p.JDict? then p else JNull
  }

  /** The username comes from the profile when that gives a truthy one, else
      from the result itself; the profile url only from the profile. */
  function UserInfoOf(rf: Fields): (u: UserInfo)
    ensures u.scrapedAt == Get(rf, "scraped_at") && u.source == Get(rf, "source")
    ensures var p := Get(rf, "profile");
            && (p.JDict? && Truthy(Get(p.fields, "username")) ==> u.username == Get(p.fields, "username"))
            && (!(p.JDict? && Truthy(Get(p.fields, "username"))) ==> u.username == Get(rf, "username"))
            && (p.JDict? ==> u.profileUrl == Get(p.fields, "profile_url"))
            && (!p.JDict? ==> u.profileUrl == JNull)
  {
    var profile := Profile(rf);
    UserInfo(
      Get(rf, "scraped_at"),
      Get(rf, "source"),
      Or(SafeGet(profile, "username", JNull), Get(rf, "username")),
      SafeGet(profile, "profile_url", JNull))
  }

  /** The four user columns: `user_scraped_at`, `user_source`, `username` and
      `profile_url`. */
  function UserColumns(u: UserInfo): (r: Row)
    ensures forall c :: c in r ==> c.User?
    ensures User(Username) in r && r[User(Username)] == u.username
    ensures User(UserScrapedAt) in r && r[User(UserScrapedAt)] == u.scrapedAt
    ensures User(UserSource) in r && r[User(UserSource)] == u.source
    ensures User(ProfileUrl) in r && r[User(ProfileUrl)] == u.profileUrl
  {
    map[
      User(UserScrapedAt) := u.scrapedAt,
      User(UserSource) := u.source,
      User(ProfileUrl) := u.profileUrl,
      User(Username) := u.username
    ]
  }

  /** The value a video column takes: the joined hashtags, or the video's
      own value. */
  function VideoValue(v: Fields, hashtags: Json, f: VideoField): Json {
    match f
    case VideoId => Get(v, "video_id")
    case Url => Get(v, "url")
    case Title => Get(v, "title")
    case Caption => Get(v, "caption")
    case Timestamp => Get(v, "timestamp")
    case UploadDate => Get(v, "upload_date")
    case DurationSec => Get(v, "duration_sec")
    case Uploader => Get(v, "uploader")
    case UploaderId => Get(v, "uploader_id")
    case ViewCount => Get(v, "view_count")
    case LikeCount => Get(v, "like_count")
    case CommentCount => Get(v, "comment_count")
    case RepostCount => Get(v, "repost_count")
    case Hashtags => hashtags
  }

  function VideoColumns(v: Fields, hashtags: Json): (r: Row)
    ensures forall c :: c in r ==> c.Video?
    ensures Video(VideoId) in r && r[Video(VideoId)] == Get(v, "video_id")
    ensures Video(Hashtags) in r && r[Video(Hashtags)] == hashtags
  {
    map f: VideoField :: Video(f) := VideoValue(v, hashtags, f)
  }

  /** The video columns are all fourteen: the hashtags as given, and every
      other one the video's value under the column's own header. */
  lemma VideoColumnsValues(v: Fields, hashtags: Json)
    ensures forall c :: c in VideoColumns(v, hashtags) <==> c.Video?
    ensures forall f :: f != Hashtags ==> VideoColumns(v, hashtags)[Video(f)] == Get(v, Name(Video(f)))
  {
  }

  /** The row of one video dict; joining a `hashtags` list with a non-string
      element raises. */
  function VideoRow(runMeta: Row, user: UserInfo, v: Fields): Result<Row> {
    var hashtags :- CommaJoined(Get(v, "hashtags"));
    Ok(runMeta + UserColumns(user) + VideoColumns(v, hashtags))
  }

  /** A video row keeps the run columns, carries its user's name and its own
      id, and its hashtags are the comma-join of a list, else None. */
  lemma VideoRowColumns(runMeta: Row, user: UserInfo, v: Fields)
    requires forall c :: c in runMeta ==> c.Run?
    ensures VideoRow(runMeta, user, v).Ok? <==> CommaJoined(Get(v, "hashtags")).Ok?
    ensures VideoRow(runMeta, user, v).Ok? ==>
              var row := VideoRow(runMeta, user, v).value;
              && Carries(row, runMeta)
              && (forall c :: c in row ==> c in runMeta || !c.Run?)
              && User(Username) in row && row[User(Username)] == user.username
              && Video(VideoId) in row && row[Video(VideoId)] == Get(v, "video_id")
              && Video(Hashtags) in row
              && row[Video(Hashtags)] == CommaJoined(Get(v, "hashtags")).value
              && (!Get(v, "hashtags").JList? ==> row[Video(Hashtags)] == JNull)
  {
  }

  /** Every user and video column of a video row: the user's four values, the
      joined hashtags, and the video's value under every other header. */
  lemma VideoRowContents(runMeta: Row, user: UserInfo, v: Fields)
    requires forall c :: c in runMeta ==> c.Run?
    requires VideoRow(runMeta, user, v).Ok?
    ensures var row := VideoRow(runMeta, user, v).value;
            && (forall c: Column :: c.User? ==> c in row && row[c] == UserColumns(user)[c])
            && (forall f :: f != Hashtags ==> Video(f) in row && row[Video(f)] == Get(v, Name(Video(f))))
  {
    var hashtags := CommaJoined(Get(v, "hashtags")).value;
    var uc := UserColumns(user);
    var vc := VideoColumns(v, hashtags);
    var row := VideoRow(runMeta, user, v).value;
    assert row == runMeta + uc + vc;
    VideoColumnsValues(v, hashtags);
    forall c: Column | c.User?
      ensures c in row && row[c] == uc[c]
    {
      match c.user
      case UserScrapedAt =>
      case UserSource =>
      case Username =>
      case ProfileUrl =>
    }
  }

  /** The rows of a result's video dicts, in order; the first failing one
      ends it. */
  function VideoRows(runMeta: Row, user: UserInfo, ds: seq<Fields>): (r: Result<seq<Row>>)
    ensures r.Ok? <==> forall i :: 0 <= i < |ds| ==> VideoRow(runMeta, user, ds[i]).Ok?
    ensures r.Ok? ==> |r.value| == |ds| && forall i :: 0 <= i < |ds| ==> r.value[i] == VideoRow(runMeta, user, ds[i]).value
  {
    var rs := seq(|ds|, i requires 0 <= i < |ds| => VideoRow(runMeta, user, ds[i]));
    assert forall i :: 0 <= i < |ds| ==> rs[i] == VideoRow(runMeta, user, ds[i]);
    Collect(rs)
  }

  /** The rows of one user result: none for a result that is not a dict,
      else one per dict in its `videos`; a `videos` value that cannot be
      iterated raises. */
  function ResultRows(runMeta: Row, r: Json): Result<seq<Row>> {
    if !r.JDict? then Ok([])
    else
      var vs :- Iterate(GetOr(r.fields, "videos", JList([])));
      VideoRows(runMeta, UserInfoOf(r.fields), DictElements(vs))
  }

  /** The video dicts of a result dict, or none when there are none to iterate. */
  function ResultVideos(r: Json): seq<Fields> {
    if !r.JDict? then []
    else
      match Iterate(GetOr(r.fields, "videos", JList([])))
      case Ok(vs) => DictElements(vs)
      case Raise(_) => []
  }

  /** A result dict yields one row per video dict, in order, each built from
      that video and the result's user; it fails exactly when `videos` cannot
      be iterated or one of the video rows fails. */
  lemma ResultRowsOrder(runMeta: Row, r: Json)
    ensures !r.JDict? ==> ResultRows(runMeta, r) == Ok([])
    ensures r.JDict? ==>
              var it := Iterate(GetOr(r.fields, "videos", JList([])));
              var ds := ResultVideos(r);
              (ResultRows(runMeta, r).Ok? <==>
                 it.Ok? && forall i :: 0 <= i < |ds| ==> VideoRow(runMeta, UserInfoOf(r.fields), ds[i]).Ok?)
    ensures ResultRows(runMeta, r).Ok? ==>
              var ds := ResultVideos(r);
              && |ResultRows(runMeta, r).value| == |ds|
              && forall i :: 0 <= i < |ds| ==>
                   ResultRows(runMeta, r).value[i] == VideoRow(runMeta, UserInfoOf(r.fields), ds[i]).value
  {
    if r.JDict? {
      var it := Iterate(GetOr(r.fields, "videos", JList([])));
      if it.Ok? {
        var ds := DictElements(it.value);
        assert ResultVideos(r) == ds;
        assert ResultRows(runMeta, r) == VideoRows(runMeta, UserInfoOf(r.fields), ds);
      } else {
        assert ResultRows(runMeta, r).Raise?;
      }
    }
  }

  /** Every row of one result keeps the run columns. */
  lemma ResultRowsCarry(runMeta: Row, r: Json)
    requires forall c :: c in runMeta ==> c.Run?
    requires ResultRows(runMeta, r).Ok?
    ensures forall i :: 0 <= i < |ResultRows(runMeta, r).value| ==> Carries(ResultRows(runMeta, r).value[i], runMeta)
  {
    ResultRowsOrder(runMeta, r);
    var ds := ResultVideos(r);
    if r.JDict? {
      forall i | 0 <= i < |ds|
        ensures Carries(ResultRows(runMeta, r).value[i], runMeta)
      {
        VideoRowColumns(runMeta, UserInfoOf(r.fields), ds[i]);
      }
    }
  }

  // ---------------------------------------------------------------------
  // The whole run file
  // ---------------------------------------------------------------------

  /** How many rows the results yield: their video dicts, result after result. */
  function VideoTotal(rs: seq<Json>): nat {
    if |rs| == 0 then 0 else |ResultVideos(rs[0])| + VideoTotal(rs[1..])
  }

  /** The loop over results: each result's rows in turn; the first failure
      ends it. */
  function AllResults(runMeta: Row, rs: seq<Json>): Result<seq<Row>> {
    if |rs| == 0 then Ok([])
    else
      var first :- ResultRows(runMeta, rs[0]);
      var rest :- AllResults(runMeta, rs[1..]);
      Ok(first + rest)
  }

  function ResultRowsAt(runMeta: Row, rs: seq<Json>): seq<Result<seq<Row>>> {
    seq(|rs|, k requires 0 <= k < |rs| => ResultRows(runMeta, rs[k]))
  }

  /** The loop's rows are each result's rows, result after result; the first
      result that raises ends it with its error. */
  lemma {:induction false} AllResultsFlat(runMeta: Row, rs: seq<Json>)
    ensures AllResults(runMeta, rs) == FlatCollect(ResultRowsAt(runMeta, rs))
  {
    if |rs| > 0 {
      AllResultsFlat(runMeta, rs[1..]);
      assert ResultRowsAt(runMeta, rs)[1..] == ResultRowsAt(runMeta, rs[1..]);
      FlatCollectCons(ResultRowsAt(runMeta, rs));
    }
  }

  /** The loop succeeds exactly when every result's rows do. */
  lemma {:induction false} AllResultsOk(runMeta: Row, rs: seq<Json>)
    ensures AllResults(runMeta, rs).Ok? <==> forall k :: 0 <= k < |rs| ==> ResultRows(runMeta, rs[k]).Ok?
  {
    if |rs| > 0 {
      AllResultsOk(runMeta, rs[1..]);
      assert forall k :: 1 <= k < |rs| ==> rs[1..][k - 1] == rs[k];
    }
  }

  /** A successful loop yields one row per video dict under the results. */
  lemma {:induction false} AllResultsCount(runMeta: Row, rs: seq<Json>)
    requires AllResults(runMeta, rs).Ok?
    ensures |AllResults(runMeta, rs).value| == VideoTotal(rs)
  {
    if |rs| > 0 {
      AllResultsCount(runMeta, rs[1..]);
      ResultRowsOrder(runMeta, rs[0]);
    }
  }

  /** Every row of a successful loop carries the run columns. */
  lemma {:induction false} AllResultsCarry(runMeta: Row, rs: seq<Json>)
    requires forall c :: c in runMeta ==> c.Run?
    requires AllResults(runMeta, rs).Ok?
    ensures forall i :: 0 <= i < |AllResults(runMeta, rs).value| ==> Carries(AllResults(runMeta, rs).value[i], runMeta)
  {
    if |rs| > 0 {
      AllResultsCarry(runMeta, rs[1..]);
      ResultRowsCarry(runMeta, rs[0]);
      var first := ResultRows(runMeta, rs[0]).value;
      var rest := AllResults(runMeta, rs[1..]).value;
      CarriesAppend(first, rest, runMeta);
    }
  }

  /** `main`'s row loop: a document that is not a dict raises when its run
      columns are read; otherwise one row per video dict under each result
      dict, every row carrying the run columns. */
  function UserVideoRows(data: Json): (r: Result<seq<Row>>)
    ensures !data.JDict? ==> r == Raise(AttributeError)
    ensures data.JDict? ==>
              var it := Iterate(GetOr(data.fields, "results", JList([])));
              && (it.Raise? ==> r == Raise(TypeError))
              && (it.Ok? ==> (r.Ok? <==> forall k :: 0 <= k < |it.value| ==> ResultRows(RunMeta(data.fields), it.value[k]).Ok?))
              && (r.Ok? ==> it.Ok? && |r.value| == VideoTotal(it.value))
              && (r.Ok? ==> forall i :: 0 <= i < |r.value| ==> Carries(r.value[i], RunMeta(data.fields)))
              && (it.Ok? ==> r == FlatCollect(ResultRowsAt(RunMeta(data.fields), it.value)))
  {
    var df :- AsDict(data);
    var runMeta := RunMeta(df);
    var rs :- Iterate(GetOr(df, "results", JList([])));
    AllResultsOk(runMeta, rs);
    AllResultsFlat(runMeta, rs);
    if AllResults(runMeta, rs).Ok? then
      AllResultsCount(runMeta, rs);
      AllResultsCarry(runMeta, rs);
      AllResults(runMeta, rs)
    else AllResults(runMeta, rs)
  }

  /** Row `j` of one result is the row of its video `j`. */
  lemma ResultRowAt(m: Row, r: Json, j: nat)
    requires ResultRows(m, r).Ok? && j < |ResultVideos(r)|
    ensures r.JDict? && VideoRow(m, UserInfoOf(r.fields), ResultVideos(r)[j]).Ok?
    ensures j < |ResultRows(m, r).value|
    ensures ResultRows(m, r).value[j] == VideoRow(m, UserInfoOf(r.fields), ResultVideos(r)[j]).value
  {
    ResultRowsOrder(m, r);
  }

  /** A result contributes one row per video dictionary. */
  lemma ResultRowsLength(runMeta: Row, r: Json)
    requires ResultRows(runMeta, r).Ok?
    ensures |ResultRows(runMeta, r).value| == |ResultVideos(r)|
  {
    ResultRowsOrder(runMeta, r);
  }

  lemma ResultRowsAtPrefix(m: Row, rs: seq<Json>, k: nat)
    requires 0 < k <= |rs|
    ensures ResultRowsAt(m, rs)[..k][0] == ResultRows(m, rs[0])
    ensures ResultRowsAt(m, rs)[..k][1..] == ResultRowsAt(m, rs[1..])[..k - 1]
    ensures rs[..k][1..] == rs[1..][..k - 1]
  {
  }

  lemma ResultsOk(m: Row, rs: seq<Json>)
    requires FlatCollect(ResultRowsAt(m, rs)).Ok?
    ensures forall i :: 0 <= i < |rs| ==> ResultRows(m, rs[i]).Ok?
  {
    FlatCollectAllOk(ResultRowsAt(m, rs));
    assert forall i :: 0 <= i < |rs| ==> ResultRowsAt(m, rs)[i] == ResultRows(m, rs[i]);
  }

  /** The earlier results produce one row per video dictionary. */
  lemma {:induction false} RowsBeforeCount(m: Row, rs: seq<Json>, k: nat)
    requires k <= |rs|
    requires forall i :: 0 <= i < k ==> ResultRows(m, rs[i]).Ok?
    ensures OkTotal(ResultRowsAt(m, rs)[..k]) == VideoTotal(rs[..k])
  {
    if k > 0 {
      ResultRowsLength(m, rs[0]);
      RowsBeforeCount(m, rs[1..], k - 1);
      ResultRowsAtPrefix(m, rs, k);
    }
  }

  /** The row of video `j` of result `k` sits after the rows of all earlier
      results and of the earlier videos of its own result, and is built from
      that video and that result's user. */
  lemma UserVideoRowAt(data: Json, k: nat, j: nat)
    requires data.JDict? && UserVideoRows(data).Ok?
    requires Iterate(GetOr(data.fields, "results", JList([]))).Ok?
    requires k < |Iterate(GetOr(data.fields, "results", JList([]))).value|
    requires j < |ResultVideos(Iterate(GetOr(data.fields, "results", JList([]))).value[k])|
    ensures var rs := Iterate(GetOr(data.fields, "results", JList([]))).value;
            var rows := UserVideoRows(data).value;
            && rs[k].JDict?
            && VideoTotal(rs[..k]) + j < |rows|
            && rows[VideoTotal(rs[..k]) + j] ==
                 VideoRow(RunMeta(data.fields), UserInfoOf(rs[k].fields), ResultVideos(rs[k])[j]).value
  {
    var rs := Iterate(GetOr(data.fields, "results", JList([]))).value;
    var m := RunMeta(data.fields);
    AllResultsFlat(m, rs);
    AllResultsRowAt(m, rs, k, j);
  }

  /** Over the results themselves: video `j` of result `k` gives the row
      after all rows of the earlier results. */
  lemma AllResultsRowAt(m: Row, rs: seq<Json>, k: nat, j: nat)
    requires AllResults(m, rs).Ok?
    requires k < |rs| && j < |ResultVideos(rs[k])|
    ensures rs[k].JDict? && VideoRow(m, UserInfoOf(rs[k].fields), ResultVideos(rs[k])[j]).Ok?
    ensures VideoTotal(rs[..k]) + j < |AllResults(m, rs).value|
    ensures AllResults(m, rs).value[VideoTotal(rs[..k]) + j] ==
              VideoRow(m, UserInfoOf(rs[k].fields), ResultVideos(rs[k])[j]).value
  {
    AllResultsFlat(m, rs);
    ResultsOk(m, rs);
    ResultRowAt(m, rs[k], j);
    FlatCollectIndex(ResultRowsAt(m, rs), k, j);
    RowsBeforeCount(m, rs, k);
  }
}
