/** Flattening enriched video records into CSV rows (video_metadata_to_csv.py):
    the best-format and thumbnail summaries, the per-record field fallbacks,
    and the choice between a batch file and a single-video file. */
module VideoCsv {
  import opened Python

  // ---------------------------------------------------------------------
  // Columns
  // ---------------------------------------------------------------------

  /** What a batch file says about its run. */
  datatype RunField = RunStartedAt | SourceInput | VideoCountRequested | VideoCountSucceeded
    | VideoCountFailed | AttemptedComments | SkippedExisting

  /** The record's identity, text and counters. */
  datatype CoreField = VideoId | Url | Username | ScrapedAt | YtId | Title | Description | Timestamp
    | Duration | ViewCount | LikeCount | CommentCount | RepostCount | SaveCount
    | Channel | ChannelId | Uploader | UploaderId | Track | Album | Artists

  /** The chosen format. */
  datatype FormatField = BestFormatId | BestExt | BestVcodec | BestAcodec | BestWidth | BestHeight
    | BestTbr | BestFilesize

  /** The chosen thumbnail. */
  datatype ThumbField = ThumbId | ThumbUrl

  /** Where the tool found the video. */
  datatype LinkField = WebpageUrl | OriginalUrl | Extractor | ExtractorKey

  /** The columns a video row can carry; `SourceFile` tags a single-video record
      with the file it came from. */
  datatype Column =
    | Run(run: RunField)
    | SourceFile
    | Core(core: CoreField)
    | Format(format: FormatField)
    | Thumb(thumb: ThumbField)
    | Link(link: LinkField)

  /** The column's header in the CSV. */
  function Name(c: Column): string {
    match c
    case Run(RunStartedAt) => "run_started_at"
    case Run(SourceInput) => "source_input"
    case Run(VideoCountRequested) => "video_count_requested"
    case Run(VideoCountSucceeded) => "video_count_succeeded"
    case Run(VideoCountFailed) => "video_count_failed"
    case Run(AttemptedComments) => "attempted_comments"
    case Run(SkippedExisting) => "skipped_existing"
    case SourceFile => "source_file"
    case Core(VideoId) => "video_id"
    case Core(Url) => "url"
    case Core(Username) => "username"
    case Core(ScrapedAt) => "scraped_at"
    case Core(YtId) => "yt_id"
    case Core(Title) => "title"
    case Core(Description) => "description"
    case Core(Timestamp) => "timestamp"
    case Core(Duration) => "duration"
    case Core(ViewCount) => "view_count"
    case Core(LikeCount) => "like_count"
    case Core(CommentCount) => "comment_count"
    case Core(RepostCount) => "repost_count"
    case Core(SaveCount) => "save_count"
    case Core(Channel) => "channel"
    case Core(ChannelId) => "channel_id"
    case Core(Uploader) => "uploader"
    case Core(UploaderId) => "uploader_id"
    case Core(Track) => "track"
    case Core(Album) => "album"
    case Core(Artists) => "artists"
    case Format(BestFormatId) => "best_format_id"
    case Format(BestExt) => "best_ext"
    case Format(BestVcodec) => "best_vcodec"
    case Format(BestAcodec) => "best_acodec"
    case Format(BestWidth) => "best_width"
    case Format(BestHeight) => "best_height"
    case Format(BestTbr) => "best_tbr"
    case Format(BestFilesize) => "best_filesize"
    case Thumb(ThumbId) => "thumb_id"
    case Thumb(ThumbUrl) => "thumb_url"
    case Link(WebpageUrl) => "webpage_url"
    case Link(OriginalUrl) => "original_url"
    case Link(Extractor) => "extractor"
    case Link(ExtractorKey) => "extractor_key"
  }

  /** The key of the chosen format a format column copies. */
  function FormatKey(f: FormatField): string {
    match f
    case BestFormatId => "format_id"
    case BestExt => "ext"
    case BestVcodec => "vcodec"
    case BestAcodec => "acodec"
    case BestWidth => "width"
    case BestHeight => "height"
    case BestTbr => "tbr"
    case BestFilesize => "filesize"
  }

  /** The key of the chosen thumbnail a thumbnail column copies. */
  function ThumbKey(f: ThumbField): string {
    match f
    case ThumbId => "id"
    case ThumbUrl => "url"
  }

  /** A format column is headed by its key behind `best_`, a thumbnail column
      by its key behind `thumb_`. */
  lemma FormatHeader(f: FormatField)
    ensures Name(Format(f)) == "best_" + FormatKey(f)
  {
  }

  lemma ThumbHeader(f: ThumbField)
    ensures Name(Thumb(f)) == "thumb_" + ThumbKey(f)
  {
  }

  /** The columns of the record read from the tool's document (or, for
      `scraped_at`, from the item) without a fallback. */
  predicate DocField(f: CoreField) {
    !(f == VideoId || f == Url || f == Username || f == Artists)
  }

  /** A row handed to the DataFrame: column to cell value. */
  type Row = map<Column, Json>

  /** The columns `normalize_record` writes itself; the others come from the
      run metadata it is given. */
  predicate RecordColumn(c: Column) {
    c.Core? || c.Format? || c.Thumb? || c.Link?
  }

  // ---------------------------------------------------------------------
  // pick_best_format
  // ---------------------------------------------------------------------

  /** A format's rank: `(height or 0, tbr or 0, filesize or filesize_approx or 0)`. */
  datatype Score = Score(height: int, tbr: real, size: int)

  /** The rank the search starts from, so only scores above it are chosen. */
  const Sentinel: Score := Score(-1, -1.0, -1)

  /** Python's `a > b` on the rank tuples: lexicographic. */
  predicate Above(a: Score, b: Score) {
    || a.height > b.height
    || (a.height == b.height && a.tbr > b.tbr)
    || (a.height == b.height && a.tbr == b.tbr && a.size > b.size)
  }

  lemma AboveTransitive(a: Score, b: Score, c: Score)
    requires Above(a, b) && Above(b, c)
    ensures Above(a, c)
  {
  }

  lemma AboveTotal(a: Score, b: Score)
    ensures a == b || Above(a, b) || Above(b, a)
    ensures !(Above(a, b) && Above(b, a))
  {
  }

  /** The rank of one format dict; `int()`/`float()` of a bad value raises. */
  function ScoreOf(f: Fields): (r: Result<Score>)
    ensures r.Ok? ==> (Truthy(Get(f, "height")) ==> ToInt(Get(f, "height")) == Ok(r.value.height))
                      && (!Truthy(Get(f, "height")) ==> r.value.height == 0)
    ensures r.Ok? ==> (Truthy(Get(f, "tbr")) ==> ToFloat(Get(f, "tbr")) == Ok(r.value.tbr))
                      && (!Truthy(Get(f, "tbr")) ==> r.value.tbr == 0.0)
    ensures r.Ok? && Truthy(Get(f, "filesize")) ==> ToInt(Get(f, "filesize")) == Ok(r.value.size)
    ensures r.Ok? && !Truthy(Get(f, "filesize")) && Truthy(Get(f, "filesize_approx")) ==>
              ToInt(Get(f, "filesize_approx")) == Ok(r.value.size)
    ensures r.Ok? && !Truthy(Get(f, "filesize")) && !Truthy(Get(f, "filesize_approx")) ==> r.value.size == 0
    ensures r.Ok? <==>
              && ToInt(Or(Get(f, "height"), JInt(0))).Ok?
              && ToFloat(Or(Get(f, "tbr"), JFloat(0.0))).Ok?
              && ToInt(Or(Or(Get(f, "filesize"), Get(f, "filesize_approx")), JInt(0))).Ok?
  {
    var h :- ToInt(Or(Get(f, "height"), JInt(0)));
    var t :- ToFloat(Or(Get(f, "tbr"), JFloat(0.0)));
    var s :- ToInt(Or(Or(Get(f, "filesize"), Get(f, "filesize_approx")), JInt(0)));
    Ok(Score(h, t, s))
  }

  /** What the loop sees at one element: not a dict (skipped), or the
      attempt to rank a dict. */
  datatype Ranking = NotDict | Ranked(score: Result<Score>)

  /** The ranking of every element; each is computed exactly as the loop
      computes it when it reaches that element. */
  function Rankings(fs: seq<Json>): (rs: seq<Ranking>)
    ensures |rs| == |fs|
    ensures forall i :: 0 <= i < |fs| ==> (rs[i].Ranked? <==> fs[i].JDict?)
    ensures forall i :: 0 <= i < |fs| && fs[i].JDict? ==> rs[i].score == ScoreOf(fs[i].fields)
  {
    seq(|fs|, i requires 0 <= i < |fs| => if fs[i].JDict? then Ranked(ScoreOf(fs[i].fields)) else NotDict)
  }

  /** Every dict element from `from` on can be ranked. */
  predicate Rankable(rs: seq<Ranking>, from: nat) {
    forall j :: from <= j < |rs| && rs[j].Ranked? ==> rs[j].score.Ok?
  }

  /** Element `b` is the chosen one: a ranked dict above the sentinel, no dict
      ranks above it, and every dict before it ranks strictly below. */
  predicate IsBest(rs: seq<Ranking>, b: nat)
    requires Rankable(rs, 0)
  {
    && b < |rs| && rs[b].Ranked?
    && Above(rs[b].score.value, Sentinel)
    && (forall j :: 0 <= j < |rs| && rs[j].Ranked? ==> !Above(rs[j].score.value, rs[b].score.value))
    && (forall j :: 0 <= j < b && rs[j].Ranked? ==> Above(rs[b].score.value, rs[j].score.value))
  }

  /** No dict element ranks above the sentinel. */
  predicate NoneAboveSentinel(rs: seq<Ranking>)
    requires Rankable(rs, 0)
  {
    forall j :: 0 <= j < |rs| && rs[j].Ranked? ==> !Above(rs[j].score.value, Sentinel)
  }

  /** The source's loop: the best index and score so far, replaced on a
      strictly greater score. */
  function BestFrom(rs: seq<Ranking>, i: nat, best: Option<nat>, bestScore: Score): (r: Result<Option<nat>>)
    requires i <= |rs|
    requires best.Some? ==> best.value < i && rs[best.value].Ranked?
    ensures r.Ok? && r.value.Some? ==> r.value.value < |rs| && rs[r.value.value].Ranked?
    decreases |rs| - i
  {
    if i == |rs| then Ok(best)
    else if rs[i].NotDict? then BestFrom(rs, i + 1, best, bestScore)
    else
      var s :- rs[i].score;
      if Above(s, bestScore) then BestFrom(rs, i + 1, Some(i), s)
      else BestFrom(rs, i + 1, best, bestScore)
  }

  /** What holds of the loop's variables after the first `i` elements. */
  predicate BestSoFar(rs: seq<Ranking>, i: nat, best: Option<nat>, bestScore: Score)
    requires i <= |rs|
  {
    && (forall j :: 0 <= j < i && rs[j].Ranked? ==> rs[j].score.Ok?)
    && (best.None? ==>
          && bestScore == Sentinel
          && forall j :: 0 <= j < i && rs[j].Ranked? ==> !Above(rs[j].score.value, Sentinel))
    && (best.Some? ==>
          && best.value < i && rs[best.value].Ranked?
          && rs[best.value].score == Ok(bestScore)
          && Above(bestScore, Sentinel)
          && (forall j :: 0 <= j < i && rs[j].Ranked? ==> !Above(rs[j].score.value, bestScore))
          && (forall j :: 0 <= j < best.value && rs[j].Ranked? ==> Above(bestScore, rs[j].score.value)))
  }

  /** A strictly better score found at `i` becomes the best so far. */
  lemma BetterKeeps(rs: seq<Ranking>, i: nat, best: Option<nat>, bestScore: Score)
    requires i < |rs| && BestSoFar(rs, i, best, bestScore)
    requires rs[i].Ranked? && rs[i].score.Ok? && Above(rs[i].score.value, bestScore)
    ensures BestSoFar(rs, i + 1, Some(i), rs[i].score.value)
  {
    var s := rs[i].score.value;
    forall j | 0 <= j < i && rs[j].Ranked?
      ensures !Above(rs[j].score.value, s) && Above(s, rs[j].score.value)
    {
      var sj := rs[j].score.value;
      AboveTotal(sj, bestScore);
      AboveTotal(sj, s);
      if Above(bestScore, sj) {
        AboveTransitive(s, bestScore, sj);
      }
      if Above(sj, s) {
        AboveTransitive(sj, s, bestScore);
      }
    }
    if best.Some? {
      AboveTransitive(s, bestScore, Sentinel);
    }
  }

  lemma {:induction false} BestFromCorrect(rs: seq<Ranking>, i: nat, best: Option<nat>, bestScore: Score)
    requires i <= |rs| && BestSoFar(rs, i, best, bestScore)
    ensures BestFrom(rs, i, best, bestScore).Ok? <==> Rankable(rs, i)
    ensures BestFrom(rs, i, best, bestScore).Ok? && BestFrom(rs, i, best, bestScore).value.None? ==>
              Rankable(rs, 0) && NoneAboveSentinel(rs)
    ensures BestFrom(rs, i, best, bestScore).Ok? && BestFrom(rs, i, best, bestScore).value.Some? ==>
              Rankable(rs, 0) && IsBest(rs, BestFrom(rs, i, best, bestScore).value.value)
    decreases |rs| - i
  {
    if i < |rs| {
      if rs[i].NotDict? {
        BestFromCorrect(rs, i + 1, best, bestScore);
      } else if rs[i].score.Ok? {
        var s := rs[i].score.value;
        if Above(s, bestScore) {
          BetterKeeps(rs, i, best, bestScore);
          BestFromCorrect(rs, i + 1, Some(i), s);
        } else {
          BestFromCorrect(rs, i + 1, best, bestScore);
        }
      }
    }
  }

  /** The first maximum is unique: two chosen indices are the same index. */
  lemma IsBestUnique(rs: seq<Ranking>, b1: nat, b2: nat)
    requires Rankable(rs, 0) && IsBest(rs, b1) && IsBest(rs, b2)
    ensures b1 == b2
  {
  }

  /** The columns describing the chosen format. */
  function FormatColumns(best: Fields): (r: Row)
    ensures forall c :: c in r ==> c.Format?
    ensures Format(BestFilesize) in r
  {
    map[
      Format(BestFormatId) := Get(best, "format_id"),
      Format(BestExt) := Get(best, "ext"),
      Format(BestVcodec) := Get(best, "vcodec"),
      Format(BestAcodec) := Get(best, "acodec"),
      Format(BestWidth) := Get(best, "width"),
      Format(BestHeight) := Get(best, "height"),
      Format(BestTbr) := Get(best, "tbr"),
      Format(BestFilesize) := Or(Get(best, "filesize"), Get(best, "filesize_approx"))
    ]
  }

  /** The format columns are all eight. */
  lemma FormatColumnsDomain(best: Fields)
    ensures forall c :: c in FormatColumns(best) <==> c.Format?
  {
    forall c: Column | c.Format?
      ensures c in FormatColumns(best)
    {
      match c.format
      case BestFormatId =>
      case BestExt =>
      case BestVcodec =>
      case BestAcodec =>
      case BestWidth =>
      case BestHeight =>
      case BestTbr =>
      case BestFilesize =>
    }
  }

  /** Each format column holds the chosen format's value under the column's
      key, except that the size falls back to `filesize_approx` when
      `filesize` is falsy. */
  lemma FormatColumnsValues(best: Fields)
    ensures forall f :: f != BestFilesize ==>
              Format(f) in FormatColumns(best) && FormatColumns(best)[Format(f)] == Get(best, FormatKey(f))
    ensures FormatColumns(best)[Format(BestFilesize)] == Or(Get(best, "filesize"), Get(best, "filesize_approx"))
  {
    FormatColumnsDomain(best);
  }

  /** `pick_best_format`: the columns of the chosen format, if any. */
  function PickBestFormat(formats: Json): (r: Result<Row>)
    ensures r.Ok? ==> forall c :: c in r.value ==> c.Format?
  {
    if !formats.JList? || |formats.items| == 0 then Ok(map[])
    else
      var best :- BestFrom(Rankings(formats.items), 0, None, Sentinel);
      match best
      case None => Ok(map[])
      case Some(b) => Ok(FormatColumns(formats.items[b].fields))
  }

  /** The chosen format is the highest-ranked dict element, the earliest among
      equals; there is none when `formats` is not a non-empty list or no dict
      element ranks above the sentinel; ranking a dict that cannot be ranked
      fails the whole choice. */
  lemma PickBestFormatChoice(formats: Json)
    ensures !formats.JList? || |formats.items| == 0 ==> PickBestFormat(formats) == Ok(map[])
    ensures formats.JList? ==> (PickBestFormat(formats).Ok? <==> Rankable(Rankings(formats.items), 0))
    ensures formats.JList? && PickBestFormat(formats).Ok? ==>
              (PickBestFormat(formats).value == map[] <==> NoneAboveSentinel(Rankings(formats.items)))
    ensures formats.JList? && PickBestFormat(formats).Ok? ==>
              forall b: nat :: IsBest(Rankings(formats.items), b) ==>
                PickBestFormat(formats).value == FormatColumns(formats.items[b].fields)
    ensures formats.JList? && PickBestFormat(formats).Ok? && PickBestFormat(formats).value != map[] ==>
              exists b: nat :: IsBest(Rankings(formats.items), b) &&
                PickBestFormat(formats).value == FormatColumns(formats.items[b].fields)
  {
    if formats.JList? && |formats.items| == 0 {
      assert Rankings(formats.items) == [];
    } else if formats.JList? {
      var rs := Rankings(formats.items);
      BestFromCorrect(rs, 0, None, Sentinel);
      var best := BestFrom(rs, 0, None, Sentinel);
      if best.Ok? && best.value.Some? {
        var b := best.value.value;
        assert IsBest(rs, b) && PickBestFormat(formats).value == FormatColumns(formats.items[b].fields);
        forall b': nat | IsBest(rs, b')
          ensures PickBestFormat(formats).value == FormatColumns(formats.items[b'].fields)
        {
          IsBestUnique(rs, b, b');
        }
      }
    }
  }

  // ---------------------------------------------------------------------
  // first_thumbnail
  // ---------------------------------------------------------------------

  /** Lists and dicts cannot be dict keys. */
  predicate Hashable(j: Json) {
    !(j.JList? || j.JDict?)
  }

  /** `{t.get("id"): t for t in ts if isinstance(t, dict)}`, from element `i` on,
      added to `m`; a later element with the same id replaces an earlier one. */
  function Preferred(ts: seq<Json>, i: nat, m: map<Json, Json>): Result<map<Json, Json>>
    requires i <= |ts|
    decreases |ts| - i
  {
    if i == |ts| then Ok(m)
    else if !ts[i].JDict? then Preferred(ts, i + 1, m)
    else
      var key := Get(ts[i].fields, "id");
      if !Hashable(key) then Raise(TypeError)
      else Preferred(ts, i + 1, m[key := ts[i]])
  }

  /** Every dict element's id can be a dict key. */
  predicate HashableIds(ts: seq<Json>) {
    forall j :: 0 <= j < |ts| && ts[j].JDict? ==> Hashable(Get(ts[j].fields, "id"))
  }

  predicate HasId(t: Json, id: string) {
    t.JDict? && Get(t.fields, "id") == JStr(id)
  }

  /** The index of the last dict in `ts[..n]` whose id is `id`. */
  function LastWithId(ts: seq<Json>, n: nat, id: string): (r: Option<nat>)
    requires n <= |ts|
    ensures r.Some? ==> r.value < n && HasId(ts[r.value], id)
    ensures r.Some? ==> forall j :: r.value < j < n ==> !HasId(ts[j], id)
    ensures r.None? ==> forall j :: 0 <= j < n ==> !HasId(ts[j], id)
  {
    if n == 0 then None
    else if HasId(ts[n - 1], id) then Some(n - 1)
    else LastWithId(ts, n - 1, id)
  }

  /** The value `preferred.get(id)` returns. */
  function Lookup(m: map<Json, Json>, id: string): Json {
    if JStr(id) in m then m[JStr(id)] else JNull
  }

  lemma {:induction false} PreferredCorrect(ts: seq<Json>, i: nat, m: map<Json, Json>, id: string)
    requires i <= |ts|
    requires HashableIds(ts[..i])
    requires Lookup(m, id) == (match LastWithId(ts, i, id) case Some(j) => ts[j] case None => JNull)
    ensures Preferred(ts, i, m).Ok? <==> HashableIds(ts)
    ensures Preferred(ts, i, m).Ok? ==>
              Lookup(Preferred(ts, i, m).value, id) == (match LastWithId(ts, |ts|, id) case Some(j) => ts[j] case None => JNull)
    decreases |ts| - i
  {
    if i == |ts| {
      assert ts[..i] == ts;
    } else {
      assert forall j :: 0 <= j < i ==> ts[..i + 1][j] == ts[..i][j];
      if !ts[i].JDict? {
        PreferredCorrect(ts, i + 1, m, id);
      } else {
        var key := Get(ts[i].fields, "id");
        if Hashable(key) {
          PreferredCorrect(ts, i + 1, m[key := ts[i]], id);
        }
      }
    }
  }

  /** The thumbnail the lookup `cover or originCover or dynamicCover` finds:
      the last dict with the first of those ids that occurs at all. */
  function CoverIndex(ts: seq<Json>): (r: Option<nat>)
    ensures r.Some? ==> r.value < |ts| && ts[r.value].JDict?
    ensures r.None? <==>
              forall j :: 0 <= j < |ts| ==>
                !HasId(ts[j], "cover") && !HasId(ts[j], "originCover") && !HasId(ts[j], "dynamicCover")
    ensures r.Some? && !HasId(ts[r.value], "cover") ==> forall j :: 0 <= j < |ts| ==> !HasId(ts[j], "cover")
    ensures r.Some? && HasId(ts[r.value], "dynamicCover") ==>
              forall j :: 0 <= j < |ts| ==> !HasId(ts[j], "originCover")
  {
    match LastWithId(ts, |ts|, "cover")
    case Some(j) => Some(j)
    case None =>
      match LastWithId(ts, |ts|, "originCover")
      case Some(j) => Some(j)
      case None => LastWithId(ts, |ts|, "dynamicCover")
  }

  function ThumbColumns(t: Fields): (r: Row)
    ensures forall c :: c in r ==> c.Thumb?
  {
    map[Thumb(ThumbId) := Get(t, "id"), Thumb(ThumbUrl) := Get(t, "url")]
  }

  /** The thumbnail columns are both, each the thumbnail's value under the
      column's key. */
  lemma ThumbColumnsValues(t: Fields)
    ensures forall c :: c in ThumbColumns(t) <==> c.Thumb?
    ensures forall f :: ThumbColumns(t)[Thumb(f)] == Get(t, ThumbKey(f))
  {
    forall c: Column | c.Thumb?
      ensures c in ThumbColumns(t)
    {
      match c.thumb
      case ThumbId =>
      case ThumbUrl =>
    }
  }

  /** A dict carrying an id is not empty, hence truthy. */
  lemma HasIdTruthy(t: Json, id: string)
    requires HasId(t, id)
    ensures Truthy(t)
  {
    assert Find(t.fields, "id").Some?;
  }

  /** `first_thumbnail`: the preferred cover's columns, else the first
      element's when it is a dict, else nothing. */
  function FirstThumbnail(thumbnails: Json): (r: Result<Row>)
    ensures r.Ok? ==> forall c :: c in r.value ==> c.Thumb?
  {
    if !thumbnails.JList? || |thumbnails.items| == 0 then Ok(map[])
    else
      var ts := thumbnails.items;
      var m :- Preferred(ts, 0, map[]);
      var cover := Or(Or(Lookup(m, "cover"), Lookup(m, "originCover")), Lookup(m, "dynamicCover"));
      if cover.JDict? then Ok(ThumbColumns(cover.fields))
      else if ts[0].JDict? then Ok(ThumbColumns(ts[0].fields))
      else Ok(map[])
  }

  /** The thumbnail chosen is the last dict carrying the first of the ids
      `cover`, `originCover`, `dynamicCover` that occurs, else the first
      element when it is a dict; an unhashable id fails the lookup table. */
  lemma FirstThumbnailChoice(thumbnails: Json)
    ensures !thumbnails.JList? || |thumbnails.items| == 0 ==> FirstThumbnail(thumbnails) == Ok(map[])
    ensures thumbnails.JList? ==> (FirstThumbnail(thumbnails).Ok? <==> HashableIds(thumbnails.items))
    ensures FirstThumbnail(thumbnails).Ok? && thumbnails.JList? && |thumbnails.items| > 0 ==>
              var ts := thumbnails.items;
              var r := FirstThumbnail(thumbnails).value;
              match CoverIndex(ts)
              case Some(j) => r == ThumbColumns(ts[j].fields)
              case None => r == (if ts[0].JDict? then ThumbColumns(ts[0].fields) else map[])
  {
    if thumbnails.JList? && |thumbnails.items| > 0 {
      var ts := thumbnails.items;
      assert ts[..0] == [];
      PreferredCorrect(ts, 0, map[], "cover");
      PreferredCorrect(ts, 0, map[], "originCover");
      PreferredCorrect(ts, 0, map[], "dynamicCover");
      CoverTruthy(ts);
    }
  }

  lemma CoverTruthy(ts: seq<Json>)
    ensures forall id :: LastWithId(ts, |ts|, id).Some? ==> Truthy(ts[LastWithId(ts, |ts|, id).value])
  {
    forall id | LastWithId(ts, |ts|, id).Some?
      ensures Truthy(ts[LastWithId(ts, |ts|, id).value])
    {
      HasIdTruthy(ts[LastWithId(ts, |ts|, id).value], id);
    }
  }

  // ---------------------------------------------------------------------
  // normalize_record
  // ---------------------------------------------------------------------

  /** The `yt_dlp` sub-document, a non-dict counting as empty. */
  function YtFields(item: Fields): Fields {
    var y := Get(item, "yt_dlp");
    if y.JDict? then y.fields else []
  }


  /** The four columns `normalize_record` reads from the enrichment item itself. */
  datatype ItemColumns = ItemColumns(videoId: Json, url: Json, username: Json, scrapedAt: Json)

  function ItemColumnsOf(item: Fields): ItemColumns {
    ItemColumns(Get(item, "video_id"), Get(item, "url"), Get(item, "username"), Get(item, "scraped_at"))
  }

  /** The value a core column takes: the identity columns prefer the
      enrichment item and fall back to the tool's document, `scraped_at` comes
      from the item, `artists` is the joined list, and every other column is
      read from the document as it is. */
  function CoreValue(item: ItemColumns, yt: Fields, artists: Json, f: CoreField): Json {
    match f
    case VideoId => Or(item.videoId, Get(yt, "id"))
    case Url => Or(Or(item.url, Get(yt, "webpage_url")), Get(yt, "original_url"))
    case Username => Or(item.username, Get(yt, "uploader"))
    case ScrapedAt => item.scrapedAt
    case YtId => Get(yt, "id")
    case Title => Get(yt, "title")
    case Description => Get(yt, "description")
    case Timestamp => Get(yt, "timestamp")
    case Duration => Get(yt, "duration")
    case ViewCount => Get(yt, "view_count")
    case LikeCount => Get(yt, "like_count")
    case CommentCount => Get(yt, "comment_count")
    case RepostCount => Get(yt, "repost_count")
    case SaveCount => Get(yt, "save_count")
    case Channel => Get(yt, "channel")
    case ChannelId => Get(yt, "channel_id")
    case Uploader => Get(yt, "uploader")
    case UploaderId => Get(yt, "uploader_id")
    case Track => Get(yt, "track")
    case Album => Get(yt, "album")
    case Artists => artists
  }

  /** The record's identity, document and artists columns. */
  function CoreColumns(item: ItemColumns, yt: Fields, artists: Json): (r: Row)
    ensures forall c :: c in r ==> c.Core?
  {
    map f: CoreField :: Core(f) := CoreValue(item, yt, artists, f)
  }

  /** The core columns are all twenty-one. The seventeen without a fallback
      are `scraped_at` from the item, `yt_id` from the document's `id`, and
      every other one the document's value under the column's own header. */
  lemma CoreColumnsValues(item: ItemColumns, yt: Fields, artists: Json)
    ensures forall c :: c in CoreColumns(item, yt, artists) <==> c.Core?
    ensures CoreColumns(item, yt, artists)[Core(ScrapedAt)] == item.scrapedAt
    ensures CoreColumns(item, yt, artists)[Core(YtId)] == Get(yt, "id")
    ensures forall f :: DocField(f) && f != ScrapedAt && f != YtId ==>
              CoreColumns(item, yt, artists)[Core(f)] == Get(yt, Name(Core(f)))
  {
  }

  /** The identity columns prefer the enrichment item's values and fall back
      to the tool's document. */
  lemma CoreIdentity(item: ItemColumns, yt: Fields, artists: Json)
    ensures var r := CoreColumns(item, yt, artists);
            && Core(VideoId) in r && Core(Url) in r && Core(Username) in r && Core(Artists) in r
            && r[Core(VideoId)] == (if Truthy(item.videoId) then item.videoId else Get(yt, "id"))
            && r[Core(Url)] == (if Truthy(item.url) then item.url
                                else if Truthy(Get(yt, "webpage_url")) then Get(yt, "webpage_url")
                                else Get(yt, "original_url"))
            && r[Core(Username)] == (if Truthy(item.username) then item.username else Get(yt, "uploader"))
            && r[Core(Artists)] == artists
  {
  }

  function UrlColumns(yt: Fields): (r: Row)
    ensures forall c :: c in r ==> c.Link?
  {
    map[
      Link(WebpageUrl) := Get(yt, "webpage_url"),
      Link(OriginalUrl) := Get(yt, "original_url"),
      Link(Extractor) := Get(yt, "extractor"),
      Link(ExtractorKey) := Get(yt, "extractor_key")
    ]
  }

  /** The link columns are all four, each the document's value under the
      column's own header. */
  lemma UrlColumnsValues(yt: Fields)
    ensures forall c :: c in UrlColumns(yt) <==> c.Link?
    ensures forall c :: c in UrlColumns(yt) ==> UrlColumns(yt)[c] == Get(yt, Name(c))
  {
    forall c: Column | c.Link?
      ensures c in UrlColumns(yt)
    {
      match c.link
      case WebpageUrl =>
      case OriginalUrl =>
      case Extractor =>
      case ExtractorKey =>
    }
  }

  /** The run metadata, overridden by the record's own columns. */
  function Assemble(runMeta: Row, core: Row, best: Row, thumb: Row, urls: Row): (r: Row)
    requires forall c :: (c in core ==> c.Core?) && (c in urls ==> c.Link?)
    requires forall c :: (c in best ==> c.Format?) && (c in thumb ==> c.Thumb?)
    ensures forall c :: c in runMeta && !RecordColumn(c) ==> c in r && r[c] == runMeta[c]
    ensures forall c :: c in r ==> c in runMeta || RecordColumn(c)
    ensures forall c :: c in core ==> c in r && r[c] == core[c]
  {
    runMeta + core + best + thumb + urls
  }

  /** Each family of record columns comes from its own part: present when the
      part has it (or the run metadata does), with the part's value. */
  lemma AssembleParts(runMeta: Row, core: Row, best: Row, thumb: Row, urls: Row)
    requires forall c :: (c in core ==> c.Core?) && (c in urls ==> c.Link?)
    requires forall c :: (c in best ==> c.Format?) && (c in thumb ==> c.Thumb?)
    ensures var r := Assemble(runMeta, core, best, thumb, urls);
            forall c: Column :: c.Format? ==> (c in r <==> c in best || c in runMeta) && (c in best ==> r[c] == best[c])
    ensures var r := Assemble(runMeta, core, best, thumb, urls);
            forall c: Column :: c.Thumb? ==> (c in r <==> c in thumb || c in runMeta) && (c in thumb ==> r[c] == thumb[c])
    ensures var r := Assemble(runMeta, core, best, thumb, urls);
            forall c: Column :: c.Link? ==> (c in r <==> c in urls || c in runMeta) && (c in urls ==> r[c] == urls[c])
    ensures var r := Assemble(runMeta, core, best, thumb, urls);
            forall c: Column :: c.Core? ==> (c in r <==> c in core || c in runMeta)
  {
  }

  /** `normalize_record`: the run metadata followed by the record's columns. */
  function NormalizeRecord(item: Fields, runMeta: Row): Result<Row> {
    var yt := YtFields(item);
    var artists :- CommaJoined(Get(yt, "artists"));
    var best :- PickBestFormat(Get(yt, "formats"));
    var thumb :- FirstThumbnail(Get(yt, "thumbnails"));
    Ok(Assemble(runMeta, CoreColumns(ItemColumnsOf(item), yt, artists), best, thumb, UrlColumns(yt)))
  }

  /** A record converts exactly when its artists, formats and thumbnails do. */
  lemma NormalizeRecordOk(item: Fields, runMeta: Row)
    ensures var yt := YtFields(item);
            (NormalizeRecord(item, runMeta).Ok? <==>
               CommaJoined(Get(yt, "artists")).Ok? && PickBestFormat(Get(yt, "formats")).Ok?
               && FirstThumbnail(Get(yt, "thumbnails")).Ok?)
  {
  }

  /** A converted record keeps the run metadata under every column it does not
      write, adds no column beyond those and the record columns, and takes the
      identity columns from the enrichment item, falling back to the tool's
      document. */
  lemma NormalizeRecordColumns(item: Fields, runMeta: Row)
    requires NormalizeRecord(item, runMeta).Ok?
    ensures var r := NormalizeRecord(item, runMeta).value;
            && (forall c :: c in runMeta && !RecordColumn(c) ==> c in r && r[c] == runMeta[c])
            && (forall c :: c in r ==> c in runMeta || RecordColumn(c))
    ensures var r := NormalizeRecord(item, runMeta).value;
            var yt := YtFields(item);
            && Core(VideoId) in r && Core(Url) in r && Core(Username) in r && Core(Artists) in r
            && r[Core(VideoId)] == (if Truthy(Get(item, "video_id")) then Get(item, "video_id") else Get(yt, "id"))
            && r[Core(Url)] == (if Truthy(Get(item, "url")) then Get(item, "url")
                          else if Truthy(Get(yt, "webpage_url")) then Get(yt, "webpage_url")
                          else Get(yt, "original_url"))
            && r[Core(Username)] == (if Truthy(Get(item, "username")) then Get(item, "username") else Get(yt, "uploader"))
            && r[Core(Artists)] == CommaJoined(Get(yt, "artists")).value
  {
    var yt := YtFields(item);
    CoreIdentity(ItemColumnsOf(item), yt, CommaJoined(Get(yt, "artists")).value);
  }

  /** The format, thumbnail and link columns of a converted record are those of
      `pick_best_format(yt["formats"])`, `first_thumbnail(yt["thumbnails"])`
      and the document's url fields; a format or thumbnail column the summary
      leaves out is present only when the run metadata has it. */
  lemma NormalizeRecordParts(item: Fields, runMeta: Row)
    requires NormalizeRecord(item, runMeta).Ok?
    ensures var r := NormalizeRecord(item, runMeta).value;
            var best := PickBestFormat(Get(YtFields(item), "formats")).value;
            forall c: Column :: c.Format? ==> (c in r <==> c in best || c in runMeta) && (c in best ==> r[c] == best[c])
    ensures var r := NormalizeRecord(item, runMeta).value;
            var thumb := FirstThumbnail(Get(YtFields(item), "thumbnails")).value;
            forall c: Column :: c.Thumb? ==> (c in r <==> c in thumb || c in runMeta) && (c in thumb ==> r[c] == thumb[c])
    ensures var r := NormalizeRecord(item, runMeta).value;
            forall c: Column :: c.Link? ==> c in r && r[c] == Get(YtFields(item), Name(c))
  {
    var yt := YtFields(item);
    var core := CoreColumns(ItemColumnsOf(item), yt, CommaJoined(Get(yt, "artists")).value);
    var best := PickBestFormat(Get(yt, "formats")).value;
    var thumb := FirstThumbnail(Get(yt, "thumbnails")).value;
    assert NormalizeRecord(item, runMeta).value == Assemble(runMeta, core, best, thumb, UrlColumns(yt));
    AssembleParts(runMeta, core, best, thumb, UrlColumns(yt));
    UrlColumnsValues(yt);
  }

  /** The seventeen document columns of a converted record: `scraped_at` from
      the item, `yt_id` from the document's `id`, and every other one the
      document's value under the column's header. */
  lemma NormalizeRecordDocument(item: Fields, runMeta: Row)
    requires NormalizeRecord(item, runMeta).Ok?
    ensures var r := NormalizeRecord(item, runMeta).value;
            var yt := YtFields(item);
            && Core(ScrapedAt) in r && r[Core(ScrapedAt)] == Get(item, "scraped_at")
            && Core(YtId) in r && r[Core(YtId)] == Get(yt, "id")
            && forall f :: DocField(f) && f != ScrapedAt && f != YtId ==>
                 Core(f) in r && r[Core(f)] == Get(yt, Name(Core(f)))
  {
    var yt := YtFields(item);
    var core := CoreColumns(ItemColumnsOf(item), yt, CommaJoined(Get(yt, "artists")).value);
    var r := NormalizeRecord(item, runMeta).value;
    assert r == Assemble(runMeta, core, PickBestFormat(Get(yt, "formats")).value,
                         FirstThumbnail(Get(yt, "thumbnails")).value, UrlColumns(yt));
    CoreColumnsValues(ItemColumnsOf(item), yt, CommaJoined(Get(yt, "artists")).value);
    forall f | DocField(f) && f != ScrapedAt && f != YtId
      ensures Core(f) in r && r[Core(f)] == Get(yt, Name(Core(f)))
    {
      assert Core(f) in core;
    }
  }

  /** A `yt_dlp` value that is not a dict reads as an empty one: the record is
      the same after `item["yt_dlp"] = {}`. */
  lemma NonDictYtIsEmpty(item: Fields, runMeta: Row)
    requires !Get(item, "yt_dlp").JDict?
    ensures NormalizeRecord(item, runMeta) == NormalizeRecord(SetKey(item, "yt_dlp", JDict([])), runMeta)
  {
    var item' := SetKey(item, "yt_dlp", JDict([]));
    SetKeyGet(item, "yt_dlp", JDict([]), "video_id");
    SetKeyGet(item, "yt_dlp", JDict([]), "url");
    SetKeyGet(item, "yt_dlp", JDict([]), "username");
    SetKeyGet(item, "yt_dlp", JDict([]), "scraped_at");
    assert ItemColumnsOf(item') == ItemColumnsOf(item);
    assert YtFields(item') == [] == YtFields(item);
  }

  // ---------------------------------------------------------------------
  // Rows of one input file
  // ---------------------------------------------------------------------

  /** The run columns a batch file contributes to each of its rows. */
  function BatchRunMeta(d: Fields): (r: Row)
    ensures forall c :: c in r ==> c.Run?
  {
    map[
      Run(RunStartedAt) := Get(d, "run_started_at"),
      Run(SourceInput) := Get(d, "source_input"),
      Run(VideoCountRequested) := Get(d, "video_count_requested"),
      Run(VideoCountSucceeded) := Get(d, "video_count_succeeded"),
      Run(VideoCountFailed) := Get(d, "video_count_failed"),
      Run(AttemptedComments) := Get(d, "attempted_comments"),
      Run(SkippedExisting) := Get(d, "skipped_existing")
    ]
  }

  /** The run columns are all seven, each the file's value under the column's
      header. */
  lemma BatchRunMetaValues(d: Fields)
    ensures forall c :: c in BatchRunMeta(d) <==> c.Run?
    ensures forall c :: c in BatchRunMeta(d) ==> BatchRunMeta(d)[c] == Get(d, Name(c))
  {
    forall c: Column | c.Run?
      ensures c in BatchRunMeta(d)
    {
      match c.run
      case RunStartedAt =>
      case SourceInput =>
      case VideoCountRequested =>
      case VideoCountSucceeded =>
      case VideoCountFailed =>
      case AttemptedComments =>
      case SkippedExisting =>
    }
  }

  /** One row per dict element of a batch file's `results`, each converted by
      `normalize` (which carries the file's run metadata). */
  function BatchRows(items: seq<Json>, normalize: Fields -> Result<Row>): Result<seq<Row>> {
    var ds := DictElements(items);
    Collect(seq(|ds|, i requires 0 <= i < |ds| => normalize(ds[i])))
  }

  /** Whether a document is a batch file: a dict whose `results` is a list. */
  predicate IsBatch(data: Json) {
    data.JDict? && Get(data.fields, "results").JList?
  }

  /** The rows one input file contributes: a batch file's dict results with
      its run columns, any other dict as one record tagged with the file name,
      nothing for a document that is not a dict. */
  function FileRows(fileName: string, data: Json): Result<seq<Row>> {
    if IsBatch(data) then
      var meta := BatchRunMeta(data.fields);
      BatchRows(Get(data.fields, "results").items, item => NormalizeRecord(item, meta))
    else if data.JDict? then
      var row :- NormalizeRecord(data.fields, map[SourceFile := JStr(fileName)]);
      Ok([row])
    else Ok([])
  }

  /** The batch loop yields one row per dict in `results`, in order; it
      fails exactly when one of those conversions fails. */
  lemma BatchRowsOrder(items: seq<Json>, normalize: Fields -> Result<Row>)
    ensures BatchRows(items, normalize).Ok? <==> AllConvert(DictElements(items), normalize)
    ensures BatchRows(items, normalize).Ok? ==>
              && |BatchRows(items, normalize).value| == |DictElements(items)|
              && forall i :: 0 <= i < |DictElements(items)| ==>
                   BatchRows(items, normalize).value[i] == normalize(DictElements(items)[i]).value
  {
    var ds := DictElements(items);
    var rs := seq(|ds|, i requires 0 <= i < |ds| => normalize(ds[i]));
    assert BatchRows(items, normalize) == Collect(rs);
    assert |rs| == |ds| && forall i :: 0 <= i < |ds| ==> rs[i] == normalize(ds[i]);
    if AllConvert(ds, normalize) {
      forall i | 0 <= i < |rs| ensures rs[i].Ok? {
        assert rs[i] == normalize(ds[i]);
      }
    } else {
      var i :| 0 <= i < |ds| && !normalize(ds[i]).Ok?;
      assert !rs[i].Ok?;
    }
  }

  /** Every element converts without raising. */
  predicate AllConvert(ds: seq<Fields>, normalize: Fields -> Result<Row>) {
    forall i :: 0 <= i < |ds| ==> normalize(ds[i]).Ok?
  }

  /** A record keeps every run column the record itself does not set. */
  lemma NormalizeRecordCarries(item: Fields, runMeta: Row)
    requires forall c :: c in runMeta ==> !RecordColumn(c)
    requires NormalizeRecord(item, runMeta).Ok?
    ensures Carries(NormalizeRecord(item, runMeta).value, runMeta)
  {
    NormalizeRecordColumns(item, runMeta);
  }

  /** A batch file yields one row per dict in its `results`, in order; it
      fails exactly when one of those records fails. */
  lemma BatchFileRows(fileName: string, data: Json)
    requires IsBatch(data)
    ensures var ds := DictElements(Get(data.fields, "results").items);
            var meta := BatchRunMeta(data.fields);
            && (FileRows(fileName, data).Ok? <==> forall i :: 0 <= i < |ds| ==> NormalizeRecord(ds[i], meta).Ok?)
            && (FileRows(fileName, data).Ok? ==>
                  && |FileRows(fileName, data).value| == |ds|
                  && forall i :: 0 <= i < |ds| ==> FileRows(fileName, data).value[i] == NormalizeRecord(ds[i], meta).value)
  {
    var items := Get(data.fields, "results").items;
    var meta := BatchRunMeta(data.fields);
    var normalize := item => NormalizeRecord(item, meta);
    assert FileRows(fileName, data) == BatchRows(items, normalize);
    BatchRowsOrder(items, normalize);
  }

  /** Every row of a batch file carries the file's run columns. */
  lemma BatchFileRowsCarry(fileName: string, data: Json)
    requires IsBatch(data)
    requires FileRows(fileName, data).Ok?
    ensures forall i :: 0 <= i < |FileRows(fileName, data).value| ==>
              Carries(FileRows(fileName, data).value[i], BatchRunMeta(data.fields))
  {
    BatchFileRows(fileName, data);
    var ds := DictElements(Get(data.fields, "results").items);
    var meta := BatchRunMeta(data.fields);
    forall i | 0 <= i < |ds|
      ensures Carries(NormalizeRecord(ds[i], meta).value, meta)
    {
      NormalizeRecordCarries(ds[i], meta);
    }
  }

  /** Any other dict yields one row tagged with the file name, and a document
      that is not a dict yields none. */
  lemma OtherFileRows(fileName: string, data: Json)
    requires !IsBatch(data)
    ensures !data.JDict? ==> FileRows(fileName, data) == Ok([])
    ensures data.JDict? ==>
              (FileRows(fileName, data).Ok? <==> NormalizeRecord(data.fields, map[SourceFile := JStr(fileName)]).Ok?)
    ensures data.JDict? && FileRows(fileName, data).Ok? ==>
              var rows := FileRows(fileName, data).value;
              |rows| == 1 && SourceFile in rows[0] && rows[0][SourceFile] == JStr(fileName)
    ensures data.JDict? && FileRows(fileName, data).Ok? ==>
              FileRows(fileName, data).value == [NormalizeRecord(data.fields, map[SourceFile := JStr(fileName)]).value]
  {
    if data.JDict? && NormalizeRecord(data.fields, map[SourceFile := JStr(fileName)]).Ok? {
      NormalizeRecordColumns(data.fields, map[SourceFile := JStr(fileName)]);
    }
  }

  /** How many rows a file contributes, from its shape alone. */
  function ShapeRows(data: Json): nat {
    if IsBatch(data) then |DictElements(Get(data.fields, "results").items)|
    else if data.JDict? then 1
    else 0
  }

  lemma FileRowsCount(fileName: string, data: Json)
    ensures FileRows(fileName, data).Ok? ==> |FileRows(fileName, data).value| == ShapeRows(data)
  {
    if IsBatch(data) {
      BatchFileRows(fileName, data);
    } else {
      OtherFileRows(fileName, data);
    }
  }

  function RowCount(files: seq<(string, Json)>): nat {
    if |files| == 0 then 0 else ShapeRows(files[0].1) + RowCount(files[1..])
  }

  /** An input file's rows, or the error its conversion raised. */
  function FileRowsOf(file: (string, Json)): Result<seq<Row>> {
    FileRows(file.0, file.1)
  }

  /** The rows of all input files, file after file; the first file whose
      conversion raises ends the run with that error. There are as many rows
      as the files' shapes promise. */
  function AllRows(files: seq<(string, Json)>): (r: Result<seq<Row>>)
    ensures r.Ok? ==> |r.value| == RowCount(files)
  {
    if |files| == 0 then Ok([])
    else
      FileRowsCount(files[0].0, files[0].1);
      var first :- FileRows(files[0].0, files[0].1);
      var rest :- AllRows(files[1..]);
      Ok(first + rest)
  }

  /** The run's rows are each file's rows, file after file, and the first
      file whose conversion raises ends the run with its error. */
  lemma {:induction false} AllRowsFlat(files: seq<(string, Json)>)
    ensures AllRows(files) == FlatCollect(Each(FileRowsOf, files))
  {
    if |files| > 0 {
      FlatCollectEachCons(FileRowsOf, files);
      AllRowsFlat(files[1..]);
    }
  }
}
