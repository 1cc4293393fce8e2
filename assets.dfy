/**
 * Asset acquisition (`AssetEngine`): for each scene, search the stock-video
 * service with the scene's query and then its fallback queries until one
 * yields a link; pick the link from the reply by a size rule; download it
 * under a random name; and collect the scene id -> file path map of the
 * scenes that succeeded. The HTTP service and the download are oracles.
 */
module Assets {
  import opened Wrappers
  import opened Text
  import Config

  /** The query used when a scene's visual plan has none. */
  const DefaultQuery: string := "abstract background"

  /** One encoding of a stock video: `file_type`, `width` (0 when absent) and `link`. */
  datatype VideoFile = VideoFile(fileType: Option<string>, width: int, link: Option<string>)

  /** One video of a reply, with its `video_files` (empty when absent). */
  datatype Video = Video(files: seq<VideoFile>)

  /**
   * What the search request gives: it raises (timeout, connection error), or
   * it answers with a status and a body whose `videos` list is `None` when
   * the body is not valid JSON (decoding raises).
   */
  datatype Reply = RequestRaised | Answer(status: int, videos: Option<seq<Video>>)

  /** The `query` key of a scene's visual plan: absent, JSON `null`, or a string. */
  datatype QueryField = Absent | Null | Given(text: string)

  /** A scene as the worker reads it; `Malformed` when reading its visual plan raises. */
  datatype Scene = Scene(id: int, query: QueryField, fallbacks: seq<string>) | Malformed(id: int)

  /**
   * `visual_plan.get('query', 'abstract background')` as the search sees it:
   * the default only when the key is absent. `search_pexels` rejects `None`
   * and `""` alike before any request, so a null query searches as `""`.
   */
  function PrimaryQuery(field: QueryField): string {
    match field
    case Absent => DefaultQuery
    case Null => ""
    case Given(q) => q
  }

  /** What a worker's future yields. */
  datatype WorkerResult = WorkerRaised | WorkerReturned(path: Option<string>)

  // ---------------------------------------------------------------------------
  // Choosing a link from a reply
  // ---------------------------------------------------------------------------

  /** An MP4 between HD and Full-HD width, exclusive: `700 < width < 2000`. */
  predicate Preferred(f: VideoFile) {
    f.fileType == Some("video/mp4") && 700 < f.width < 2000
  }

  /** The first preferred file of a list. */
  function FirstPreferredFile(files: seq<VideoFile>): Option<VideoFile> {
    if files == [] then None
    else if Preferred(files[0]) then Some(files[0])
    else FirstPreferredFile(files[1..])
  }

  /** The nested scan: videos in order, and within each video its files in order. */
  function FirstPreferred(videos: seq<Video>): Option<VideoFile> {
    if videos == [] then None
    else
      var inFirst := FirstPreferredFile(videos[0].files);
      if inFirst.Some? then inFirst else FirstPreferred(videos[1..])
  }

  /** All files of all videos, in scan order. */
  function AllFiles(videos: seq<Video>): seq<VideoFile> {
    if videos == [] then [] else videos[0].files + AllFiles(videos[1..])
  }

  /**
   * The link chosen from a non-empty list of videos: that of the first
   * preferred file, otherwise that of the first file of the first video.
   */
  function SelectLink(videos: seq<Video>): Option<string>
    requires videos != []
  {
    var best := FirstPreferred(videos);
    if best.Some? then best.value.link
    else if videos[0].files != [] then videos[0].files[0].link
    else None
  }

  /**
   * `search_pexels(query)`: `None` for an empty query, a missing API key, a
   * request that raises, a status other than 200, a body that is not JSON or
   * that lists no videos; otherwise the selected link.
   */
  function SearchPexels(query: string, apiKey: Option<string>, http: string -> Reply): (r: Option<string>)
    ensures query == "" || !Truthy(apiKey) ==> r == None
    ensures http(query).RequestRaised? || (http(query).Answer? && http(query).status != 200) ==> r == None
    ensures r.Some? ==>
              http(query).Answer? && http(query).videos.Some? &&
              exists f :: f in AllFiles(http(query).videos.value) && f.link == r
  {
    if query == "" then None
    else if !Truthy(apiKey) then None
    else match http(query)
      case RequestRaised => None
      case Answer(status, body) =>
        if status != 200 then None
        else if body.None? then None
        else if body.value == [] then None
        else
          SelectLinkFromFiles(body.value);
          SelectLink(body.value)
  }

  // ---------------------------------------------------------------------------
  // Properties of the selection
  // ---------------------------------------------------------------------------

  /** Scanning a list of files finds the first preferred one of the list. */
  lemma {:induction false} FirstPreferredFileIsFirst(files: seq<VideoFile>)
    ensures FirstPreferredFile(files).None? <==> forall j :: 0 <= j < |files| ==> !Preferred(files[j])
    ensures FirstPreferredFile(files).Some? ==>
              exists k :: 0 <= k < |files| && files[k] == FirstPreferredFile(files).value &&
                          Preferred(files[k]) && forall j :: 0 <= j < k ==> !Preferred(files[j])
  {
    if files != [] && !Preferred(files[0]) {
      FirstPreferredFileIsFirst(files[1..]);
      if FirstPreferredFile(files).Some? {
        var k :| 0 <= k < |files[1..]| && files[1..][k] == FirstPreferredFile(files).value &&
                 Preferred(files[1..][k]) && forall j :: 0 <= j < k ==> !Preferred(files[1..][j]);
        assert files[k + 1] == files[1..][k];
        assert forall j :: 1 <= j < k + 1 ==> files[j] == files[1..][j - 1];
      }
    }
  }

  /**
   * The nested scan agrees with one scan over all files in order: it returns
   * the file at the first index whose file is preferred, and nothing when no
   * file is.
   */
  lemma {:induction false} FirstPreferredIsFirst(videos: seq<Video>)
    ensures FirstPreferred(videos) == FirstPreferredFile(AllFiles(videos))
  {
    if videos != [] {
      FirstPreferredIsFirst(videos[1..]);
      FirstPreferredFileAppend(videos[0].files, AllFiles(videos[1..]));
    }
  }

  lemma {:induction false} FirstPreferredFileAppend(a: seq<VideoFile>, b: seq<VideoFile>)
    ensures FirstPreferredFile(a + b) ==
              if FirstPreferredFile(a).Some? then FirstPreferredFile(a) else FirstPreferredFile(b)
  {
    if a == [] {
      assert a + b == b;
    } else {
      assert (a + b)[0] == a[0];
      assert (a + b)[1..] == a[1..] + b;
      FirstPreferredFileAppend(a[1..], b);
    }
  }

  /** The chosen link always belongs to some returned file. */
  lemma SelectLinkFromFiles(videos: seq<Video>)
    requires videos != []
    ensures SelectLink(videos).Some? ==> exists f :: f in AllFiles(videos) && f.link == SelectLink(videos)
  {
    var best := FirstPreferred(videos);
    FirstPreferredIsFirst(videos);
    FirstPreferredFileIsFirst(AllFiles(videos));
    if best.None? && videos[0].files != [] {
      assert AllFiles(videos)[0] == videos[0].files[0];
    }
  }

  /**
   * The selection rule: when some file is preferred, the link is that of the
   * first preferred file in scan order; when none is, it is the link of the
   * first file of the first video, or `None` if that video has no files.
   */
  lemma SelectLinkRule(videos: seq<Video>)
    requires videos != []
    ensures var all := AllFiles(videos);
            (forall j :: 0 <= j < |all| ==> !Preferred(all[j])) ==>
              SelectLink(videos) == (if videos[0].files != [] then videos[0].files[0].link else None)
    ensures var all := AllFiles(videos);
            forall k :: 0 <= k < |all| && Preferred(all[k]) && (forall j :: 0 <= j < k ==> !Preferred(all[j])) ==>
              SelectLink(videos) == all[k].link
  {
    var all := AllFiles(videos);
    FirstPreferredIsFirst(videos);
    FirstPreferredFileIsFirst(all);
    forall k | 0 <= k < |all| && Preferred(all[k]) && (forall j :: 0 <= j < k ==> !Preferred(all[j]))
      ensures SelectLink(videos) == all[k].link
    {
      var k' :| 0 <= k' < |all| && all[k'] == FirstPreferredFile(all).value &&
                Preferred(all[k']) && forall j :: 0 <= j < k' ==> !Preferred(all[j]);
      assert k' == k;
    }
  }

  // ---------------------------------------------------------------------------
  // One scene
  // ---------------------------------------------------------------------------

  /** The queries of a scene in the order they may be tried: primary, then fallbacks. */
  function Queries(scene: Scene): (qs: seq<string>)
    requires scene.Scene?
    ensures qs != [] && qs[0] == PrimaryQuery(scene.query) && qs[1..] == scene.fallbacks
    ensures scene.query.Absent? ==> qs[0] == DefaultQuery
  {
    [PrimaryQuery(scene.query)] + scene.fallbacks
  }

  /**
   * A null or empty primary query never reaches the service, and the default
   * is not searched in its place: the worker goes straight to the fallbacks,
   * as if the first fallback were the primary query, and returns nothing when
   * there are none.
   */
  lemma EmptyQueryGoesToFallbacks(scene: Scene, apiKey: Option<string>, http: string -> Reply,
                                  download: (string, string) -> bool, draw: nat)
    requires scene.Scene? && PrimaryQuery(scene.query) == ""
    ensures scene.fallbacks == [] ==> SceneResult(scene, apiKey, http, download, draw) == WorkerReturned(None)
    ensures scene.fallbacks != [] ==>
              SceneResult(scene, apiKey, http, download, draw)
              == SceneResult(Scene(scene.id, Given(scene.fallbacks[0]), scene.fallbacks[1..]), apiKey, http, download, draw)
  {
    EmptyQueryLastAnswer(scene, apiKey, http);
  }

  /** The search half of `EmptyQueryGoesToFallbacks`: the answer the search ends with. */
  lemma EmptyQueryLastAnswer(scene: Scene, apiKey: Option<string>, http: string -> Reply)
    requires scene.Scene? && PrimaryQuery(scene.query) == ""
    ensures scene.fallbacks == [] ==> LastAnswer(scene, apiKey, http) == None
    ensures scene.fallbacks != [] ==>
              LastAnswer(scene, apiKey, http)
              == LastAnswer(Scene(scene.id, Given(scene.fallbacks[0]), scene.fallbacks[1..]), apiKey, http)
  {
    var qs := Queries(scene);
    assert !Hit(qs[0], apiKey, http) by {
      assert qs[0] == "";
    }
    if scene.fallbacks == [] {
      assert TriedCount(qs, apiKey, http) == 1 by {
        assert |qs| == 1;
      }
    } else {
      assert Queries(Scene(scene.id, Given(scene.fallbacks[0]), scene.fallbacks[1..])) == qs[1..];
      AnswerAfterMiss(qs, apiKey, http);
    }
  }

  /** A query that misses passes the search on to the rest of the list. */
  lemma AnswerAfterMiss(qs: seq<string>, apiKey: Option<string>, http: string -> Reply)
    requires |qs| >= 2 && !Hit(qs[0], apiKey, http)
    ensures AnswerOf(qs, apiKey, http) == AnswerOf(qs[1..], apiKey, http)
  {
    var n := TriedCount(qs[1..], apiKey, http);
    assert TriedCount(qs, apiKey, http) == 1 + n;
    assert qs[n] == qs[1..][n - 1];
  }

  /** A query whose search finds a link. */
  predicate Hit(q: string, apiKey: Option<string>, http: string -> Reply) {
    Truthy(SearchPexels(q, apiKey, http))
  }

  /** The number of queries tried: up to and including the first that finds a link, else all. */
  function TriedCount(queries: seq<string>, apiKey: Option<string>, http: string -> Reply): (n: nat)
    requires queries != []
    ensures 1 <= n <= |queries|
    ensures forall j :: 0 <= j < n - 1 ==> !Hit(queries[j], apiKey, http)
    ensures n < |queries| ==> Hit(queries[n - 1], apiKey, http)
    decreases |queries|
  {
    if |queries| == 1 || Hit(queries[0], apiKey, http) then 1
    else 1 + TriedCount(queries[1..], apiKey, http)
  }

  /** After `i` misses, query `i` ends the search when it hits or is the last one. */
  lemma {:induction false} TriedCountAfterMisses(queries: seq<string>, apiKey: Option<string>, http: string -> Reply, i: nat)
    requires i < |queries|
    requires forall j :: 0 <= j < i ==> !Hit(queries[j], apiKey, http)
    requires Hit(queries[i], apiKey, http) || i + 1 == |queries|
    ensures TriedCount(queries, apiKey, http) == i + 1
  {
    if i > 0 {
      assert !Hit(queries[0], apiKey, http);
      assert forall j :: 0 <= j < i - 1 ==> queries[1..][j] == queries[j + 1];
      TriedCountAfterMisses(queries[1..], apiKey, http, i - 1);
    }
  }

  /** `TEMP_DIR/scene_<id>_<n>.mp4`. */
  function ScenePath(id: int, n: nat): string {
    Config.JoinPath(Config.TempDir, "scene_" + IntToString(id) + "_" + NatToString(n) + ".mp4")
  }

  /** What the worker for one scene yields. */
  function SceneResult(scene: Scene, apiKey: Option<string>, http: string -> Reply,
                       download: (string, string) -> bool, draw: nat): WorkerResult
  {
    if scene.Malformed? then WorkerRaised
    else Fetch(scene.id, LastAnswer(scene, apiKey, http), download, draw)
  }

  /** The answer to the last query the search tries: the first hit, or the last query's answer. */
  function LastAnswer(scene: Scene, apiKey: Option<string>, http: string -> Reply): Option<string>
    requires scene.Scene?
  {
    AnswerOf(Queries(scene), apiKey, http)
  }

  /** The answer to the last query tried from a list of queries. */
  function AnswerOf(qs: seq<string>, apiKey: Option<string>, http: string -> Reply): Option<string>
    requires qs != []
  {
    SearchPexels(qs[TriedCount(qs, apiKey, http) - 1], apiKey, http)
  }

  /** The download step: the path when there is a link and its download succeeds, else nothing. */
  function Fetch(id: int, url: Option<string>, download: (string, string) -> bool, draw: nat): WorkerResult {
    if Truthy(url) && download(url.value, ScenePath(id, draw)) then WorkerReturned(Some(ScenePath(id, draw)))
    else WorkerReturned(None)
  }

  /**
   * The search part of `_process_single_scene`: search the primary query; if
   * that finds nothing, try the fallbacks in order and stop at the first that
   * finds a link. `tried` lists the queries searched, in order, and `videoUrl`
   * is the answer to the last of them.
   */
  method SearchWithFallbacks(query: string, fallbacks: seq<string>, apiKey: Option<string>, http: string -> Reply)
    returns (videoUrl: Option<string>, tried: seq<string>)
    ensures var qs := [query] + fallbacks;
            var n := TriedCount(qs, apiKey, http);
            tried == qs[..n] && videoUrl == SearchPexels(qs[n - 1], apiKey, http)
  {
    ghost var qs := [query] + fallbacks;
    videoUrl := SearchPexels(query, apiKey, http);
    tried := [query];
    var i := 0;
    if !Truthy(videoUrl) && fallbacks != [] {
      while i < |fallbacks|
        invariant 0 <= i <= |fallbacks|
        invariant tried == qs[..i + 1]
        invariant videoUrl == SearchPexels(qs[i], apiKey, http)
        invariant forall j :: 0 <= j < i ==> !Hit(qs[j], apiKey, http)
      {
        if Truthy(videoUrl) {
          break;
        }
        var fbQuery := fallbacks[i];
        videoUrl := SearchPexels(fbQuery, apiKey, http);
        tried := tried + [fbQuery];
        i := i + 1;
      }
    }
    TriedCountAfterMisses(qs, apiKey, http, i);
  }

  /**
   * `_process_single_scene(scene)`: find a link for the scene's queries and
   * download it to `TEMP_DIR/scene_<id>_<draw>.mp4`; the path is returned
   * only when both succeed. A malformed scene raises.
   */
  method ProcessSingleScene(scene: Scene, apiKey: Option<string>, http: string -> Reply,
                            download: (string, string) -> bool, draw: nat)
    returns (result: WorkerResult, tried: seq<string>)
    requires 1000 <= draw <= 9999
    ensures result == SceneResult(scene, apiKey, http, download, draw)
    ensures scene.Malformed? ==> result == WorkerRaised && tried == []
    ensures scene.Scene? ==> tried == Queries(scene)[..TriedCount(Queries(scene), apiKey, http)]
    ensures result.WorkerReturned? && result.path.Some? ==>
              scene.Scene? && result.path.value == ScenePath(scene.id, draw) &&
              Hit(tried[|tried| - 1], apiKey, http)
  {
    if scene.Malformed? {
      return WorkerRaised, [];
    }
    var videoUrl;
    videoUrl, tried := SearchWithFallbacks(PrimaryQuery(scene.query), scene.fallbacks, apiKey, http);
    ghost var qs := Queries(scene);
    ghost var n := TriedCount(qs, apiKey, http);
    assert qs == [PrimaryQuery(scene.query)] + scene.fallbacks;
    assert tried == qs[..n] && |tried| == n && tried[n - 1] == qs[n - 1];
    assert videoUrl == LastAnswer(scene, apiKey, http);
    var savePath := ScenePath(scene.id, draw);
    if Truthy(videoUrl) && download(videoUrl.value, savePath) {
      result := WorkerReturned(Some(savePath));
    } else {
      result := WorkerReturned(None);
    }
  }

  // ---------------------------------------------------------------------------
  // All scenes
  // ---------------------------------------------------------------------------

  /**
   * The asset map after the first `|scenes|` futures were collected, in
   * submission order: a scene whose worker returned a path writes it under its
   * id; one that returned nothing or raised leaves the map as it was.
   */
  function AssetMap(scenes: seq<Scene>, results: seq<WorkerResult>): map<int, string>
    requires |results| == |scenes|
  {
    if scenes == [] then map[]
    else
      var n := |scenes| - 1;
      var before := AssetMap(scenes[..n], results[..n]);
      var r := results[n];
      if r.WorkerReturned? && Truthy(r.path) then before[scenes[n].id := r.path.value] else before
  }

  /** Collecting one more future updates the map with that scene's result only. */
  lemma AssetMapStep(scenes: seq<Scene>, results: seq<WorkerResult>, i: nat)
    requires |results| == |scenes| && i < |scenes|
    ensures AssetMap(scenes[..i + 1], results[..i + 1])
         == if results[i].WorkerReturned? && Truthy(results[i].path)
            then AssetMap(scenes[..i], results[..i])[scenes[i].id := results[i].path.value]
            else AssetMap(scenes[..i], results[..i])
  {
    assert scenes[..i + 1][..i] == scenes[..i];
    assert results[..i + 1][..i] == results[..i];
  }

  /**
   * One step of the collection loop: recording the `i`-th future's result into
   * the map of the first `i` gives the map of the first `i + 1`.
   */
  lemma CollectStep(scenes: seq<Scene>, results: seq<WorkerResult>, i: nat, before: map<int, string>, r: WorkerResult)
    requires |results| == |scenes| && i < |scenes|
    requires before == AssetMap(scenes[..i], results[..i]) && r == results[i]
    ensures (if r.WorkerReturned? && Truthy(r.path) then before[scenes[i].id := r.path.value] else before)
            == AssetMap(scenes[..i + 1], results[..i + 1])
  {
    AssetMapStep(scenes, results, i);
  }

  /** The worker results of all scenes, each with its own random draw. */
  function Results(scenes: seq<Scene>, apiKey: Option<string>, http: string -> Reply,
                   download: (string, string) -> bool, draws: seq<nat>): (rs: seq<WorkerResult>)
    requires |draws| == |scenes|
    ensures |rs| == |scenes|
    ensures forall k {:trigger SceneResult(scenes[k], apiKey, http, download, draws[k])} ::
              0 <= k < |scenes| ==> rs[k] == SceneResult(scenes[k], apiKey, http, download, draws[k])
  {
    seq(|scenes|, k requires 0 <= k < |scenes| => SceneResult(scenes[k], apiKey, http, download, draws[k]))
  }

  /** `future.result()` for a scene's submitted worker: what `_process_single_scene` returned, or its exception. */
  method FutureResult(scene: Scene, apiKey: Option<string>, http: string -> Reply,
                      download: (string, string) -> bool, draw: nat)
    returns (result: WorkerResult)
    requires 1000 <= draw <= 9999
    ensures result == SceneResult(scene, apiKey, http, download, draw)
  {
    var tried;
    result, tried := ProcessSingleScene(scene, apiKey, http, download, draw);
  }

  /**
   * `download_scene_assets(scenes)`: run the worker of every scene and record
   * each path returned under the scene's id. The workers run in a pool of four
   * threads; their futures are collected in submission order, which is what
   * the loop does.
   */
  method DownloadSceneAssets(scenes: seq<Scene>, apiKey: Option<string>, http: string -> Reply,
                             download: (string, string) -> bool, draws: seq<nat>)
    returns (assetMap: map<int, string>)
    requires |draws| == |scenes|
    requires forall k :: 0 <= k < |draws| ==> 1000 <= draws[k] <= 9999
    ensures assetMap == AssetMap(scenes, Results(scenes, apiKey, http, download, draws))
  {
    ghost var results := Results(scenes, apiKey, http, download, draws);
    assetMap := map[];
    var i := 0;
    while i < |scenes|
      invariant i <= |scenes|
      invariant assetMap == AssetMap(scenes[..i], results[..i])
    {
      var path := FutureResult(scenes[i], apiKey, http, download, draws[i]);
      CollectStep(scenes, results, i, assetMap, path);
      if path.WorkerReturned? && Truthy(path.path) {
        assetMap := assetMap[scenes[i].id := path.path.value];
      }
      i := i + 1;
    }
    assert scenes[..i] == scenes;
    assert results[..i] == results;
  }

  // ---------------------------------------------------------------------------
  // Properties of the asset map
  // ---------------------------------------------------------------------------

  /**
   * The map only has ids of scenes, and an id is present exactly when some
   * scene with that id had its worker return a path; each value is the path
   * returned by the last such scene.
   */
  lemma {:induction false} AssetMapEntries(scenes: seq<Scene>, results: seq<WorkerResult>)
    requires |results| == |scenes|
    ensures forall id :: id in AssetMap(scenes, results) <==>
              exists k :: 0 <= k < |scenes| && scenes[k].id == id && results[k].WorkerReturned? && Truthy(results[k].path)
    ensures forall id :: id in AssetMap(scenes, results) ==>
              exists k :: 0 <= k < |scenes| && scenes[k].id == id && results[k] == WorkerReturned(Some(AssetMap(scenes, results)[id]))
  {
    if scenes != [] {
      var n := |scenes| - 1;
      AssetMapEntries(scenes[..n], results[..n]);
      var m := AssetMap(scenes, results);
      forall id | id in m
        ensures exists k :: 0 <= k < |scenes| && scenes[k].id == id && results[k] == WorkerReturned(Some(m[id]))
      {
        if results[n].WorkerReturned? && Truthy(results[n].path) && scenes[n].id == id {
          assert results[n] == WorkerReturned(Some(m[id]));
        } else {
          var before := AssetMap(scenes[..n], results[..n]);
          assert id in before && m[id] == before[id];
          var k :| 0 <= k < n && scenes[..n][k].id == id && results[..n][k] == WorkerReturned(Some(AssetMap(scenes[..n], results[..n])[id]));
          assert scenes[k].id == id && results[k] == WorkerReturned(Some(m[id]));
        }
      }
      forall id | exists k :: 0 <= k < |scenes| && scenes[k].id == id && results[k].WorkerReturned? && Truthy(results[k].path)
        ensures id in m
      {
        var k :| 0 <= k < |scenes| && scenes[k].id == id && results[k].WorkerReturned? && Truthy(results[k].path);
        if k < n {
          assert scenes[..n][k].id == id && results[..n][k] == results[k];
          assert id in AssetMap(scenes[..n], results[..n]);
        }
      }
    }
  }

  /** Ids are pairwise distinct (the code does not check this). */
  predicate UniqueIds(scenes: seq<Scene>) {
    forall j, k :: 0 <= j < k < |scenes| ==> scenes[j].id != scenes[k].id
  }

  /**
   * With distinct scene ids, a scene's id is in the map exactly when its own
   * worker returned a path, and then maps to that path,
   * `TEMP_DIR/scene_<id>_<draw>.mp4`; the keys are a subset of the ids.
   */
  lemma DownloadedScenes(scenes: seq<Scene>, apiKey: Option<string>, http: string -> Reply,
                         download: (string, string) -> bool, draws: seq<nat>)
    requires |draws| == |scenes|
    requires UniqueIds(scenes)
    ensures var m := AssetMap(scenes, Results(scenes, apiKey, http, download, draws));
            (forall id :: id in m ==> exists k :: 0 <= k < |scenes| && scenes[k].id == id) &&
            forall k :: 0 <= k < |scenes| ==>
              var r := SceneResult(scenes[k], apiKey, http, download, draws[k]);
              (scenes[k].id in m <==> r.WorkerReturned? && r.path.Some?) &&
              (scenes[k].id in m ==> m[scenes[k].id] == ScenePath(scenes[k].id, draws[k]))
  {
    var results := Results(scenes, apiKey, http, download, draws);
    AssetMapUnique(scenes, results);
    forall k | 0 <= k < |scenes|
      ensures var r := SceneResult(scenes[k], apiKey, http, download, draws[k]);
              r.WorkerReturned? && r.path.Some? ==> Truthy(r.path) && r.path.value == ScenePath(scenes[k].id, draws[k])
    {
      SceneResultPath(scenes[k], apiKey, http, download, draws[k]);
    }
  }

  /** A worker that returns a path returns its scene's download path, which is never empty. */
  lemma SceneResultPath(scene: Scene, apiKey: Option<string>, http: string -> Reply,
                        download: (string, string) -> bool, draw: nat)
    ensures var r := SceneResult(scene, apiKey, http, download, draw);
            r.WorkerReturned? && r.path.Some? ==> Truthy(r.path) && r.path.value == ScenePath(scene.id, draw)
  {
  }

  /**
   * With distinct ids, each scene's id is in the map exactly when its own
   * worker returned a non-empty path, and then maps to that path.
   */
  lemma AssetMapUnique(scenes: seq<Scene>, results: seq<WorkerResult>)
    requires |results| == |scenes|
    requires UniqueIds(scenes)
    ensures var m := AssetMap(scenes, results);
            (forall id :: id in m ==> exists k :: 0 <= k < |scenes| && scenes[k].id == id) &&
            forall k :: 0 <= k < |scenes| ==>
              (scenes[k].id in m <==> results[k].WorkerReturned? && Truthy(results[k].path)) &&
              (scenes[k].id in m ==> results[k] == WorkerReturned(Some(m[scenes[k].id])))
  {
    AssetMapEntries(scenes, results);
    var m := AssetMap(scenes, results);
    forall k | 0 <= k < |scenes|
      ensures (scenes[k].id in m <==> results[k].WorkerReturned? && Truthy(results[k].path)) &&
              (scenes[k].id in m ==> results[k] == WorkerReturned(Some(m[scenes[k].id])))
    {
      var id := scenes[k].id;
      if id in m {
        var k' :| 0 <= k' < |scenes| && scenes[k'].id == id && results[k'] == WorkerReturned(Some(m[id]));
        assert k' == k;
      }
    }
  }
}
