/**
 * The client delivery page (src-delivery/App.jsx): the project id taken from the page path,
 * the pairing of staged result files with their original photos into rooms, and the
 * download-all button's guards, file names and zip name.
 */
module Delivery {
  import opened Wrappers
  import opened JsText
  import opened JsArray

  // ---------------------------------------------------------------- project id

  /** What `fetchProject` ends with: the project, or the message of the error it caught. */
  datatype Loaded<T> = Loaded(project: T) | Failure(message: string)

  /** The last `/`-separated segment of the path, which names the project. */
  function LastSegment(path: string): (id: string)
    ensures '/' !in id
    ensures '/' !in path ==> id == path
  {
    var parts := Split(path, '/');
    SplitSingle(path, '/');
    parts[|parts| - 1]
  }

  /** The last segment of `prefix + "/" + id` is `id`, for an `id` without a slash. */
  lemma LastSegmentAfterSlash(prefix: string, id: string)
    requires '/' !in id
    ensures LastSegment(prefix + "/" + id) == id
  {
    SplitAround(prefix, '/', id);
    SplitSingle(id, '/');
    assert prefix + "/" + id == prefix + ['/'] + id;
  }

  /** A path ending in a slash names no project. */
  lemma {:induction false} LastSegmentAfterTrailingSlash(prefix: string)
    ensures LastSegment(prefix + "/") == ""
  {
    SplitAround(prefix, '/', "");
    assert prefix + "/" == prefix + ['/'] + "";
  }

  /** The project id of the page, or the error thrown for an empty one. */
  function ProjectId(path: string): (r: Loaded<string>)
    ensures r.Loaded? <==> LastSegment(path) != ""
    ensures r.Loaded? ==> r.project == LastSegment(path) && '/' !in r.project
    ensures r.Failure? ==> r.message == "No project ID found in URL"
  {
    var id := LastSegment(path);
    if id == "" then Failure("No project ID found in URL") else Loaded(id)
  }

  // ---------------------------------------------------------------- rooms

  /**
   * The `metadata` column of a result file, as far as the page reads it: text that does
   * not parse, or an object that may hold an `originalUrl`. Missing metadata reads as `{}`,
   * an object without `originalUrl`.
   */
  datatype Meta = Malformed | Parsed(originalUrl: Option<string>)

  /** A row of the project's files: `kind` is the `type` column ("original", "result", ...). */
  datatype ProjectFile = ProjectFile(id: string, kind: string, url: string, metadata: Meta)

  /** A room of the delivery page: a before and an after image. */
  datatype Room = Room(id: string, roomName: string, before: string, after: string)

  /** The project as the page keeps it: its name and its rooms. */
  datatype Project = ProjectOf(name: string, rooms: seq<Room>)

  /** `files.filter(f => f.type === kind)`: the files of one kind, each as often as listed, in their order. */
  function OfKind(files: seq<ProjectFile>, kind: string): (r: seq<ProjectFile>)
    ensures |r| <= |files|
    ensures IsSubsequence(r, files)
    ensures forall f :: multiset(r)[f] == if f.kind == kind then multiset(files)[f] else 0
  {
    if |files| == 0 then []
    else
      var rest := OfKind(files[1..], kind);
      if files[0].kind == kind then
        KeepHead(files, rest);
        [files[0]] + rest
      else
        DropHead(files, rest);
        rest
  }

  /** The original URL the metadata names, or "" when it names none (a falsy `originalUrl`). */
  function MetaUrl(m: Meta): string {
    match m
    case Parsed(Some(url)) => url
    case _ => ""
  }

  /**
   * The "before" URL of the result at `index`: its metadata's original URL when that is
   * not empty, else the original photo at `index` modulo the number of originals, else none.
   */
  function BeforeUrl(res: ProjectFile, originals: seq<ProjectFile>, index: nat): string {
    if MetaUrl(res.metadata) != "" then MetaUrl(res.metadata)
    else if |originals| > 0 then originals[index % |originals|].url
    else ""
  }

  /** The room the result at `index` yields in the first pass, if its before URL is not empty. */
  function PairedRoom(res: ProjectFile, originals: seq<ProjectFile>, index: nat): Option<Room> {
    var before := BeforeUrl(res, originals, index);
    if before != "" then Some(Room(res.id, "Room " + NatToString(index + 1), before, res.url))
    else None
  }

  /** The first pass over the first `k` results: each yields at most one room, in order. */
  function FirstPass(results: seq<ProjectFile>, originals: seq<ProjectFile>, k: nat): seq<Room>
    requires k <= |results|
  {
    if k == 0 then []
    else FirstPass(results, originals, k - 1) + PairedRoom(results[k - 1], originals, k - 1).ToSeq()
  }

  /** The fallback: every result becomes a room showing its own image on both sides. */
  function Fallback(results: seq<ProjectFile>): (rooms: seq<Room>)
    ensures |rooms| == |results|
  {
    seq(|results|, i requires 0 <= i < |results| =>
      Room(results[i].id, "Staged Room " + NatToString(i + 1), results[i].url, results[i].url))
  }

  /** The rooms of a project with these files. */
  function Rooms(files: seq<ProjectFile>): seq<Room> {
    var results, originals := OfKind(files, "result"), OfKind(files, "original");
    var paired := FirstPass(results, originals, |results|);
    if |paired| == 0 && |results| > 0 then Fallback(results) else paired
  }

  /** The indices of the results among the first `k` that the first pass turns into rooms. */
  function PairedIndices(results: seq<ProjectFile>, originals: seq<ProjectFile>, k: nat): (src: seq<nat>)
    requires k <= |results|
    ensures forall j :: 0 <= j < |src| ==> src[j] < k
    ensures forall j, l :: 0 <= j < l < |src| ==> src[j] < src[l]
  {
    if k == 0 then []
    else
      var prev := PairedIndices(results, originals, k - 1);
      if PairedRoom(results[k - 1], originals, k - 1).Some? then prev + [k - 1] else prev
  }

  /** The first pass pairs exactly the results with a before URL. */
  lemma {:induction false} PairedIndicesExact(results: seq<ProjectFile>, originals: seq<ProjectFile>, k: nat)
    requires k <= |results|
    ensures forall i :: 0 <= i < k ==> (i in PairedIndices(results, originals, k) <==> BeforeUrl(results[i], originals, i) != "")
  {
    if k > 0 {
      PairedIndicesExact(results, originals, k - 1);
      var prev, src := PairedIndices(results, originals, k - 1), PairedIndices(results, originals, k);
      var paired := BeforeUrl(results[k - 1], originals, k - 1) != "";
      assert src == if paired then prev + [k - 1] else prev;
      assert k - 1 !in prev;
      forall i | 0 <= i < k - 1
        ensures i in src <==> i in prev
      {
      }
    }
  }

  /**
   * The first pass keeps result order and names each room after its result: the j-th room
   * is the one the j-th paired result yields, with that result's id and URL, the name
   * "Room <index + 1>" and a before URL.
   */
  lemma {:induction false} FirstPassSources(results: seq<ProjectFile>, originals: seq<ProjectFile>, k: nat)
    requires k <= |results|
    ensures var src := PairedIndices(results, originals, k);
      |src| == |FirstPass(results, originals, k)| <= k
    ensures var src, rooms := PairedIndices(results, originals, k), FirstPass(results, originals, k);
      forall j :: 0 <= j < |src| ==>
        && PairedRoom(results[src[j]], originals, src[j]) == Some(rooms[j])
        && rooms[j].id == results[src[j]].id && rooms[j].after == results[src[j]].url
        && rooms[j].roomName == "Room " + NatToString(src[j] + 1) && rooms[j].before != ""
  {
    if k > 0 {
      FirstPassSources(results, originals, k - 1);
      var prev, before := PairedIndices(results, originals, k - 1), FirstPass(results, originals, k - 1);
      var o := PairedRoom(results[k - 1], originals, k - 1);
      assert FirstPass(results, originals, k) == before + o.ToSeq();
      assert PairedIndices(results, originals, k) == if o.Some? then prev + [k - 1] else prev;
      PairedInFront(results, originals, prev, before, k - 1);
    }
  }

  /** Appending the next result's room, if any, to rooms that match their result indices keeps them matched. */
  lemma PairedInFront(results: seq<ProjectFile>, originals: seq<ProjectFile>, prev: seq<nat>, before: seq<Room>, i: nat)
    requires i < |results| && |prev| == |before|
    requires forall j :: 0 <= j < |prev| ==> prev[j] < i && PairedRoom(results[prev[j]], originals, prev[j]) == Some(before[j])
    ensures var o := PairedRoom(results[i], originals, i);
      var src, rooms := if o.Some? then prev + [i] else prev, before + o.ToSeq();
      |src| == |rooms| && forall j :: 0 <= j < |src| ==> PairedRoom(results[src[j]], originals, src[j]) == Some(rooms[j])
  {
  }

  /** Every result yields a room when the metadata or the originals supply a before URL. */
  lemma {:induction false} FirstPassComplete(results: seq<ProjectFile>, originals: seq<ProjectFile>, k: nat)
    requires k <= |results|
    requires forall i :: 0 <= i < k ==> BeforeUrl(results[i], originals, i) != ""
    ensures |FirstPass(results, originals, k)| == k
  {
    if k > 0 {
      FirstPassComplete(results, originals, k - 1);
    }
  }

  /**
   * The before URL is the metadata's when it names one; otherwise the originals are taken in
   * turn, the result at `index` getting the original at `index` modulo their number; with
   * neither there is none.
   */
  lemma BeforeUrlSource(res: ProjectFile, originals: seq<ProjectFile>, index: nat)
    ensures var b := BeforeUrl(res, originals, index);
      b == MetaUrl(res.metadata) || exists o :: o in originals && o.url == b
    ensures MetaUrl(res.metadata) != "" ==> BeforeUrl(res, originals, index) == MetaUrl(res.metadata)
    ensures MetaUrl(res.metadata) == "" && |originals| > 0 ==>
      BeforeUrl(res, originals, index) == originals[index % |originals|].url
    ensures MetaUrl(res.metadata) == "" && |originals| == 0 ==> BeforeUrl(res, originals, index) == ""
  {
    if MetaUrl(res.metadata) == "" && |originals| > 0 {
      assert originals[index % |originals|] in originals;
    }
  }

  /** A project with at least one result file shows at least one room, and never more rooms than results. */
  lemma ResultsGiveRooms(files: seq<ProjectFile>)
    ensures |OfKind(files, "result")| > 0 ==> |Rooms(files)| > 0
    ensures |Rooms(files)| <= |OfKind(files, "result")|
  {
    var results, originals := OfKind(files, "result"), OfKind(files, "original");
    FirstPassSources(results, originals, |results|);
  }

  /** The first loop of `fetchProject`: a room for each result that has a before URL. */
  method PairResults(results: seq<ProjectFile>, originals: seq<ProjectFile>) returns (rooms: seq<Room>)
    ensures rooms == FirstPass(results, originals, |results|)
  {
    rooms := [];
    var index := 0;
    while index < |results|
      invariant index <= |results|
      invariant rooms == FirstPass(results, originals, index)
    {
      var before := MetaUrl(results[index].metadata);
      if before == "" && |originals| > 0 {
        before := originals[index % |originals|].url;
      }
      assert before == BeforeUrl(results[index], originals, index);
      if before != "" {
        rooms := rooms + [Room(results[index].id, "Room " + NatToString(index + 1), before, results[index].url)];
      }
      index := index + 1;
    }
  }

  /** The second loop of `fetchProject`: every result as a room of its own image. */
  method FallbackRooms(results: seq<ProjectFile>) returns (rooms: seq<Room>)
    ensures rooms == Fallback(results)
  {
    rooms := [];
    var i := 0;
    while i < |results|
      invariant i <= |results|
      invariant rooms == Fallback(results)[..i]
    {
      rooms := rooms + [Room(results[i].id, "Staged Room " + NatToString(i + 1), results[i].url, results[i].url)];
      assert rooms == Fallback(results)[..i + 1];
      i := i + 1;
    }
    assert Fallback(results)[..|results|] == Fallback(results);
  }

  /** The rooms `fetchProject` builds: the first pass, or the fallback when it produced none. */
  method BuildRooms(files: seq<ProjectFile>) returns (rooms: seq<Room>)
    ensures rooms == Rooms(files)
  {
    var originals := OfKind(files, "original");
    var results := OfKind(files, "result");
    rooms := PairResults(results, originals);
    if |rooms| == 0 && |results| > 0 {
      rooms := FallbackRooms(results);
    }
  }

  /**
   * How the request for the project ends: a response that is not ok; an error thrown by
   * the request, by parsing the body or by reading its `files`, with the error's message;
   * or the project's name and files.
   */
  datatype Response = NotOk | Threw(message: string) | Answer(name: string, files: seq<ProjectFile>)

  /**
   * `fetchProject`: the id from the path, then the server's response, then the rooms built
   * from the files. Every failure ends with the message of the error caught.
   */
  method FetchProject(path: string, response: Response) returns (r: Loaded<Project>)
    ensures ProjectId(path).Failure? ==> r == Failure("No project ID found in URL")
    ensures ProjectId(path).Loaded? && response.NotOk? ==> r == Failure("Project not found")
    ensures ProjectId(path).Loaded? && response.Threw? ==> r == Failure(response.message)
    ensures ProjectId(path).Loaded? && response.Answer? ==>
      r == Loaded(ProjectOf(response.name, Rooms(response.files)))
  {
    var id := ProjectId(path);
    if id.Failure? {
      return Failure(id.message);
    }
    match response {
      case NotOk =>
        r := Failure("Project not found");
      case Threw(message) =>
        r := Failure(message);
      case Answer(name, files) =>
        var rooms := BuildRooms(files);
        r := Loaded(ProjectOf(name, rooms));
    }
  }

  // ---------------------------------------------------------------- download all

  /** `url.split('.').pop().split('?')[0] || 'png'`. */
  function Extension(url: string): (ext: string)
    ensures ext != "" && '.' !in ext && '?' !in ext
  {
    var dotted := Split(url, '.');
    var last := dotted[|dotted| - 1];
    var e := Split(last, '?')[0];
    SplitPartsFrom(last, '?', '.');
    if e == "" then "png" else e
  }

  /** An image URL `base.ext?query` has extension `ext`, when the query has no dot. */
  lemma ExtensionOfUrl(base: string, ext: string, query: string)
    requires ext != "" && '.' !in ext && '?' !in ext && '.' !in query
    ensures Extension(base + "." + ext + "?" + query) == ext
  {
    var tail := ext + ['?'] + query;
    assert base + "." + ext + "?" + query == base + ['.'] + tail;
    SplitAround(base, '.', tail);
    assert '.' !in tail;
    SplitSingle(tail, '.');
    SplitAround(ext, '?', query);
    SplitSingle(ext, '?');
  }

  /** An image URL `base.ext` without a query has extension `ext`. */
  lemma ExtensionOfPlainUrl(base: string, ext: string)
    requires ext != "" && '.' !in ext && '?' !in ext
    ensures Extension(base + "." + ext) == ext
  {
    assert base + "." + ext == base + ['.'] + ext;
    SplitAround(base, '.', ext);
    SplitSingle(ext, '.');
    SplitSingle(ext, '?');
  }

  /** A URL whose last dot is followed directly by `?` (or by nothing) gets "png". */
  lemma ExtensionDefault(base: string, query: string)
    requires '.' !in query
    ensures Extension(base + ".?" + query) == "png"
  {
    var tail := "?" + query;
    assert Split(base + ".?" + query, '.') == Split(base, '.') + [tail] by {
      assert base + ".?" + query == base + ['.'] + tail;
      assert '.' !in tail;
      SplitSingle(tail, '.');
      SplitAround(base, '.', tail);
    }
    assert Split(tail, '?')[0] == "" by {
      assert tail[0] == '?';
    }
  }

  /** A character the sanitiser keeps: an ASCII letter or digit (`[a-z0-9]` with the `i` flag). */
  predicate IsAsciiAlphanumeric(c: char) {
    ('a' <= c <= 'z') || ('A' <= c <= 'Z') || ('0' <= c <= '9')
  }

  /** A character outside the Basic Multilingual Plane: two UTF-16 code units in JavaScript. */
  predicate IsAstral(c: char) {
    c as int >= 0x1_0000
  }

  /** The length of `s` in UTF-16 code units, JavaScript's `length`. */
  function Utf16Length(s: string): nat {
    if |s| == 0 then 0 else (if IsAstral(s[0]) then 2 else 1) + Utf16Length(s[1..])
  }

  /** A sanitised name: letters, digits and underscores only. */
  predicate IsSafeName(s: string) {
    forall i :: 0 <= i < |s| ==> IsAsciiAlphanumeric(s[i]) || s[i] == '_'
  }

  /**
   * `s.replace(/[^a-z0-9]/gi, '_')`: every other UTF-16 code unit becomes `_`, so a character
   * outside the Basic Multilingual Plane becomes two. The JavaScript length is preserved.
   */
  function Sanitize(s: string): string {
    if |s| == 0 then "" else SanitizeChar(s[0]) + Sanitize(s[1..])
  }

  /** What one character becomes: itself when it is kept, else one `_` per UTF-16 code unit. */
  function SanitizeChar(c: char): string {
    if IsAsciiAlphanumeric(c) then [c] else if IsAstral(c) then "__" else "_"
  }

  /** The sanitised name is safe, and as long in JavaScript as the original. */
  lemma {:induction false} SanitizeIsSafe(s: string)
    ensures IsSafeName(Sanitize(s))
    ensures |Sanitize(s)| == Utf16Length(s)
  {
    if |s| > 0 {
      SanitizeIsSafe(s[1..]);
      var head := SanitizeChar(s[0]);
      assert IsSafeName(head);
      assert Sanitize(s) == head + Sanitize(s[1..]);
    }
  }

  /** A name that is already safe is left as it is; so sanitising twice is sanitising once. */
  lemma {:induction false} SanitizeSafe(s: string)
    requires IsSafeName(s)
    ensures Sanitize(s) == s
  {
    if |s| > 0 {
      SanitizeSafe(s[1..]);
      assert s == [s[0]] + s[1..];
    }
  }

  lemma SanitizeIdempotent(s: string)
    ensures Sanitize(Sanitize(s)) == Sanitize(s)
  {
    SanitizeIsSafe(s);
    SanitizeSafe(Sanitize(s));
  }

  /** Sanitising a concatenation sanitises each part. */
  lemma {:induction false} SanitizeAppend(a: string, b: string)
    ensures Sanitize(a + b) == Sanitize(a) + Sanitize(b)
  {
    if |a| == 0 {
      assert a + b == b;
    } else {
      var ab := a + b;
      assert ab[0] == a[0];
      assert ab[1..] == a[1..] + b;
      SanitizeAppend(a[1..], b);
      var h := SanitizeChar(a[0]);
      assert Sanitize(ab) == h + Sanitize(a[1..] + b);
      assert Sanitize(a) == h + Sanitize(a[1..]);
    }
  }

  /**
   * Away from astral characters the sanitiser works in place: letters and digits stay where
   * they were and every other character becomes `_`.
   */
  lemma {:induction false} SanitizeInPlace(s: string)
    requires forall i :: 0 <= i < |s| ==> !IsAstral(s[i])
    ensures |Sanitize(s)| == |s|
    ensures forall i :: 0 <= i < |s| ==> Sanitize(s)[i] == if IsAsciiAlphanumeric(s[i]) then s[i] else '_'
  {
    if |s| > 0 {
      SanitizeInPlace(s[1..]);
      var r := Sanitize(s);
      assert r == [r[0]] + Sanitize(s[1..]);
      forall i | 1 <= i < |s| ensures r[i] == if IsAsciiAlphanumeric(s[i]) then s[i] else '_' {
        assert r[i] == Sanitize(s[1..])[i - 1] && s[i] == s[1..][i - 1];
      }
    }
  }

  /** The room names of the delivery page become `Room_<n>` in the zip. */
  lemma SanitizeRoomName(n: nat)
    ensures Sanitize("Room " + NatToString(n)) == "Room_" + NatToString(n)
  {
    var digits := NatToString(n);
    SanitizeAppend("Room ", digits);
    SanitizeSafe(digits);
    assert Sanitize("Room ") == "Room_";
  }

  /** `Room_<index>` is already safe, so the sanitiser leaves it as it is. */
  lemma DefaultRoomNameSafe(index: nat)
    ensures Sanitize("Room_" + NatToString(index)) == "Room_" + NatToString(index)
  {
    var digits := NatToString(index);
    SanitizeAppend("Room_", digits);
    SanitizeSafe(digits);
    assert IsSafeName("Room_");
    SanitizeSafe("Room_");
  }

  /**
   * The name of the room's image in the zip's Completed folder: the sanitised room name (or
   * `Room_<index>` for a room without one), "_staged." and the extension of its URL.
   */
  function EntryName(room: Room, index: nat): (name: string)
    ensures var suffix := "_staged." + Extension(room.after);
      |suffix| < |name| && name[|name| - |suffix|..] == suffix && IsSafeName(name[..|name| - |suffix|])
    ensures room.roomName != "" ==> name == Sanitize(room.roomName) + "_staged." + Extension(room.after)
    ensures room.roomName == "" ==> name == "Room_" + NatToString(index) + "_staged." + Extension(room.after)
  {
    var shown := if room.roomName != "" then room.roomName else "Room_" + NatToString(index);
    var suffix := "_staged." + Extension(room.after);
    SafeBeforeSuffix(shown, suffix);
    DefaultRoomNameSafe(index);
    Sanitize(shown) + suffix
  }

  /** A sanitised non-empty name followed by a suffix: the part before the suffix is safe and non-empty. */
  lemma SafeBeforeSuffix(shown: string, suffix: string)
    requires shown != ""
    ensures var name := Sanitize(shown) + suffix;
      |suffix| < |name| && name[|name| - |suffix|..] == suffix && IsSafeName(name[..|name| - |suffix|])
  {
    var safe := Sanitize(shown);
    SanitizeIsSafe(shown);
    assert |safe| > 0 by { assert Utf16Length(shown) > 0; }
    var name := safe + suffix;
    assert name[..|safe|] == safe && name[|safe|..] == suffix;
  }

  /** "Project" is already safe, so the sanitiser leaves it as it is. */
  lemma DefaultProjectNameSafe()
    ensures Sanitize("Project") == "Project"
  {
    assert IsSafeName("Project");
    SanitizeSafe("Project");
  }

  /** The name the zip is saved under: the sanitised project name, or "Project", then "_Staged.zip". */
  function ZipName(projectName: string): (name: string)
    ensures |name| > |"_Staged.zip"| && name[|name| - |"_Staged.zip"|..] == "_Staged.zip"
    ensures IsSafeName(name[..|name| - |"_Staged.zip"|])
    ensures projectName != "" ==> name == Sanitize(projectName) + "_Staged.zip"
    ensures projectName == "" ==> name == "Project" + "_Staged.zip"
  {
    var shown := if projectName != "" then projectName else "Project";
    SafeBeforeSuffix(shown, "_Staged.zip");
    DefaultProjectNameSafe();
    Sanitize(shown) + "_Staged.zip"
  }

  /** A room of the first pass whose image is `base.ext` is saved as `Room_<n>_staged.ext`. */
  lemma EntryNameOfPairedRoom(id: string, before: string, base: string, ext: string, n: nat, index: nat)
    requires ext != "" && '.' !in ext && '?' !in ext
    ensures EntryName(Room(id, "Room " + NatToString(n), before, base + "." + ext), index)
      == "Room_" + NatToString(n) + "_staged." + ext
  {
    SanitizeRoomName(n);
    ExtensionOfPlainUrl(base, ext);
  }

  /** The entries of the zip: the rooms whose image was fetched, by index. */
  function Entries(rooms: seq<Room>, fetched: seq<bool>, k: nat): (names: seq<string>)
    requires k <= |rooms| == |fetched|
    ensures |names| <= k
  {
    if k == 0 then []
    else Entries(rooms, fetched, k - 1) + (if fetched[k - 1] then [EntryName(rooms[k - 1], k - 1)] else [])
  }

  /** The number of images fetched among the first `k`. */
  function CountFetched(fetched: seq<bool>, k: nat): nat
    requires k <= |fetched|
  {
    if k == 0 then 0 else CountFetched(fetched, k - 1) + (if fetched[k - 1] then 1 else 0)
  }

  /** The zip holds one entry per fetched image: as many as were counted. */
  lemma {:induction false} EntriesCounted(rooms: seq<Room>, fetched: seq<bool>, k: nat)
    requires k <= |rooms| == |fetched|
    ensures |Entries(rooms, fetched, k)| == CountFetched(fetched, k)
  {
    if k > 0 {
      EntriesCounted(rooms, fetched, k - 1);
    }
  }

  /**
   * The fetch loop of `handleDownloadAll`: each fetched image goes into the zip under its
   * entry name, and is counted.
   */
  method FetchAll(rooms: seq<Room>, fetched: seq<bool>) returns (entries: seq<string>, count: nat)
    requires |rooms| == |fetched|
    ensures entries == Entries(rooms, fetched, |rooms|)
    ensures count == CountFetched(fetched, |fetched|) == |entries|
  {
    entries, count := [], 0;
    var index := 0;
    while index < |rooms|
      invariant index <= |rooms|
      invariant entries == Entries(rooms, fetched, index)
      invariant count == CountFetched(fetched, index)
    {
      if fetched[index] {
        entries := entries + [EntryName(rooms[index], index)];
        count := count + 1;
      }
      index := index + 1;
    }
    EntriesCounted(rooms, fetched, |rooms|);
  }

  /** What the button does: an alert, or a zip saved with these entries. */
  datatype Download = Alert(message: string) | Saved(zipName: string, entries: seq<string>)

  /**
   * `handleDownloadAll`, with `fetched[i]` saying whether room i's image was fetched. It
   * alerts when the project is missing, has no rooms or no image could be fetched, and
   * otherwise saves the zip of the fetched images.
   */
  method DownloadAll(project: Option<Project>, fetched: seq<bool>) returns (d: Download)
    requires project.Some? ==> |fetched| == |project.value.rooms|
    ensures project.None? ==> d == Alert("Project data missing or not loaded.")
    ensures project.Some? && |project.value.rooms| == 0 ==>
      d == Alert("No photos to download. Project rooms list is empty.")
    ensures project.Some? && |project.value.rooms| > 0 && CountFetched(fetched, |fetched|) == 0 ==>
      d == Alert("Failed to download any images. Check console for details.")
    ensures project.Some? && CountFetched(fetched, |fetched|) > 0 ==>
      d == Saved(ZipName(project.value.name), Entries(project.value.rooms, fetched, |fetched|))
    ensures d.Saved? ==> |d.entries| > 0
  {
    if project.None? {
      return Alert("Project data missing or not loaded.");
    }
    var rooms := project.value.rooms;
    if |rooms| == 0 {
      return Alert("No photos to download. Project rooms list is empty.");
    }
    var entries, count := FetchAll(rooms, fetched);
    if count == 0 {
      return Alert("Failed to download any images. Check console for details.");
    }
    d := Saved(ZipName(project.value.name), entries);
  }
}
