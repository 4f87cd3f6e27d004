/**
 * The staging page (js/staging.js): the furniture catalogue read from a CSV file, the
 * furniture picker's room filter, each queued image's row of chosen furniture, the image
 * queue, the room-type text sent with each image, and the loop that stages the queue.
 * The page's comparison sliders are the `Gallery` variant of ComparisonSlider.
 */
module Staging {
  import opened Wrappers
  import opened JsText
  import opened JsArray

  /** One catalogue entry. */
  datatype FurnitureSet = FurnitureSet(name: string, imageUrl: string)

  // ---------------------------------------------------------------- CSV catalogue

  /**
   * One CSV line: the name is the trimmed text before the first comma and the image URL the
   * trimmed rest of the line, later commas included; a line without a comma gives nothing.
   */
  function ParseCsvLine(line: string): (r: Option<FurnitureSet>)
    ensures r.Some? <==> ',' in line
    ensures r.Some? ==>
      && r.value.name == Trim(line[..IndexOf(line, ',')])
      && r.value.imageUrl == Trim(line[IndexOf(line, ',') + 1..])
  {
    var parts := Split(line, ',');
    SplitSingle(line, ',');
    if |parts| >= 2 then
      SplitAtFirst(line, ',');
      JoinSplitRoundTrip(line[IndexOf(line, ',') + 1..], ',');
      Some(FurnitureSet(Trim(parts[0]), Trim(Join(parts[1..], ","))))
    else None
  }

  /** The lines that hold a comma, each as often as it occurs, in order. */
  function CommaLines(lines: seq<string>): (r: seq<string>)
    ensures |r| <= |lines|
    ensures IsSubsequence(r, lines)
    ensures forall l :: multiset(r)[l] == if ',' in l then multiset(lines)[l] else 0
  {
    if |lines| == 0 then []
    else
      var rest := CommaLines(lines[1..]);
      if ',' in lines[0] then
        KeepHead(lines, rest);
        [lines[0]] + rest
      else
        DropHead(lines, rest);
        rest
  }

  /** The lines that parse, in order (the `map` then `filter(x => x)`). */
  function KeepParsed(lines: seq<string>): seq<FurnitureSet> {
    if |lines| == 0 then []
    else ParseCsvLine(lines[0]).ToSeq() + KeepParsed(lines[1..])
  }

  /** Exactly the lines with a comma give entries, one each, in order. */
  lemma {:induction false} KeepParsedCommaLines(lines: seq<string>)
    ensures |KeepParsed(lines)| == |CommaLines(lines)|
    ensures forall k :: 0 <= k < |KeepParsed(lines)| ==>
      ParseCsvLine(CommaLines(lines)[k]) == Some(KeepParsed(lines)[k])
  {
    if |lines| > 0 {
      var rest := lines[1..];
      KeepParsedCommaLines(rest);
      var head := ParseCsvLine(lines[0]);
      assert KeepParsed(lines) == head.ToSeq() + KeepParsed(rest);
      assert CommaLines(lines) == (if head.Some? then [lines[0]] else []) + CommaLines(rest);
      ParsedInFront(lines[0], KeepParsed(rest), CommaLines(rest));
    }
  }

  /** Putting a line in front of lines that parse one to one into entries keeps them so. */
  lemma ParsedInFront(line: string, sets: seq<FurnitureSet>, lines: seq<string>)
    requires |sets| == |lines|
    requires forall k :: 0 <= k < |sets| ==> ParseCsvLine(lines[k]) == Some(sets[k])
    ensures var head := ParseCsvLine(line);
      var sets' := head.ToSeq() + sets;
      var lines' := (if head.Some? then [line] else []) + lines;
      |sets'| == |lines'| && forall k :: 0 <= k < |sets'| ==> ParseCsvLine(lines'[k]) == Some(sets'[k])
  {
  }

  /**
   * `parseCSV`: the whole text is trimmed and cut into lines; the first line is a header and
   * is dropped; every other line with a comma gives one entry, in order.
   */
  function ParseCsv(csv: string): (sets: seq<FurnitureSet>)
    ensures var lines := SplitLines(Trim(csv));
      && |sets| <= |lines| - 1
      && |sets| == |CommaLines(lines[1..])|
      && forall k :: 0 <= k < |sets| ==> ParseCsvLine(CommaLines(lines[1..])[k]) == Some(sets[k])
  {
    var lines := SplitLines(Trim(csv));
    KeepParsedCommaLines(lines[1..]);
    KeepParsed(lines[1..])
  }

  /** A catalogue with a single line is only a header: it gives no entries. */
  lemma HeaderOnly(csv: string)
    requires '\n' !in Trim(csv)
    ensures ParseCsv(csv) == []
  {
    SplitSingle(Trim(csv), '\n');
  }

  // ---------------------------------------------------------------- furniture picker

  /** The name prefixes of the checked rooms: Bedroom gives BDR, Living Room LR, Dining Room DR. */
  function Prefixes(checked: seq<string>): (ps: seq<string>)
    ensures "BDR" in ps <==> "Bedroom" in checked
    ensures "LR" in ps <==> "Living Room" in checked
    ensures "DR" in ps <==> "Dining Room" in checked
    ensures forall p :: p in ps ==> p == "BDR" || p == "LR" || p == "DR"
  {
    (if "Bedroom" in checked then ["BDR"] else [])
    + (if "Living Room" in checked then ["LR"] else [])
    + (if "Dining Room" in checked then ["DR"] else [])
  }

  /** `prefixes.some(p => s.name && s.name.startsWith(p))`. */
  predicate MatchesAny(s: FurnitureSet, ps: seq<string>) {
    s.name != "" && exists p :: p in ps && StartsWith(s.name, p)
  }

  /** The entries whose name starts with one of the prefixes, each as often as listed, in catalogue order. */
  function WithPrefix(sets: seq<FurnitureSet>, ps: seq<string>): (r: seq<FurnitureSet>)
    ensures |r| <= |sets|
    ensures IsSubsequence(r, sets)
    ensures forall s :: multiset(r)[s] == if MatchesAny(s, ps) then multiset(sets)[s] else 0
    ensures forall s :: s in r <==> s in sets && MatchesAny(s, ps)
  {
    if |sets| == 0 then []
    else
      var rest := WithPrefix(sets[1..], ps);
      if MatchesAny(sets[0], ps) then
        KeepHead(sets, rest);
        [sets[0]] + rest
      else
        DropHead(sets, rest);
        rest
  }

  /** Whether the checked rooms narrow the picker: some room checked, none is Other, one maps to a prefix. */
  predicate Narrows(checked: seq<string>) {
    |checked| > 0 && "Other" !in checked && |Prefixes(checked)| > 0
  }

  /**
   * The sets `showFurniturePicker` offers: with no room checked, Other checked, or no room
   * with a prefix, the whole catalogue; otherwise the matching sets, falling back to the
   * whole catalogue when none matches. The list is empty only for an empty catalogue.
   */
  function PickerSets(catalogue: seq<FurnitureSet>, checked: seq<string>): (shown: seq<FurnitureSet>)
    ensures |catalogue| > 0 ==> |shown| > 0
    ensures !Narrows(checked) ==> shown == catalogue
    ensures forall s :: s in shown ==> s in catalogue
    ensures Narrows(checked) && (exists s :: s in catalogue && MatchesAny(s, Prefixes(checked))) ==>
      forall s :: s in shown <==> s in catalogue && MatchesAny(s, Prefixes(checked))
    ensures Narrows(checked) && (forall s :: s in catalogue ==> !MatchesAny(s, Prefixes(checked))) ==>
      shown == catalogue
    ensures Narrows(checked) && |WithPrefix(catalogue, Prefixes(checked))| > 0 ==>
      shown == WithPrefix(catalogue, Prefixes(checked))
  {
    var filtered := if Narrows(checked) then WithPrefix(catalogue, Prefixes(checked)) else catalogue;
    assert |filtered| > 0 ==> filtered[0] in filtered;
    if |filtered| == 0 then catalogue else filtered
  }

  // ---------------------------------------------------------------- room type

  /** The checked rooms without "Other", in the order of the boxes. */
  function WithoutOther(checked: seq<string>): (r: seq<string>)
    ensures |r| <= |checked|
    ensures "Other" !in r
    ensures IsSubsequence(r, checked)
    ensures forall x :: multiset(r)[x] == if x != "Other" then multiset(checked)[x] else 0
  {
    if |checked| == 0 then []
    else
      var rest := WithoutOther(checked[1..]);
      if checked[0] != "Other" then
        KeepHead(checked, rest);
        [checked[0]] + rest
      else
        DropHead(checked, rest);
        rest
  }

  /** The room-type parts: the checked rooms except Other, then the trimmed custom room when it is not blank. */
  function RoomParts(checked: seq<string>, custom: string): seq<string> {
    WithoutOther(checked) + (if IsBlank(custom) then [] else [Trim(custom)])
  }

  /** The room type sent with an image: the parts joined by ", ", or "Living Room" when that is empty. */
  function RoomType(checked: seq<string>, custom: string): (r: string)
    ensures r != ""
    ensures WithoutOther(checked) == [] && IsBlank(custom) ==> r == "Living Room"
    ensures !IsBlank(custom) && WithoutOther(checked) == [] ==> r == Trim(custom)
    ensures RoomParts(checked, custom) != [] && RoomParts(checked, custom) != [""] ==>
      r == Join(RoomParts(checked, custom), ", ")
  {
    var joined := Join(RoomParts(checked, custom), ", ");
    JoinEmpty(RoomParts(checked, custom), ", ");
    if joined == "" then "Living Room" else joined
  }

  // ---------------------------------------------------------------- the page

  /** A dropped or chosen file: its name and MIME type. */
  datatype ImageFile = ImageFile(name: string, mimeType: string)

  /** `Array.from(files).filter(f => f.type.startsWith('image/'))`: the images, in the order dropped. */
  function ImagesOnly(files: seq<ImageFile>): (r: seq<ImageFile>)
    ensures |r| <= |files|
    ensures IsSubsequence(r, files)
    ensures forall f :: multiset(r)[f] == if StartsWith(f.mimeType, "image/") then multiset(files)[f] else 0
  {
    if |files| == 0 then []
    else
      var rest := ImagesOnly(files[1..]);
      if StartsWith(files[0].mimeType, "image/") then
        KeepHead(files, rest);
        [files[0]] + rest
      else
        DropHead(files, rest);
        rest
  }

  predicate NoDuplicates(names: seq<string>) {
    forall i, j :: 0 <= i < j < |names| ==> names[i] != names[j]
  }

  /** `names.indexOf(name)` when it is found. */
  function FirstIndex(names: seq<string>, name: string): (i: nat)
    requires name in names
    ensures i < |names| && names[i] == name && name !in names[..i]
  {
    if names[0] == name then 0
    else
      var j := FirstIndex(names[1..], name);
      assert names[..j + 1] == [names[0]] + names[1..][..j];
      j + 1
  }

  /** `xs.splice(i, 1)`. */
  function RemoveAt<T>(xs: seq<T>, i: nat): (r: seq<T>)
    requires i < |xs|
    ensures |r| == |xs| - 1
    ensures forall k :: 0 <= k < i ==> r[k] == xs[k]
    ensures forall k :: i <= k < |r| ==> r[k] == xs[k + 1]
  {
    xs[..i] + xs[i + 1..]
  }

  /** The row choices read when staging: the checked room boxes and the custom room text. */
  datatype RowChoice = RowChoice(checkedRooms: seq<string>, customRoom: string)

  /** What `/api/stage` answered for one image. */
  datatype StageResponse =
    | Staged(id: string, staged: string, original: string)
    | Rejected(error: string)
    | NetworkError

  datatype StagedResult = StagedResult(
    id: string, staged: string, original: string, originalName: string,
    roomType: string, furnitureSet: string)

  /** The result one staged image adds to the gallery, if the request succeeded. */
  function Outcome(file: ImageFile, choice: RowChoice, names: seq<string>, response: StageResponse): (r: Option<StagedResult>)
    ensures r.Some? <==> response.Staged?
    ensures r.Some? ==>
      && r.value.id == response.id && r.value.staged == response.staged && r.value.original == response.original
      && r.value.originalName == file.name && r.value.roomType != ""
    ensures r.Some? ==>
      && r.value.roomType == RoomType(choice.checkedRooms, choice.customRoom)
      && r.value.furnitureSet == Join(names, ", ")
  {
    match response
    case Staged(id, staged, original) =>
      Some(StagedResult(id, staged, original, file.name,
                        RoomType(choice.checkedRooms, choice.customRoom), Join(names, ", ")))
    case _ => None
  }

  /** The result each queued image adds, in queue order. */
  function Outcomes(files: seq<ImageFile>, choices: seq<RowChoice>, names: seq<seq<string>>,
                    responses: seq<StageResponse>): (outs: seq<Option<StagedResult>>)
    requires |files| == |choices| == |names| == |responses|
    ensures |outs| == |files|
    ensures forall i :: 0 <= i < |outs| ==> (outs[i].Some? <==> responses[i].Staged?)
  {
    seq(|files|, i requires 0 <= i < |files| => Outcome(files[i], choices[i], names[i], responses[i]))
  }

  /** The gallery after the first `k` outcomes: each result is put in front (`unshift`). */
  function Prepended(outs: seq<Option<StagedResult>>, prior: seq<StagedResult>, k: nat): seq<StagedResult>
    requires k <= |outs|
  {
    if k == 0 then prior else outs[k - 1].ToSeq() + Prepended(outs, prior, k - 1)
  }

  /**
   * Staging never drops an earlier result: the earlier gallery is a suffix, and in front of
   * it there is at most one new result per image.
   */
  lemma {:induction false} StagedKeepsEarlier(outs: seq<Option<StagedResult>>, prior: seq<StagedResult>, k: nat)
    requires k <= |outs|
    ensures |prior| <= |Prepended(outs, prior, k)| <= |prior| + k
    ensures Prepended(outs, prior, k)[|Prepended(outs, prior, k)| - |prior|..] == prior
  {
    if k > 0 {
      StagedKeepsEarlier(outs, prior, k - 1);
      var before := Prepended(outs, prior, k - 1);
      var r := Prepended(outs, prior, k);
      assert r == outs[k - 1].ToSeq() + before;
      assert r[|r| - |prior|..] == before[|before| - |prior|..];
    }
  }

  /** The newest result is in front: when the last image succeeded, its result heads the gallery. */
  lemma NewestFirst(outs: seq<Option<StagedResult>>, prior: seq<StagedResult>)
    requires |outs| > 0 && outs[|outs| - 1].Some?
    ensures Prepended(outs, prior, |outs|)[0] == outs[|outs| - 1].value
  {
  }

  /** A failed image adds nothing: the gallery is as it was before that image. */
  lemma FailureAddsNothing(outs: seq<Option<StagedResult>>, prior: seq<StagedResult>, k: nat)
    requires k < |outs| && outs[k].None?
    ensures Prepended(outs, prior, k + 1) == Prepended(outs, prior, k)
  {
  }

  /** A share of a positive whole lies in (0, 1] and is 1 exactly for the whole. */
  lemma DivBounds(d: real, t: real)
    requires 0.0 < d <= t
    ensures 0.0 < d / t <= 1.0
    ensures d / t == 1.0 <==> d == t
  {
    var q := d / t;
    assert q * t == d;
  }

  /** The progress bar's width, in percent, after `done` of `total` images: full exactly at the end. */
  function ProgressWidth(done: nat, total: nat): (p: real)
    requires 0 < done <= total
    ensures 0.0 < p <= 100.0
    ensures p == 100.0 <==> done == total
  {
    DivBounds(done as real, total as real);
    (done as real / total as real) * 100.0
  }

  /**
   * The stage loop over the queue: each image's result, if any, is put in front of the
   * gallery, and the progress bar is moved after each image, ending full.
   */
  method StageEach(files: seq<ImageFile>, choices: seq<RowChoice>, names: seq<seq<string>>,
                   responses: seq<StageResponse>, prior: seq<StagedResult>, bar: real)
    returns (results: seq<StagedResult>, width: real)
    requires 0 < |files| == |choices| == |names| == |responses|
    ensures results == Prepended(Outcomes(files, choices, names, responses), prior, |files|)
    ensures width == 100.0
  {
    var n := |files|;
    var outs := Outcomes(files, choices, names, responses);
    results, width := prior, bar;
    var processed := 0;
    while processed < n
      invariant 0 <= processed <= n
      invariant results == Prepended(outs, prior, processed)
      invariant processed > 0 ==> width == ProgressWidth(processed, n)
    {
      var result := outs[processed];
      if result.Some? {
        results := [result.value] + results;
      }
      assert results == result.ToSeq() + Prepended(outs, prior, processed);
      processed := processed + 1;
      width := ProgressWidth(processed, n);
    }
  }

  /** Rows right after the queue is drawn: nothing chosen in any of them. */
  function EmptyRows(n: nat): seq<seq<string>> {
    seq(n, _ => [])
  }

  /** The page state that the handlers change. */
  class StagingPage {
    var catalogue: seq<FurnitureSet>
    var imageFiles: seq<ImageFile>
    /** Per queued image, the chosen furniture names and their image URLs (the two hidden JSON fields). */
    var rowNames: seq<seq<string>>
    var rowUrls: seq<seq<string>>
    var stagedResults: seq<StagedResult>
    /** The progress bar's width, in percent. */
    var progress: real

    ghost predicate Valid()
      reads this
    {
      && |rowNames| == |imageFiles|
      && |rowUrls| == |imageFiles|
      && (forall i :: 0 <= i < |rowNames| ==> |rowNames[i]| == |rowUrls[i]| && NoDuplicates(rowNames[i]))
    }

    constructor (loaded: seq<FurnitureSet>, results: seq<StagedResult>)
      ensures Valid()
      ensures catalogue == loaded && imageFiles == [] && stagedResults == results && progress == 0.0
    {
      catalogue := loaded;
      imageFiles := [];
      rowNames := [];
      rowUrls := [];
      stagedResults := results;
      progress := 0.0;
    }

    /** Redrawing the queue rebuilds every row, so every furniture choice is lost. */
    method RenderQueue()
      modifies this`rowNames, this`rowUrls
      ensures rowNames == EmptyRows(|imageFiles|) && rowUrls == EmptyRows(|imageFiles|)
    {
      rowNames := EmptyRows(|imageFiles|);
      rowUrls := EmptyRows(|imageFiles|);
    }

    /** A CSV file replaces the catalogue; with images queued, the queue is redrawn. */
    method LoadCsv(csv: string)
      requires Valid()
      modifies this
      ensures Valid()
      ensures catalogue == ParseCsv(csv)
      ensures imageFiles == old(imageFiles) && stagedResults == old(stagedResults) && progress == old(progress)
      ensures |imageFiles| > 0 ==> rowNames == EmptyRows(|imageFiles|) && rowUrls == EmptyRows(|imageFiles|)
      ensures |imageFiles| == 0 ==> rowNames == [] && rowUrls == []
    {
      catalogue := ParseCsv(csv);
      if |imageFiles| > 0 {
        RenderQueue();
      }
    }

    /** `handleFiles`: the images among the dropped files join the end of the queue, which is redrawn. */
    method HandleFiles(files: seq<ImageFile>)
      requires Valid()
      modifies this
      ensures Valid()
      ensures imageFiles == old(imageFiles) + ImagesOnly(files)
      ensures rowNames == EmptyRows(|imageFiles|) && rowUrls == EmptyRows(|imageFiles|)
      ensures catalogue == old(catalogue) && stagedResults == old(stagedResults) && progress == old(progress)
    {
      imageFiles := imageFiles + ImagesOnly(files);
      RenderQueue();
    }

    /** The remove button of row `idx`: that image leaves the queue, which is redrawn. */
    method RemoveImage(idx: nat)
      requires Valid() && idx < |imageFiles|
      modifies this
      ensures Valid()
      ensures imageFiles == RemoveAt(old(imageFiles), idx)
      ensures rowNames == EmptyRows(|imageFiles|) && rowUrls == EmptyRows(|imageFiles|)
      ensures catalogue == old(catalogue) && stagedResults == old(stagedResults) && progress == old(progress)
    {
      imageFiles := RemoveAt(imageFiles, idx);
      RenderQueue();
    }

    /** `addFurnitureToRow`: a name not yet in the row is added at the end, with its URL; a repeat changes nothing. */
    method AddFurniture(row: nat, name: string, url: string)
      requires Valid() && row < |imageFiles|
      modifies this`rowNames, this`rowUrls
      ensures Valid()
      ensures name in old(rowNames[row]) ==> rowNames == old(rowNames) && rowUrls == old(rowUrls)
      ensures name !in old(rowNames[row]) ==>
        && rowNames == old(rowNames)[row := old(rowNames[row]) + [name]]
        && rowUrls == old(rowUrls)[row := old(rowUrls[row]) + [url]]
    {
      if name !in rowNames[row] {
        rowNames := rowNames[row := rowNames[row] + [name]];
        rowUrls := rowUrls[row := rowUrls[row] + [url]];
      }
    }

    /** The remove button of a chosen item: its name goes, with the URL at the same index. */
    method RemoveFurniture(row: nat, name: string)
      requires Valid() && row < |imageFiles|
      modifies this`rowNames, this`rowUrls
      ensures Valid()
      ensures name !in old(rowNames[row]) ==> rowNames == old(rowNames) && rowUrls == old(rowUrls)
      ensures name in old(rowNames[row]) ==>
        var i := FirstIndex(old(rowNames[row]), name);
        && rowNames == old(rowNames)[row := RemoveAt(old(rowNames[row]), i)]
        && rowUrls == old(rowUrls)[row := RemoveAt(old(rowUrls[row]), i)]
      ensures name !in rowNames[row]
    {
      if name in rowNames[row] {
        var i := FirstIndex(rowNames[row], name);
        var names := RemoveAt(rowNames[row], i);
        forall k | 0 <= k < |names| ensures names[k] != name {
          if k < i {
            assert names[k] == rowNames[row][..i][k];
          } else {
            assert names[k] == rowNames[row][k + 1];
          }
        }
        rowNames := rowNames[row := names];
        rowUrls := rowUrls[row := RemoveAt(rowUrls[row], i)];
      }
    }

    /**
     * The stage button: each queued image in turn is sent with its room type and furniture;
     * each success goes to the front of the gallery; the progress bar ends full; the queue is
     * emptied. An empty queue does nothing.
     */
    method Stage(choices: seq<RowChoice>, responses: seq<StageResponse>)
      requires Valid() && |choices| == |imageFiles| && |responses| == |imageFiles|
      modifies this
      ensures Valid()
      ensures old(imageFiles) == [] ==>
        imageFiles == [] && stagedResults == old(stagedResults) && progress == old(progress)
      ensures old(imageFiles) != [] ==>
        && stagedResults == Prepended(Outcomes(old(imageFiles), choices, old(rowNames), responses),
                                      old(stagedResults), |old(imageFiles)|)
        && imageFiles == [] && rowNames == [] && rowUrls == []
        && progress == 100.0
      ensures catalogue == old(catalogue)
    {
      if |imageFiles| == 0 {
        return;
      }
      var results, width := StageEach(imageFiles, choices, rowNames, responses, stagedResults, progress);
      stagedResults, progress := results, width;
      imageFiles := [];
      RenderQueue();
      assert rowNames == [] && rowUrls == [];
    }
  }
}
