/**
 * The furniture import script (scripts/import_furniture.js): every non-blank line of a text
 * file names a furniture set as `id, url` or `id - url`, and each accepted line is written
 * to the `furniture_sets` table as (external id, url, "Set <id>").
 */
module FurnitureImport {
  import opened Wrappers
  import opened JsText
  import opened JsArray

  /** The values one insert writes: `external_id`, `url` and `name`. */
  datatype FurnitureRow = FurnitureRow(externalId: string, url: string, name: string)

  /** How the script ends: the file is missing, or the rows inserted and how many. */
  datatype ImportResult = FileNotFound | Imported(count: nat, rows: seq<FurnitureRow>)

  /**
   * `content.split(/\r?\n/).filter(l => l.trim().length > 0)`: the lines that are not blank,
   * each as often as it occurs, in file order.
   */
  function NonBlankLines(content: string): (lines: seq<string>)
    ensures IsSubsequence(lines, SplitLines(content))
    ensures forall l :: multiset(lines)[l] == if IsBlank(l) then 0 else multiset(SplitLines(content))[l]
  {
    KeepNonBlank(SplitLines(content))
  }

  /** The `filter` of the lines. */
  function KeepNonBlank(lines: seq<string>): (r: seq<string>)
    ensures |r| <= |lines|
    ensures IsSubsequence(r, lines)
    ensures forall l :: multiset(r)[l] == if IsBlank(l) then 0 else multiset(lines)[l]
  {
    if |lines| == 0 then []
    else
      var rest := KeepNonBlank(lines[1..]);
      if IsBlank(lines[0]) then
        DropHead(lines, rest);
        rest
      else
        KeepHead(lines, rest);
        [lines[0]] + rest
  }

  /** The parts of a line: split on commas, or on dashes when there is no comma. */
  function LineParts(line: string): (parts: seq<string>)
    ensures ',' in line ==> parts == Split(line, ',')
    ensures ',' !in line ==> parts == Split(line, '-')
    ensures |parts| >= 2 <==> ',' in line || '-' in line
  {
    SplitSingle(line, ',');
    SplitSingle(line, '-');
    var parts := Split(line, ',');
    if |parts| < 2 then Split(line, '-') else parts
  }

  /** The URL text before the comma clean-up: the parts after the first, joined with dashes and trimmed. */
  function RawUrl(parts: seq<string>): string
    requires |parts| >= 2
  {
    Trim(Join(parts[1..], "-"))
  }

  /**
   * The row a line yields: one exactly when it has two parts and a non-empty id and URL; the
   * id is the trimmed first part and the URL the trimmed rest, which has no comma left to
   * remove.
   */
  function ParseLine(line: string): (r: Option<FurnitureRow>)
    ensures var parts := LineParts(line);
      r.Some? <==> |parts| >= 2 && Trim(parts[0]) != "" && RawUrl(parts) != ""
    ensures r.Some? ==>
      && r.value.externalId == Trim(LineParts(line)[0]) && r.value.url == RawUrl(LineParts(line))
    ensures r.Some? ==> r.value.externalId != "" && r.value.url != ""
    ensures r.Some? ==> ',' !in r.value.url
    ensures r.Some? ==> r.value.name == "Set " + r.value.externalId
    ensures r.Some? ==> ',' in line || '-' in line
  {
    var parts := LineParts(line);
    if |parts| >= 2 then
      CommaCleanupIsNoOp(line);
      var id := Trim(parts[0]);
      var url := RemoveChar(RawUrl(parts), ',');
      if id != "" && url != "" then Some(FurnitureRow(id, url, "Set " + id)) else None
    else None
  }

  /** A character absent from a string is absent from its trimmed form. */
  lemma TrimWithout(s: string, c: char)
    requires c !in s
    ensures c !in Trim(s)
  {
    TrimIsSlice(s);
    var i := LeadingWhiteSpace(s);
    assert Trim(s) == s[i..i + |Trim(s)|];
  }

  /** Joining pieces without `c` by a separator without `c` gives a string without `c`. */
  lemma {:induction false} JoinWithout(parts: seq<string>, sep: string, c: char)
    requires forall i :: 0 <= i < |parts| ==> c !in parts[i]
    requires c !in sep
    ensures c !in Join(parts, sep)
  {
    if |parts| > 1 {
      JoinWithout(parts[1..], sep, c);
    }
  }

  /**
   * The comma clean-up never removes anything: a comma line's parts hold no comma, a dash
   * line has none to begin with, and they are joined with dashes.
   */
  lemma CommaCleanupIsNoOp(line: string)
    requires |LineParts(line)| >= 2
    ensures ',' !in RawUrl(LineParts(line))
    ensures RemoveChar(RawUrl(LineParts(line)), ',') == RawUrl(LineParts(line))
  {
    var parts := LineParts(line);
    if ',' !in line {
      SplitPartsFrom(line, '-', ',');
    }
    JoinWithout(parts[1..], "-", ',');
    TrimWithout(Join(parts[1..], "-"), ',');
  }

  /** The parts of a split: the text before the first separator, then the split of what follows it. */
  lemma FirstPartAndRest(line: string, c: char, parts: seq<string>)
    requires c in line && parts == Split(line, c)
    ensures parts[0] == line[..IndexOf(line, c)]
    ensures parts[1..] == Split(line[IndexOf(line, c) + 1..], c)
  {
    SplitAtFirst(line, c);
  }

  /** When the parts after the first are a split of some text, the URL text is that text with the separators turned into dashes, trimmed. */
  lemma RawUrlOfSplit(parts: seq<string>, rest: string, c: char)
    requires |parts| >= 2 && parts[1..] == Split(rest, c)
    ensures RawUrl(parts) == Trim(ReplaceChar(rest, c, '-'))
  {
    JoinSplit(rest, c, '-');
  }

  /** The parts of a comma line: the text before the first comma, and the rest as the URL text. */
  lemma CommaLineParts(line: string)
    requires ',' in line
    ensures var i := IndexOf(line, ',');
      && LineParts(line)[0] == line[..i]
      && RawUrl(LineParts(line)) == Trim(ReplaceChar(line[i + 1..], ',', '-'))
  {
    var i := IndexOf(line, ',');
    var parts, rest := LineParts(line), line[i + 1..];
    assert parts == Split(line, ',');
    assert parts[1..] == Split(rest, ',') by {
      FirstPartAndRest(line, ',', parts);
    }
    assert RawUrl(parts) == Trim(ReplaceChar(rest, ',', '-')) by {
      RawUrlOfSplit(parts, rest, ',');
    }
    FirstPartAndRest(line, ',', parts);
  }

  /**
   * On a line with a comma, the id is the trimmed text before the first comma and the URL
   * the trimmed rest with every further comma turned into a dash; the line is imported
   * exactly when both are non-empty.
   */
  lemma CommaLine(line: string)
    requires ',' in line
    ensures var i := IndexOf(line, ',');
      var id, url := Trim(line[..i]), Trim(ReplaceChar(line[i + 1..], ',', '-'));
      ParseLine(line) == if id != "" && url != "" then Some(FurnitureRow(id, url, "Set " + id)) else None
  {
    CommaLineParts(line);
  }

  /** The parts of a dash line without a comma: the text before the first dash, and the rest as the URL text. */
  lemma DashLineParts(line: string)
    requires ',' !in line && '-' in line
    ensures var i := IndexOf(line, '-');
      && LineParts(line)[0] == line[..i]
      && RawUrl(LineParts(line)) == Trim(line[i + 1..])
  {
    var i := IndexOf(line, '-');
    var parts, rest := LineParts(line), line[i + 1..];
    assert parts == Split(line, '-');
    assert parts[1..] == Split(rest, '-') by {
      FirstPartAndRest(line, '-', parts);
    }
    assert RawUrl(parts) == Trim(rest) by {
      RawUrlOfSplit(parts, rest, '-');
      ReplaceCharSelf(rest, '-');
    }
    FirstPartAndRest(line, '-', parts);
  }

  /**
   * On a line with a dash but no comma, the id is the trimmed text before the first dash and
   * the URL the trimmed text after it, later dashes included; the line is imported exactly
   * when both are non-empty.
   */
  lemma DashLine(line: string)
    requires ',' !in line && '-' in line
    ensures var i := IndexOf(line, '-');
      var id, url := Trim(line[..i]), Trim(line[i + 1..]);
      ParseLine(line) == if id != "" && url != "" then Some(FurnitureRow(id, url, "Set " + id)) else None
  {
    DashLineParts(line);
  }

  /** A line with neither separator is skipped. */
  lemma NoSeparator(line: string)
    requires ',' !in line && '-' !in line
    ensures ParseLine(line) == None
  {
  }

  /** The parse of each line, in order. */
  function ParseLines(lines: seq<string>): (parsed: seq<Option<FurnitureRow>>)
    ensures |parsed| == |lines|
  {
    seq(|lines|, i requires 0 <= i < |lines| => ParseLine(lines[i]))
  }

  /** The values among the first `k` parsed lines whose insert succeeded, in order. */
  function Inserted<T>(parsed: seq<Option<T>>, succeeds: seq<bool>, k: nat): seq<T>
    requires k <= |parsed| == |succeeds|
  {
    if k == 0 then []
    else Inserted(parsed, succeeds, k - 1) + (if succeeds[k - 1] then parsed[k - 1].ToSeq() else [])
  }

  /**
   * At most one row per line, and each is the parse of a line whose insert succeeded (and so
   * has a non-empty id, a URL without commas and the name "Set <id>").
   */
  lemma {:induction false} InsertedFromLines<T>(parsed: seq<Option<T>>, succeeds: seq<bool>, k: nat)
    requires k <= |parsed| == |succeeds|
    ensures |Inserted(parsed, succeeds, k)| <= k
    ensures forall row :: row in Inserted(parsed, succeeds, k) ==>
      exists i :: 0 <= i < k && succeeds[i] && parsed[i] == Some(row)
  {
    if k > 0 {
      InsertedFromLines(parsed, succeeds, k - 1);
      var earlier := Inserted(parsed, succeeds, k - 1);
      var rows := Inserted(parsed, succeeds, k);
      forall r | r in rows
        ensures exists i :: 0 <= i < k && succeeds[i] && parsed[i] == Some(r)
      {
        if r !in earlier {
          assert succeeds[k - 1] && parsed[k - 1] == Some(r);
        }
      }
    }
  }

  /** When every line parses and every insert succeeds, every line gives a row. */
  lemma {:induction false} AllAcceptedInserted<T>(parsed: seq<Option<T>>, succeeds: seq<bool>, k: nat)
    requires k <= |parsed| == |succeeds|
    requires forall i :: 0 <= i < k ==> succeeds[i] && parsed[i].Some?
    ensures |Inserted(parsed, succeeds, k)| == k
  {
    if k > 0 {
      AllAcceptedInserted(parsed, succeeds, k - 1);
    }
  }

  /**
   * The loop of `importFurniture`, given each non-blank line's parse: each line that gives a
   * row and whose insert succeeds adds its row and is counted.
   */
  method InsertParsed<T>(parsed: seq<Option<T>>, succeeds: seq<bool>) returns (count: nat, rows: seq<T>)
    requires |succeeds| == |parsed|
    ensures rows == Inserted(parsed, succeeds, |parsed|)
    ensures count == |rows| <= |parsed|
  {
    count, rows := 0, [];
    for k := 0 to |parsed|
      invariant rows == Inserted(parsed, succeeds, k)
      invariant count == |rows|
    {
      var row := parsed[k];
      if row.Some? && succeeds[k] {
        rows := rows + [row.value];
        count := count + 1;
      }
    }
    InsertedFromLines(parsed, succeeds, |parsed|);
  }

  /**
   * `importFurniture` with the file's content (`None` when it does not exist) and, for each
   * non-blank line, whether its insert would succeed.
   */
  method ImportFurniture(file: Option<string>, succeeds: seq<bool>) returns (r: ImportResult)
    requires file.Some? ==> |succeeds| == |NonBlankLines(file.value)|
    ensures file.None? ==> r == FileNotFound
    ensures file.Some? ==>
      && r.Imported?
      && r.rows == Inserted(ParseLines(NonBlankLines(file.value)), succeeds, |succeeds|)
      && r.count == |r.rows| <= |NonBlankLines(file.value)|
  {
    if file.None? {
      return FileNotFound;
    }
    var count, rows := InsertParsed(ParseLines(NonBlankLines(file.value)), succeeds);
    r := Imported(count, rows);
  }
}
