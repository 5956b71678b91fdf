/**
 * The illumination columns appended to a LoadData table: write_csv in
 * append_illum_cols_39.py and in scripts/commands.py. From the configured
 * channel labels, sorted, with "Orig" removed, it builds one header and
 * `nrows` copies of one row naming each channel's illumination file and
 * its directory.
 */
module Illumination {
  import opened Text
  import opened Ordering
  import opened Lists
  import opened Listing

  /** channel.replace("Orig", ""): the channel as it appears in illumination names. */
  function Suffix(channel: string): string
  {
    RemoveAll(channel, "Orig")
  }

  /** The suffixes of the labels, in sorted label order. */
  function Suffixes(labels: seq<string>): (xs: seq<string>)
    ensures |xs| == |labels|
    ensures forall i :: 0 <= i < |labels| ==> xs[i] == Suffix(Sort(labels)[i])
  {
    var sorted := Sort(labels);
    seq(|sorted|, i requires 0 <= i < |sorted| => Suffix(sorted[i]))
  }

  /** The header: FileName_Illum<X> and PathName_Illum<X> for each sorted label. */
  function IllumHeader(labels: seq<string>): seq<string>
  {
    var xs := Suffixes(labels);
    Interleave(Prefixed("FileName_Illum", xs), Prefixed("PathName_Illum", xs))
  }

  /** The illumination file of one channel: `prefix` + "Illum" + X + the file type. */
  function IllumFile(prefix: string, x: string, fileType: string): string
  {
    prefix + "Illum" + x + fileType
  }

  /** The row: each channel's illumination file, then the illumination directory. */
  function IllumRow(labels: seq<string>, directory: string, prefix: string, fileType: string): seq<string>
  {
    var xs := Suffixes(labels);
    Interleave(seq(|xs|, i requires 0 <= i < |xs| => IllumFile(prefix, xs[i], fileType)), Repeat(directory, |xs|))
  }

  /** write_csv of append_illum_cols_39.py: the header, then `nrows` copies of the row. */
  function WriteCsv(labels: seq<string>, directory: string, nrows: int, fileType: string): seq<seq<string>>
  {
    [IllumHeader(labels)] + Repeat(IllumRow(labels, directory, "", fileType), nrows)
  }

  /** The file-name prefix for a plate: none for the default plate id "plate_id", else the id and '_'. */
  function PlatePrefix(plateId: string): string
  {
    if plateId == "plate_id" then "" else plateId + "_"
  }

  /** write_csv of scripts/commands.py: as above, with file names prefixed by the plate id. */
  function WriteCsvForPlate(labels: seq<string>, directory: string, plateId: string, nrows: int, fileType: string)
    : seq<seq<string>>
  {
    [IllumHeader(labels)] + Repeat(IllumRow(labels, directory, PlatePrefix(plateId), fileType), nrows)
  }

  /** sum(1 for line in open(input_csv)) - 1: the data rows of the input table. */
  function RowCount(input: string): int
  {
    |Lines(input)| - 1
  }

  /**
   * The header has two columns per label; at positions 2i and 2i+1 it
   * names the i-th label in sorted order, with "Orig" removed.
   */
  lemma HeaderLayout(labels: seq<string>)
    ensures var h := IllumHeader(labels); var sorted := Sort(labels);
      && |h| == 2 * |labels|
      && forall i :: 0 <= i < |labels| ==>
           h[2 * i] == "FileName_Illum" + Suffix(sorted[i]) && h[2 * i + 1] == "PathName_Illum" + Suffix(sorted[i])
  {
    var xs := Suffixes(labels);
    var f, p := Prefixed("FileName_Illum", xs), Prefixed("PathName_Illum", xs);
    assert forall i :: 0 <= i < |xs| ==> f[i] == "FileName_Illum" + xs[i] && p[i] == "PathName_Illum" + xs[i];
  }

  /**
   * The row lines up with the header: at positions 2i and 2i+1 it holds
   * the illumination file of the i-th sorted label and the directory.
   */
  lemma RowLayout(labels: seq<string>, directory: string, prefix: string, fileType: string)
    ensures var r := IllumRow(labels, directory, prefix, fileType); var sorted := Sort(labels);
      && |r| == |IllumHeader(labels)|
      && forall i :: 0 <= i < |labels| ==>
           r[2 * i] == prefix + "Illum" + Suffix(sorted[i]) + fileType && r[2 * i + 1] == directory
  {
    var xs := Suffixes(labels);
    var files := seq(|xs|, i requires 0 <= i < |xs| => IllumFile(prefix, xs[i], fileType));
    assert forall i :: 0 <= i < |xs| ==> files[i] == prefix + "Illum" + xs[i] + fileType;
  }

  /** One header, then exactly `nrows` rows (none when nrows is negative), all the same row. */
  lemma WriteCsvRows(labels: seq<string>, directory: string, nrows: int, fileType: string)
    ensures var out := WriteCsv(labels, directory, nrows, fileType);
      && |out| == 1 + (if nrows < 0 then 0 else nrows)
      && out[0] == IllumHeader(labels)
      && forall k :: 1 <= k < |out| ==> out[k] == IllumRow(labels, directory, "", fileType)
  {
    var out := WriteCsv(labels, directory, nrows, fileType);
    assert forall k :: 1 <= k < |out| ==> out[k] == Repeat(IllumRow(labels, directory, "", fileType), nrows)[k - 1];
  }

  /** The same for a plate, every data row naming the plate's files. */
  lemma WriteCsvForPlateRows(labels: seq<string>, directory: string, plateId: string, nrows: int, fileType: string)
    ensures var out := WriteCsvForPlate(labels, directory, plateId, nrows, fileType);
      && |out| == 1 + (if nrows < 0 then 0 else nrows)
      && out[0] == IllumHeader(labels)
      && forall k :: 1 <= k < |out| ==> out[k] == IllumRow(labels, directory, PlatePrefix(plateId), fileType)
  {
    var out := WriteCsvForPlate(labels, directory, plateId, nrows, fileType);
    var row := IllumRow(labels, directory, PlatePrefix(plateId), fileType);
    assert forall k :: 1 <= k < |out| ==> out[k] == Repeat(row, nrows)[k - 1];
  }

  /** With the default plate id the two write_csv functions write the same table. */
  lemma DefaultPlate(labels: seq<string>, directory: string, nrows: int, fileType: string)
    ensures WriteCsvForPlate(labels, directory, "plate_id", nrows, fileType) == WriteCsv(labels, directory, nrows, fileType)
  {
  }

  /** With any other plate id, each file name is the id, '_Illum', X and the file type. */
  lemma OtherPlate(labels: seq<string>, directory: string, plateId: string, fileType: string)
    requires plateId != "plate_id"
    ensures var r := IllumRow(labels, directory, PlatePrefix(plateId), fileType); var sorted := Sort(labels);
      forall i :: 0 <= i < |labels| ==> r[2 * i] == plateId + "_Illum" + Suffix(sorted[i]) + fileType
  {
    RowLayout(labels, directory, PlatePrefix(plateId), fileType);
    var sorted := Sort(labels);
    forall i | 0 <= i < |labels|
      ensures IllumFile(PlatePrefix(plateId), Suffix(sorted[i]), fileType) == plateId + "_Illum" + Suffix(sorted[i]) + fileType
    {
      PlateFile(plateId, Suffix(sorted[i]), fileType);
    }
  }

  lemma PlateFile(plateId: string, x: string, fileType: string)
    requires plateId != "plate_id"
    ensures IllumFile(PlatePrefix(plateId), x, fileType) == plateId + "_Illum" + x + fileType
  {
    assert plateId + "_" + "Illum" == plateId + "_Illum";
  }

  /** The table depends only on which labels are configured, not on the order of the configuration. */
  lemma LabelOrderIrrelevant(labels: seq<string>, others: seq<string>, directory: string, plateId: string, nrows: int, fileType: string)
    requires multiset(labels) == multiset(others)
    ensures WriteCsvForPlate(labels, directory, plateId, nrows, fileType) == WriteCsvForPlate(others, directory, plateId, nrows, fileType)
  {
    SortPermutation(labels, others);
  }

  /** nrows: one less than the number of newlines, plus one for a last line without a newline. */
  lemma RowCountLines(input: string)
    ensures RowCount(input) == Newlines(input) + (if input != [] && input[|input| - 1] != '\n' then 1 else 0) - 1
  {
    LinesCount(input);
  }

  /** A single left-to-right pass: removing "Orig" can leave a new "Orig" behind. */
  lemma SuffixSinglePass()
    ensures Suffix("OOrigrig") == "Orig"
  {
    assert "OOrigrig"[1..][..4] == "Orig";
    assert "OOrigrig"[1..][4..] == "rig";
  }
}
