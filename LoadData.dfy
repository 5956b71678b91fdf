/**
 * The row joiner: write_csv in pe2loaddata_39.py and convert_to_dataframe
 * in scripts/commands.py. From the three tables of the index file and the
 * configuration it builds the LoadData header and one row per field of
 * every well whose channels all resolve to a file with a known directory.
 * Rows come in the order sorted plate name, the plate's well ids in
 * document order, sorted field key.
 */
module LoadData {
  import opened Results
  import opened Text
  import opened Ordering
  import opened Lists
  import opened Elements
  import opened Naming
  import opened Hierarchy

  /**
   * The configuration: channel key (spaces already removed) to its label,
   * metadata key to its column suffix, and image file name to the directory
   * that holds it.
   */
  datatype Config = Config(channels: map<string, string>, metadata: map<string, string>, paths: map<string, string>)

  /** The LoadData table: its header and its rows. */
  datatype Table = Table(header: seq<string>, rows: seq<seq<string>>)

  /** Why the conversion stops. */
  datatype JoinError =
    | UnorderablePlates            // sorted() met a plate without a Name beside a named one
    | UnknownWell(wellId: string)  // a plate lists a well id that Wells does not index
    | BadWellName(wellId: string)  // well_name raised: Row or Col missing or not an integer
    | UnknownImage(imageId: string)  // a well lists an image id that Images does not index
    | BadFieldId(imageId: string)  // FieldID missing, or FieldID or PlaneID not an integer
    | NoChannelName(imageId: string) // the image has no ChannelName
    | UnknownChannel(channel: string) // the image's channel is not a configured channel key
    | MissingMetadata(key: string) // a configured metadata key is absent from the image
    | BadSite(field: string)       // int(field[:2]) raised; no field key an image yields does

  /** One well's images: field key to channel name to the image's metadata. */
  type Fields = map<string, map<string, Meta>>

  /** sorted(channels.keys()). */
  function ChannelKeys(cfg: Config): seq<string>
  {
    SortedSet(cfg.channels.Keys)
  }

  /** sorted(metadata.keys()). */
  function MetadataKeys(cfg: Config): seq<string>
  {
    SortedSet(cfg.metadata.Keys)
  }

  /** The value of every key of `keys`, in order. */
  function Values(keys: seq<string>, m: map<string, string>): (r: seq<string>)
    requires forall k :: k in keys ==> k in m
    ensures |r| == |keys| && forall i :: 0 <= i < |keys| ==> r[i] == m[keys[i]]
  {
    seq(|keys|, i requires 0 <= i < |keys| => m[keys[i]])
  }

  /**
   * The header for the channel keys `C` and metadata keys `M`:
   * FileName_<label> and PathName_<label> for each channel, the three fixed
   * Metadata columns, then Metadata_<suffix> for each metadata key.
   */
  function Columns(C: seq<string>, M: seq<string>, channels: map<string, string>, metadata: map<string, string>)
    : (h: seq<string>)
    requires forall k :: k in C ==> k in channels
    requires forall k :: k in M ==> k in metadata
    ensures |h| == 2 * |C| + 3 + |M|
    ensures forall i :: 0 <= i < |C| ==>
      h[2 * i] == "FileName_" + channels[C[i]] && h[2 * i + 1] == "PathName_" + channels[C[i]]
    ensures h[2 * |C|] == "Metadata_Plate" && h[2 * |C| + 1] == "Metadata_Well" && h[2 * |C| + 2] == "Metadata_Site"
    ensures forall j :: 0 <= j < |M| ==> h[2 * |C| + 3 + j] == "Metadata_" + metadata[M[j]]
  {
    var labels := Values(C, channels);
    var pairs := Interleave(Prefixed("FileName_", labels), Prefixed("PathName_", labels));
    var tail := Prefixed("Metadata_", Values(M, metadata));
    var fixed := ["Metadata_Plate", "Metadata_Well", "Metadata_Site"];
    ConcatAt(pairs, fixed, tail);
    pairs + fixed + tail
  }

  /** The header of the LoadData table, for the sorted channel and metadata keys. */
  function Header(cfg: Config): (h: seq<string>)
    ensures var C := ChannelKeys(cfg); var M := MetadataKeys(cfg);
      && |h| == 2 * |C| + 3 + |M|
      && (forall i :: 0 <= i < |C| ==>
            h[2 * i] == "FileName_" + cfg.channels[C[i]] && h[2 * i + 1] == "PathName_" + cfg.channels[C[i]])
      && h[2 * |C|] == "Metadata_Plate" && h[2 * |C| + 1] == "Metadata_Well" && h[2 * |C| + 2] == "Metadata_Site"
      && (forall j :: 0 <= j < |M| ==> h[2 * |C| + 3 + j] == "Metadata_" + cfg.metadata[M[j]])
  {
    Columns(ChannelKeys(cfg), MetadataKeys(cfg), cfg.channels, cfg.metadata)
  }

  /** The header has two columns per channel, three fixed ones and one per metadata key. */
  lemma HeaderWidth(cfg: Config)
    ensures |Header(cfg)| == 2 * |cfg.channels| + 3 + |cfg.metadata|
  {
    assert |cfg.channels.Keys| == |cfg.channels|;
    assert |cfg.metadata.Keys| == |cfg.metadata|;
  }

  /** The image `id` can be grouped: it is indexed, has a field key, and a configured channel. */
  predicate ImageOk(id: string, images: map<string, Meta>, channels: map<string, string>)
  {
    && id in images
    && FieldKey(images[id]).Some?
    && ChannelName(images[id]).Some?
    && ChannelName(images[id]).value in channels
  }

  /** The channels filed so far under `key`; none for a new key. */
  function Channels(fields: Fields, key: string): map<string, Meta>
  {
    if key in fields then fields[key] else map[]
  }

  /**
   * One turn of the grouping loop: the image `id` is filed under its field
   * key and channel, replacing an earlier image with the same pair.
   */
  function AddImage(fields: Fields, id: string, images: map<string, Meta>, channels: map<string, string>)
    : (r: Result<Fields, JoinError>)
    ensures r.Ok? <==> ImageOk(id, images, channels)
    ensures r.Err? ==> r.error.UnknownImage? || r.error.BadFieldId? || r.error.NoChannelName? || r.error.UnknownChannel?
    ensures r.Err? && r.error.UnknownChannel? ==> r.error.channel !in channels
    ensures r.Ok? ==>
      var image := images[id];
      var key := FieldKey(image).value;
      r.value == fields[key := Channels(fields, key)[ChannelName(image).value := image]]
  {
    if id !in images then Err(UnknownImage(id))
    else
      var image := images[id];
      match FieldKey(image)
      case None => Err(BadFieldId(id))
      case Some(key) =>
        match ChannelName(image)
        case None => Err(NoChannelName(id))
        case Some(ch) =>
          if ch !in channels then Err(UnknownChannel(ch))
          else if key !in fields then Ok(fields[key := map[ch := image]])
          else Ok(fields[key := fields[key][ch := image]])
  }

  /**
   * The grouping loop over a well's image ids, from the groups `fields`
   * built so far. An unconfigured channel stops it, naming that channel.
   */
  function GroupFrom(fields: Fields, ids: seq<string>, images: map<string, Meta>, channels: map<string, string>)
    : (r: Result<Fields, JoinError>)
    ensures r.Err? ==> r.error.UnknownImage? || r.error.BadFieldId? || r.error.NoChannelName? || r.error.UnknownChannel?
    ensures r.Err? && r.error.UnknownChannel? ==> r.error.channel !in channels
    decreases |ids|
  {
    if ids == [] then Ok(fields)
    else
      match AddImage(fields, ids[0], images, channels)
      case Err(e) => Err(e)
      case Ok(next) => GroupFrom(next, ids[1..], images, channels)
  }

  /** Grouping succeeds exactly when every image of the well can be grouped. */
  lemma {:induction false} GroupOk(fields: Fields, ids: seq<string>, images: map<string, Meta>, channels: map<string, string>)
    ensures GroupFrom(fields, ids, images, channels).Ok? <==> forall i :: 0 <= i < |ids| ==> ImageOk(ids[i], images, channels)
    decreases |ids|
  {
    if ids != [] {
      var next := AddImage(fields, ids[0], images, channels);
      if next.Ok? {
        GroupOk(next.value, ids[1..], images, channels);
        assert forall i :: 1 <= i < |ids| ==> ids[1..][i - 1] == ids[i];
      }
    }
  }

  /** A field's channel `c` resolves: it has an image, the image a URL, the URL a directory. */
  predicate Resolves(group: map<string, Meta>, c: string, paths: map<string, string>)
  {
    c in group && "URL" in group[c] && group[c]["URL"] in paths
  }

  /** Every channel in `C` resolves. */
  predicate Complete(group: map<string, Meta>, C: seq<string>, paths: map<string, string>)
  {
    forall i :: 0 <= i < |C| ==> Resolves(group, C[i], paths)
  }

  /**
   * The channel loop of one field, after the pairs `acc`: the file name
   * and directory of each channel in turn; None at the first channel that
   * does not resolve (the loop's break).
   */
  function ChannelPairsFrom(acc: seq<string>, C: seq<string>, group: map<string, Meta>, paths: map<string, string>)
    : (r: Option<seq<string>>)
    ensures r.Some? <==> Complete(group, C, paths)
    ensures r.Some? ==>
      && |r.value| == |acc| + 2 * |C| && r.value[..|acc|] == acc
      && forall i :: 0 <= i < |C| ==>
           r.value[|acc| + 2 * i] == group[C[i]]["URL"]
           && r.value[|acc| + 2 * i + 1] == paths[group[C[i]]["URL"]]
    decreases |C|
  {
    if C == [] then Some(acc)
    else if !Resolves(group, C[0], paths) then None
    else
      var url := group[C[0]]["URL"];
      var r := ChannelPairsFrom(acc + [url, paths[url]], C[1..], group, paths);
      assert forall i :: 1 <= i < |C| ==> C[1..][i - 1] == C[i];
      assert r.Some? ==> r.value[..|acc|] == (r.value[..|acc| + 2])[..|acc|];
      r
  }

  /**
   * The metadata loop of one row, after the cells `acc`: the image's value
   * for each key in turn; a KeyError at the first key the image lacks.
   */
  function MetaValuesFrom(acc: seq<string>, image: Meta, keys: seq<string>): (r: Result<seq<string>, JoinError>)
    ensures r.Ok? <==> forall j :: 0 <= j < |keys| ==> keys[j] in image
    ensures r.Err? ==> r.error.MissingMetadata? && r.error.key in keys && r.error.key !in image
    ensures r.Ok? ==>
      && |r.value| == |acc| + |keys| && r.value[..|acc|] == acc
      && forall j :: 0 <= j < |keys| ==> r.value[|acc| + j] == image[keys[j]]
    decreases |keys|
  {
    if keys == [] then Ok(acc)
    else if keys[0] !in image then Err(MissingMetadata(keys[0]))
    else
      var r := MetaValuesFrom(acc + [image[keys[0]]], image, keys[1..]);
      assert forall j :: 1 <= j < |keys| ==> keys[1..][j - 1] == keys[j];
      assert r.Ok? ==> r.value[..|acc|] == (r.value[..|acc| + 1])[..|acc|];
      r
  }

  /**
   * What a row holds, for the sorted channel keys `C` and
   * metadata keys `M`: the file name and directory of every channel in
   * order, the plate, the well and the site, then the value of every
   * metadata key in order, read from the image of the last channel.
   */
  predicate RowLayout(row: seq<string>, group: map<string, Meta>, plate: string, well: string, site: string,
                      C: seq<string>, M: seq<string>, paths: map<string, string>)
  {
    && |C| > 0 && Complete(group, C, paths)
    && |row| == 2 * |C| + 3 + |M|
    && (forall i :: 0 <= i < |C| ==>
          row[2 * i] == group[C[i]]["URL"] && row[2 * i + 1] == paths[group[C[i]]["URL"]])
    && row[2 * |C|] == plate && row[2 * |C| + 1] == well && row[2 * |C| + 2] == site
    && (forall j :: 0 <= j < |M| ==> M[j] in group[C[|C| - 1]])
    && (forall j :: 0 <= j < |M| ==> row[2 * |C| + 3 + j] == group[C[|C| - 1]][M[j]])
  }

  /**
   * The row of one field, whose site is `site`: none when there is no channel or some channel
   * does not resolve (never a partial row); otherwise the full row, or the
   * missing metadata key of the last channel's image.
   */
  function FieldRow(group: map<string, Meta>, plate: string, well: string, site: string,
                    C: seq<string>, M: seq<string>, paths: map<string, string>)
    : (r: Result<Option<seq<string>>, JoinError>)
    ensures r == Ok(None) <==> |C| == 0 || !Complete(group, C, paths)
    ensures r.Err? ==>
      && |C| > 0 && Complete(group, C, paths)
      && r.error.MissingMetadata? && r.error.key in M && r.error.key !in group[C[|C| - 1]]
    ensures r.Ok? && r.value.Some? ==> RowLayout(r.value.value, group, plate, well, site, C, M, paths)
  {
    match ChannelPairsFrom([], C, group, paths)
    case None => Ok(None)
    case Some(pairs) =>
      if pairs == [] then Ok(None)
      else
        var head := pairs + [plate, well, site];
        match MetaValuesFrom(head, group[C[|C| - 1]], M)
        case Err(e) => Err(e)
        case Ok(row) =>
          assert forall n :: 0 <= n < |head| ==> row[n] == head[n] by {
            forall n | 0 <= n < |head| ensures row[n] == head[n] {
              assert row[..|head|][n] == row[n];
            }
          }
          Ok(Some(row))
  }

  /** The field loop of one well, after the rows `rows`: the row of each field key in turn, if any. */
  function FieldRowsFrom(rows: seq<seq<string>>, keys: seq<string>, fields: Fields, plate: string, well: string, cfg: Config)
    : (r: Result<seq<seq<string>>, JoinError>)
    requires forall k :: k in keys ==> k in fields
    decreases |keys|
  {
    if keys == [] then Ok(rows)
    else if !SiteParses(keys[0]) then Err(BadSite(keys[0]))
    else
      match FieldRow(fields[keys[0]], plate, well, Site(keys[0]), ChannelKeys(cfg), MetadataKeys(cfg), cfg.paths)
      case Err(e) => Err(e)
      case Ok(None) => FieldRowsFrom(rows, keys[1..], fields, plate, well, cfg)
      case Ok(Some(row)) => FieldRowsFrom(rows + [row], keys[1..], fields, plate, well, cfg)
  }

  /**
   * One well of a plate, after the rows `rows`: look the well up, name it,
   * group its images, then emit its fields in sorted key order.
   */
  function WellRowsFrom(rows: seq<seq<string>>, plate: string, wellId: string, s: Sections, cfg: Config)
    : (r: Result<seq<seq<string>>, JoinError>)
  {
    if wellId !in s.wells then Err(UnknownWell(wellId))
    else
      var well := s.wells[wellId];
      match WellName(well.metadata)
      case None => Err(BadWellName(wellId))
      case Some(name) =>
        match GroupFrom(map[], well.imageIds, s.images, cfg.channels)
        case Err(e) => Err(e)
        case Ok(fields) => FieldRowsFrom(rows, SortedSet(fields.Keys), fields, plate, name, cfg)
  }

  /** The well loop of one plate, after the rows `rows`. */
  function PlateRowsFrom(rows: seq<seq<string>>, plate: string, wellIds: seq<string>, s: Sections, cfg: Config)
    : (r: Result<seq<seq<string>>, JoinError>)
    decreases |wellIds|
  {
    if wellIds == [] then Ok(rows)
    else
      match WellRowsFrom(rows, plate, wellIds[0], s, cfg)
      case Err(e) => Err(e)
      case Ok(next) => PlateRowsFrom(next, plate, wellIds[1..], s, cfg)
  }

  /** The plate name as written: a plate without a Name is written as an empty cell. */
  function NameOf(p: Option<string>): string
  {
    if p.Some? then p.value else ""
  }

  /** The plate loop, after the rows `rows`. */
  function AllRowsFrom(rows: seq<seq<string>>, order: seq<Option<string>>, s: Sections, cfg: Config)
    : (r: Result<seq<seq<string>>, JoinError>)
    requires forall p :: p in order ==> p in s.plates
    decreases |order|
  {
    if order == [] then Ok(rows)
    else
      match PlateRowsFrom(rows, NameOf(order[0]), s.plates[order[0]], s, cfg)
      case Err(e) => Err(e)
      case Ok(next) => AllRowsFrom(next, order[1..], s, cfg)
  }

  /** The names of the named plates. */
  function PlateNames(keys: set<Option<string>>): set<string>
  {
    set p | p in keys && p.Some? :: p.value
  }

  /** Each name as a plate key. */
  function Named(names: seq<string>): (r: seq<Option<string>>)
    ensures |r| == |names| && forall i :: 0 <= i < |r| ==> r[i] == Some(names[i])
  {
    seq(|names|, i requires 0 <= i < |names| => Some(names[i]))
  }

  lemma NamedKeys(keys: set<Option<string>>)
    requires None !in keys
    ensures forall p :: p in Named(SortedSet(PlateNames(keys))) <==> p in keys
  {
    var names := SortedSet(PlateNames(keys));
    var r := Named(names);
    forall p | p in keys ensures p in r {
      assert p.value in PlateNames(keys);
      var i :| 0 <= i < |names| && names[i] == p.value;
      assert r[i] == p;
    }
    forall p | p in r ensures p in keys {
      var i :| 0 <= i < |r| && r[i] == p;
      assert names[i] in PlateNames(keys);
    }
  }

  lemma OnlyNone(keys: set<Option<string>>)
    requires None in keys && |keys| == 1
    ensures keys == {None}
  {
    assert |keys - {None}| == 0;
  }

  /**
   * sorted(plates): the plate names in strictly increasing order. A plate
   * without a Name sorts only when it is the only plate; beside any other
   * plate the comparison raises.
   */
  function PlateOrder(keys: set<Option<string>>): (r: Result<seq<Option<string>>, JoinError>)
    ensures r.Err? <==> None in keys && |keys| > 1
    ensures r.Err? ==> r.error == UnorderablePlates
    ensures r.Ok? ==> forall p :: p in r.value <==> p in keys
    ensures r.Ok? ==> forall i, j :: 0 <= i < j < |r.value| ==>
      && r.value[i].Some? && r.value[j].Some?
      && Below(r.value[i].value, r.value[j].value) && r.value[i] != r.value[j]
  {
    if None in keys then
      if |keys| == 1 then
        OnlyNone(keys);
        Ok([None])
      else Err(UnorderablePlates)
    else
      NamedKeys(keys);
      Ok(Named(SortedSet(PlateNames(keys))))
  }

  /**
   * write_csv / convert_to_dataframe: the header and the rows of every
   * plate in sorted order.
   */
  function Join(s: Sections, cfg: Config): (r: Result<Table, JoinError>)
    ensures r.Ok? ==> r.value.header == Header(cfg)
  {
    match PlateOrder(s.plates.Keys)
    case Err(e) => Err(e)
    case Ok(order) =>
      match AllRowsFrom([], order, s, cfg)
      case Err(e) => Err(e)
      case Ok(rows) => Ok(Table(Header(cfg), rows))
  }

  /** The number of columns of every row: two per channel, three fixed, one per metadata key. */
  function Width(cfg: Config): (w: nat)
    ensures w == |Header(cfg)|
    ensures w >= PlateColumn(cfg) + 3
  {
    2 * |ChannelKeys(cfg)| + 3 + |MetadataKeys(cfg)|
  }

  /** The index of the Metadata_Plate column. */
  function PlateColumn(cfg: Config): nat
  {
    2 * |ChannelKeys(cfg)|
  }

  /**
   * `r` is `rows` followed by new rows, each as wide as the header and
   * holding `plate` in the plate column.
   */
  predicate Extends(r: seq<seq<string>>, rows: seq<seq<string>>, plate: string, cfg: Config)
  {
    && |rows| <= |r| && r[..|rows|] == rows
    && forall i :: |rows| <= i < |r| ==> |r[i]| == Width(cfg) && r[i][PlateColumn(cfg)] == plate
  }

  lemma ExtendsTrans(a: seq<seq<string>>, b: seq<seq<string>>, c: seq<seq<string>>, plate: string, cfg: Config)
    requires Extends(b, a, plate, cfg) && Extends(c, b, plate, cfg)
    ensures Extends(c, a, plate, cfg)
  {
    assert c[..|a|] == c[..|b|][..|a|];
    forall i | |a| <= i < |c| ensures |c[i]| == Width(cfg) && c[i][PlateColumn(cfg)] == plate {
      if i < |b| {
        assert c[i] == c[..|b|][i];
      }
    }
  }

  /** A field contributes at most one row, a full row of this plate. */
  lemma FieldRowExtends(rows: seq<seq<string>>, group: map<string, Meta>, plate: string, well: string, site: string, cfg: Config)
    requires FieldRow(group, plate, well, site, ChannelKeys(cfg), MetadataKeys(cfg), cfg.paths).Ok?
    ensures var row := FieldRow(group, plate, well, site, ChannelKeys(cfg), MetadataKeys(cfg), cfg.paths).value;
      Extends(if row.Some? then rows + [row.value] else rows, rows, plate, cfg)
  {
    var r := FieldRow(group, plate, well, site, ChannelKeys(cfg), MetadataKeys(cfg), cfg.paths).value;
    if r.Some? {
      LayoutWidth(r.value, group, plate, well, site, cfg);
      AppendExtends(rows, r.value, plate, cfg);
    } else {
      assert rows[..|rows|] == rows;
    }
  }

  /** A row laid out for this configuration is as wide as the header and holds the plate in the plate column. */
  lemma LayoutWidth(row: seq<string>, group: map<string, Meta>, plate: string, well: string, site: string, cfg: Config)
    requires RowLayout(row, group, plate, well, site, ChannelKeys(cfg), MetadataKeys(cfg), cfg.paths)
    ensures |row| == Width(cfg) && row[PlateColumn(cfg)] == plate
  {
  }

  /** Appending a full row of this plate extends the rows. */
  lemma AppendExtends(rows: seq<seq<string>>, row: seq<string>, plate: string, cfg: Config)
    requires |row| == Width(cfg) && row[PlateColumn(cfg)] == plate
    ensures Extends(rows + [row], rows, plate, cfg)
  {
    var next := rows + [row];
    assert next[..|rows|] == rows && next[|rows|] == row;
  }

  /** The field loop only appends rows, each a full row of this plate. */
  lemma {:induction false} FieldRowsExtend(rows: seq<seq<string>>, keys: seq<string>, fields: Fields, plate: string, well: string, cfg: Config)
    requires forall k :: k in keys ==> k in fields
    requires FieldRowsFrom(rows, keys, fields, plate, well, cfg).Ok?
    ensures Extends(FieldRowsFrom(rows, keys, fields, plate, well, cfg).value, rows, plate, cfg)
    decreases |keys|
  {
    if keys != [] {
      var site := Site(keys[0]);
      var row := FieldRow(fields[keys[0]], plate, well, site, ChannelKeys(cfg), MetadataKeys(cfg), cfg.paths);
      var next := if row.value.Some? then rows + [row.value.value] else rows;
      FieldRowExtends(rows, fields[keys[0]], plate, well, site, cfg);
      FieldRowsExtend(next, keys[1..], fields, plate, well, cfg);
      ExtendsTrans(rows, next, FieldRowsFrom(rows, keys, fields, plate, well, cfg).value, plate, cfg);
    }
  }

  /** So does the work for one well ... */
  lemma WellRowsExtend(rows: seq<seq<string>>, plate: string, wellId: string, s: Sections, cfg: Config)
    requires WellRowsFrom(rows, plate, wellId, s, cfg).Ok?
    ensures Extends(WellRowsFrom(rows, plate, wellId, s, cfg).value, rows, plate, cfg)
  {
    var well := s.wells[wellId];
    var fields := GroupFrom(map[], well.imageIds, s.images, cfg.channels).value;
    FieldRowsExtend(rows, SortedSet(fields.Keys), fields, plate, WellName(well.metadata).value, cfg);
  }

  /** ... and the well loop of one plate. */
  lemma {:induction false} PlateRowsExtend(rows: seq<seq<string>>, plate: string, wellIds: seq<string>, s: Sections, cfg: Config)
    requires PlateRowsFrom(rows, plate, wellIds, s, cfg).Ok?
    ensures Extends(PlateRowsFrom(rows, plate, wellIds, s, cfg).value, rows, plate, cfg)
    decreases |wellIds|
  {
    if wellIds != [] {
      var next := WellRowsFrom(rows, plate, wellIds[0], s, cfg).value;
      WellRowsExtend(rows, plate, wellIds[0], s, cfg);
      PlateRowsExtend(next, plate, wellIds[1..], s, cfg);
      ExtendsTrans(rows, next, PlateRowsFrom(rows, plate, wellIds, s, cfg).value, plate, cfg);
    }
  }

  /** The plate column of `rows` never decreases. */
  predicate PlatesSorted(rows: seq<seq<string>>, cfg: Config)
    requires forall i :: 0 <= i < |rows| ==> |rows[i]| == Width(cfg)
  {
    var P := PlateColumn(cfg);
    assert P < Width(cfg);
    forall i, j :: 0 <= i < j < |rows| ==> Below(rows[i][P], rows[j][P])
  }

  /** The plate loop keeps every row full-width and the plate column sorted. */
  lemma {:induction false} AllRowsSorted(rows: seq<seq<string>>, order: seq<Option<string>>, s: Sections, cfg: Config)
    requires forall p :: p in order ==> p in s.plates
    requires AllRowsFrom(rows, order, s, cfg).Ok?
    requires forall i :: 0 <= i < |rows| ==> |rows[i]| == Width(cfg)
    requires PlatesSorted(rows, cfg)
    requires forall i, k :: 0 <= i < |rows| && 0 <= k < |order| ==> Below(rows[i][PlateColumn(cfg)], NameOf(order[k]))
    requires forall k, l :: 0 <= k < l < |order| ==> Below(NameOf(order[k]), NameOf(order[l]))
    ensures var r := AllRowsFrom(rows, order, s, cfg).value;
      (forall i :: 0 <= i < |r| ==> |r[i]| == Width(cfg)) && PlatesSorted(r, cfg)
    decreases |order|
  {
    if order != [] {
      var plate := NameOf(order[0]);
      var next := PlateRowsFrom(rows, plate, s.plates[order[0]], s, cfg).value;
      PlateRowsExtend(rows, plate, s.plates[order[0]], s, cfg);
      var P := PlateColumn(cfg);
      assert forall i :: 0 <= i < |rows| ==> next[i] == rows[i] by {
        forall i | 0 <= i < |rows| ensures next[i] == rows[i] {
          assert next[..|rows|][i] == next[i];
        }
      }
      BelowReflexive(plate);
      forall i, j | 0 <= i < j < |next| ensures Below(next[i][P], next[j][P]) {
        if j < |rows| {
        } else if i < |rows| {
          assert Below(rows[i][P], NameOf(order[0]));
        } else {
        }
      }
      forall i, k | 0 <= i < |next| && 0 <= k < |order[1..]| ensures Below(next[i][P], NameOf(order[1..][k])) {
        assert order[1..][k] == order[k + 1];
        if i < |rows| {
          assert Below(rows[i][P], NameOf(order[k + 1]));
        } else {
          assert Below(NameOf(order[0]), NameOf(order[k + 1]));
        }
      }
      AllRowsSorted(next, order[1..], s, cfg);
    }
  }

  /**
   * Every row of the table is as wide as the header, and the rows come in
   * sorted plate order.
   */
  lemma JoinRows(s: Sections, cfg: Config)
    requires Join(s, cfg).Ok?
    ensures var t := Join(s, cfg).value;
      && (forall i :: 0 <= i < |t.rows| ==> |t.rows[i]| == |t.header|)
      && PlatesSorted(t.rows, cfg)
  {
    var order := PlateOrder(s.plates.Keys).value;
    forall k, l | 0 <= k < l < |order| ensures Below(NameOf(order[k]), NameOf(order[l])) {
    }
    AllRowsSorted([], order, s, cfg);
  }

  /** How many of the fields `keys` have every channel resolved (none when there is no channel). */
  function CompleteFields(keys: seq<string>, fields: Fields, cfg: Config): nat
    requires forall k :: k in keys ==> k in fields
    decreases |keys|
  {
    if keys == [] then 0
    else
      var C := ChannelKeys(cfg);
      (if |C| > 0 && Complete(fields[keys[0]], C, cfg.paths) then 1 else 0)
        + CompleteFields(keys[1..], fields, cfg)
  }

  /** A well yields exactly one row per complete field: incomplete fields are skipped, never cut short. */
  lemma {:induction false} FieldRowsCount(rows: seq<seq<string>>, keys: seq<string>, fields: Fields, plate: string, well: string, cfg: Config)
    requires forall k :: k in keys ==> k in fields
    requires FieldRowsFrom(rows, keys, fields, plate, well, cfg).Ok?
    ensures |FieldRowsFrom(rows, keys, fields, plate, well, cfg).value| == |rows| + CompleteFields(keys, fields, cfg)
    decreases |keys|
  {
    if keys != [] {
      var row := FieldRow(fields[keys[0]], plate, well, Site(keys[0]), ChannelKeys(cfg), MetadataKeys(cfg), cfg.paths);
      var next := if row.value.Some? then rows + [row.value.value] else rows;
      FieldRowsCount(next, keys[1..], fields, plate, well, cfg);
    }
  }

  /** The complete fields of a well, or none when the well cannot be looked up or grouped. */
  function WellCount(wellId: string, s: Sections, cfg: Config): nat
  {
    if wellId !in s.wells then 0
    else
      match GroupFrom(map[], s.wells[wellId].imageIds, s.images, cfg.channels)
      case Err(_) => 0
      case Ok(fields) => CompleteFields(SortedSet(fields.Keys), fields, cfg)
  }

  /** The complete fields of the wells `wellIds`, summed. */
  function PlateCount(wellIds: seq<string>, s: Sections, cfg: Config): nat
    decreases |wellIds|
  {
    if wellIds == [] then 0 else WellCount(wellIds[0], s, cfg) + PlateCount(wellIds[1..], s, cfg)
  }

  /** The complete fields of every well listed by the plates `order`, summed. */
  function TableCount(order: seq<Option<string>>, s: Sections, cfg: Config): nat
    requires forall p :: p in order ==> p in s.plates
    decreases |order|
  {
    if order == [] then 0 else PlateCount(s.plates[order[0]], s, cfg) + TableCount(order[1..], s, cfg)
  }

  /** One well appends exactly one row per complete field. */
  lemma WellRowsCount(rows: seq<seq<string>>, plate: string, wellId: string, s: Sections, cfg: Config)
    requires WellRowsFrom(rows, plate, wellId, s, cfg).Ok?
    ensures |WellRowsFrom(rows, plate, wellId, s, cfg).value| == |rows| + WellCount(wellId, s, cfg)
  {
    var well := s.wells[wellId];
    var fields := GroupFrom(map[], well.imageIds, s.images, cfg.channels).value;
    FieldRowsCount(rows, SortedSet(fields.Keys), fields, plate, WellName(well.metadata).value, cfg);
  }

  /** A plate appends one row per complete field of each of its wells. */
  lemma {:induction false} PlateRowsCount(rows: seq<seq<string>>, plate: string, wellIds: seq<string>, s: Sections, cfg: Config)
    requires PlateRowsFrom(rows, plate, wellIds, s, cfg).Ok?
    ensures |PlateRowsFrom(rows, plate, wellIds, s, cfg).value| == |rows| + PlateCount(wellIds, s, cfg)
    decreases |wellIds|
  {
    if wellIds != [] {
      var next := WellRowsFrom(rows, plate, wellIds[0], s, cfg).value;
      WellRowsCount(rows, plate, wellIds[0], s, cfg);
      PlateRowsCount(next, plate, wellIds[1..], s, cfg);
    }
  }

  /** The plate loop appends one row per complete field of each well of each plate. */
  lemma {:induction false} AllRowsCount(rows: seq<seq<string>>, order: seq<Option<string>>, s: Sections, cfg: Config)
    requires forall p :: p in order ==> p in s.plates
    requires AllRowsFrom(rows, order, s, cfg).Ok?
    ensures |AllRowsFrom(rows, order, s, cfg).value| == |rows| + TableCount(order, s, cfg)
    decreases |order|
  {
    if order != [] {
      var next := PlateRowsFrom(rows, NameOf(order[0]), s.plates[order[0]], s, cfg).value;
      PlateRowsCount(rows, NameOf(order[0]), s.plates[order[0]], s, cfg);
      AllRowsCount(next, order[1..], s, cfg);
    }
  }

  /** The table has exactly one row per complete field of every well every plate lists. */
  lemma JoinCount(s: Sections, cfg: Config)
    requires Join(s, cfg).Ok?
    ensures PlateOrder(s.plates.Keys).Ok?
    ensures |Join(s, cfg).value.rows| == TableCount(PlateOrder(s.plates.Keys).value, s, cfg)
  {
    AllRowsCount([], PlateOrder(s.plates.Keys).value, s, cfg);
  }

  /** `rows` followed by the rows of `r`, or the error of `r`. */
  function After(rows: seq<seq<string>>, r: Result<seq<seq<string>>, JoinError>): Result<seq<seq<string>>, JoinError>
  {
    if r.Ok? then Ok(rows + r.value) else r
  }

  /** The field loop keeps the rows before it, and what it appends (or its error) does not depend on them. */
  lemma {:induction false} FieldRowsShift(rows: seq<seq<string>>, keys: seq<string>, fields: Fields, plate: string, well: string, cfg: Config)
    requires forall k :: k in keys ==> k in fields
    ensures FieldRowsFrom(rows, keys, fields, plate, well, cfg) == After(rows, FieldRowsFrom([], keys, fields, plate, well, cfg))
    decreases |keys|
  {
    if keys == [] {
      assert rows + [] == rows;
    } else if SiteParses(keys[0]) {
      var row := FieldRow(fields[keys[0]], plate, well, Site(keys[0]), ChannelKeys(cfg), MetadataKeys(cfg), cfg.paths);
      if row.Ok? && row.value.Some? {
        var r := row.value.value;
        FieldRowsShift(rows + [r], keys[1..], fields, plate, well, cfg);
        FieldRowsShift([] + [r], keys[1..], fields, plate, well, cfg);
        AfterAppend(rows, [r], FieldRowsFrom([], keys[1..], fields, plate, well, cfg));
      } else if row.Ok? {
        FieldRowsShift(rows, keys[1..], fields, plate, well, cfg);
      }
    }
  }

  /** Appending in two steps is appending once. */
  lemma AfterAppend(rows: seq<seq<string>>, first: seq<seq<string>>, rest: Result<seq<seq<string>>, JoinError>)
    ensures After(rows + first, rest) == After(rows, After(first, rest))
    ensures After(rows + first, rest) == After(rows, After([] + first, rest))
  {
    assert [] + first == first;
    if rest.Ok? {
      assert (rows + first) + rest.value == rows + (first + rest.value);
    }
  }

  /** So does one well. */
  lemma WellRowsShift(rows: seq<seq<string>>, plate: string, wellId: string, s: Sections, cfg: Config)
    ensures WellRowsFrom(rows, plate, wellId, s, cfg) == After(rows, WellRowsFrom([], plate, wellId, s, cfg))
  {
    if wellId in s.wells {
      var well := s.wells[wellId];
      var name := WellName(well.metadata);
      var g := GroupFrom(map[], well.imageIds, s.images, cfg.channels);
      if name.Some? && g.Ok? {
        FieldRowsShift(rows, SortedSet(g.value.Keys), g.value, plate, name.value, cfg);
      }
    }
  }

  /** So does the well loop of one plate. */
  lemma {:induction false} PlateRowsShift(rows: seq<seq<string>>, plate: string, wellIds: seq<string>, s: Sections, cfg: Config)
    ensures PlateRowsFrom(rows, plate, wellIds, s, cfg) == After(rows, PlateRowsFrom([], plate, wellIds, s, cfg))
    decreases |wellIds|
  {
    if wellIds == [] {
      assert rows + [] == rows;
    } else {
      WellRowsShift(rows, plate, wellIds[0], s, cfg);
      var w := WellRowsFrom([], plate, wellIds[0], s, cfg);
      if w.Ok? {
        PlateRowsShift(rows + w.value, plate, wellIds[1..], s, cfg);
        PlateRowsShift(w.value, plate, wellIds[1..], s, cfg);
        AfterAppend(rows, w.value, PlateRowsFrom([], plate, wellIds[1..], s, cfg));
      }
    }
  }

  /** So does the plate loop. */
  lemma {:induction false} AllRowsShift(rows: seq<seq<string>>, order: seq<Option<string>>, s: Sections, cfg: Config)
    requires forall p :: p in order ==> p in s.plates
    ensures AllRowsFrom(rows, order, s, cfg) == After(rows, AllRowsFrom([], order, s, cfg))
    decreases |order|
  {
    if order == [] {
      assert rows + [] == rows;
    } else {
      var plate := NameOf(order[0]);
      PlateRowsShift(rows, plate, s.plates[order[0]], s, cfg);
      var p := PlateRowsFrom([], plate, s.plates[order[0]], s, cfg);
      if p.Ok? {
        AllRowsShift(rows + p.value, order[1..], s, cfg);
        AllRowsShift(p.value, order[1..], s, cfg);
        AfterAppend(rows, p.value, AllRowsFrom([], order[1..], s, cfg));
      }
    }
  }

  /**
   * Plates in order: the table's rows are the first plate's rows, then the
   * rows of the remaining plates; a plate's rows are its first well's rows,
   * then the rows of its remaining wells.
   */
  lemma TableSplits(s: Sections, cfg: Config, order: seq<Option<string>>, plate: string, wellIds: seq<string>)
    requires forall p :: p in order ==> p in s.plates
    ensures order != [] ==>
      AllRowsFrom([], order, s, cfg)
        == match PlateRowsFrom([], NameOf(order[0]), s.plates[order[0]], s, cfg)
           case Err(e) => Err(e)
           case Ok(first) => After(first, AllRowsFrom([], order[1..], s, cfg))
    ensures wellIds != [] ==>
      PlateRowsFrom([], plate, wellIds, s, cfg)
        == match WellRowsFrom([], plate, wellIds[0], s, cfg)
           case Err(e) => Err(e)
           case Ok(first) => After(first, PlateRowsFrom([], plate, wellIds[1..], s, cfg))
  {
    if order != [] {
      var p := PlateRowsFrom([], NameOf(order[0]), s.plates[order[0]], s, cfg);
      if p.Ok? {
        AllRowsShift(p.value, order[1..], s, cfg);
      }
    }
    if wellIds != [] {
      var w := WellRowsFrom([], plate, wellIds[0], s, cfg);
      if w.Ok? {
        PlateRowsShift(w.value, plate, wellIds[1..], s, cfg);
      }
    }
  }

  /** A well that can be converted: it is indexed and named, and every one of its images can be grouped. */
  predicate WellOk(wellId: string, s: Sections, cfg: Config)
  {
    && wellId in s.wells
    && WellName(s.wells[wellId].metadata).Some?
    && forall i :: 0 <= i < |s.wells[wellId].imageIds| ==> ImageOk(s.wells[wellId].imageIds[i], s.images, cfg.channels)
  }

  lemma WellRowsOk(rows: seq<seq<string>>, plate: string, wellId: string, s: Sections, cfg: Config)
    requires WellRowsFrom(rows, plate, wellId, s, cfg).Ok?
    ensures WellOk(wellId, s, cfg)
  {
    GroupOk(map[], s.wells[wellId].imageIds, s.images, cfg.channels);
  }

  lemma {:induction false} PlateRowsOk(rows: seq<seq<string>>, plate: string, wellIds: seq<string>, s: Sections, cfg: Config)
    requires PlateRowsFrom(rows, plate, wellIds, s, cfg).Ok?
    ensures forall i :: 0 <= i < |wellIds| ==> WellOk(wellIds[i], s, cfg)
    decreases |wellIds|
  {
    if wellIds != [] {
      WellRowsOk(rows, plate, wellIds[0], s, cfg);
      PlateRowsOk(WellRowsFrom(rows, plate, wellIds[0], s, cfg).value, plate, wellIds[1..], s, cfg);
      assert forall i :: 1 <= i < |wellIds| ==> wellIds[1..][i - 1] == wellIds[i];
    }
  }

  lemma {:induction false} AllRowsOk(rows: seq<seq<string>>, order: seq<Option<string>>, s: Sections, cfg: Config)
    requires forall p :: p in order ==> p in s.plates
    requires AllRowsFrom(rows, order, s, cfg).Ok?
    ensures forall p, i :: p in order && 0 <= i < |s.plates[p]| ==> WellOk(s.plates[p][i], s, cfg)
    decreases |order|
  {
    if order != [] {
      var plate := NameOf(order[0]);
      PlateRowsOk(rows, plate, s.plates[order[0]], s, cfg);
      AllRowsOk(PlateRowsFrom(rows, plate, s.plates[order[0]], s, cfg).value, order[1..], s, cfg);
      assert forall p :: p in order ==> p == order[0] || p in order[1..];
    }
  }

  /**
   * A successful conversion met no bad well or image: every well id any
   * plate lists is indexed and named, and every image id of those wells is
   * indexed, has a field key and a configured channel.
   */
  lemma JoinWellsOk(s: Sections, cfg: Config)
    requires Join(s, cfg).Ok?
    ensures forall p, i :: p in s.plates && 0 <= i < |s.plates[p]| ==> WellOk(s.plates[p][i], s, cfg)
  {
    var order := PlateOrder(s.plates.Keys).value;
    AllRowsOk([], order, s, cfg);
  }

  /** The image filed under field `key` and channel `ch`, if any. */
  function Filed(fields: Fields, key: string, ch: string): Option<Meta>
  {
    if key in fields && ch in fields[key] then Some(fields[key][ch]) else None
  }

  /** The last image among `ids` whose field key is `key` and whose channel is `ch`. */
  function LastImage(ids: seq<string>, images: map<string, Meta>, key: string, ch: string): Option<Meta>
    decreases |ids|
  {
    if ids == [] then None
    else
      var later := LastImage(ids[1..], images, key, ch);
      if later.Some? then later
      else if ids[0] in images && FieldKey(images[ids[0]]) == Some(key) && ChannelName(images[ids[0]]) == Some(ch)
      then Some(images[ids[0]])
      else None
  }

  /**
   * Last write wins: after grouping, the image filed under a field and a
   * channel is the last image of the well with that field and channel;
   * pairs no image of the well has keep what was filed before.
   */
  lemma {:induction false} GroupLastWins(fields: Fields, ids: seq<string>, images: map<string, Meta>, channels: map<string, string>, key: string, ch: string)
    requires GroupFrom(fields, ids, images, channels).Ok?
    ensures var last := LastImage(ids, images, key, ch);
      Filed(GroupFrom(fields, ids, images, channels).value, key, ch) == if last.Some? then last else Filed(fields, key, ch)
    decreases |ids|
  {
    if ids != [] {
      var next := AddImage(fields, ids[0], images, channels).value;
      GroupLastWins(next, ids[1..], images, channels, key, ch);
    }
  }

  /** From no groups, the well's filed images are exactly the last images per field and channel. */
  lemma GroupIsLastImages(ids: seq<string>, images: map<string, Meta>, channels: map<string, string>, key: string, ch: string)
    requires GroupFrom(map[], ids, images, channels).Ok?
    ensures Filed(GroupFrom(map[], ids, images, channels).value, key, ch) == LastImage(ids, images, key, ch)
  {
    GroupLastWins(map[], ids, images, channels, key, ch);
  }

  /** Every field key grouping files yields a site, so BadSite never arises from grouped images. */
  lemma {:induction false} GroupKeysParse(fields: Fields, ids: seq<string>, images: map<string, Meta>, channels: map<string, string>)
    requires forall k :: k in fields ==> SiteParses(k)
    requires GroupFrom(fields, ids, images, channels).Ok?
    ensures forall k :: k in GroupFrom(fields, ids, images, channels).value ==> SiteParses(k)
    decreases |ids|
  {
    if ids != [] {
      FieldKeyParses(images[ids[0]]);
      GroupKeysParse(AddImage(fields, ids[0], images, channels).value, ids[1..], images, channels);
    }
  }

  /** The field loop over keys that all yield a site never stops on a site. */
  lemma {:induction false} FieldRowsSites(rows: seq<seq<string>>, keys: seq<string>, fields: Fields, plate: string, well: string, cfg: Config)
    requires forall k :: k in keys ==> k in fields && SiteParses(k)
    ensures var r := FieldRowsFrom(rows, keys, fields, plate, well, cfg); r.Err? ==> !r.error.BadSite?
    decreases |keys|
  {
    if keys != [] {
      var row := FieldRow(fields[keys[0]], plate, well, Site(keys[0]), ChannelKeys(cfg), MetadataKeys(cfg), cfg.paths);
      if row.Ok? {
        var next := if row.value.Some? then rows + [row.value.value] else rows;
        FieldRowsSites(next, keys[1..], fields, plate, well, cfg);
      }
    }
  }

  lemma GroupedRowsSites(rows: seq<seq<string>>, fields: Fields, plate: string, well: string, cfg: Config)
    requires forall k :: k in fields ==> SiteParses(k)
    ensures var r := FieldRowsFrom(rows, SortedSet(fields.Keys), fields, plate, well, cfg); r.Err? ==> !r.error.BadSite?
  {
    FieldRowsSites(rows, SortedSet(fields.Keys), fields, plate, well, cfg);
  }

  /** int(field[:2]) never raises: no well, plate or table fails with BadSite. */
  lemma WellRowsSites(rows: seq<seq<string>>, plate: string, wellId: string, s: Sections, cfg: Config)
    ensures var r := WellRowsFrom(rows, plate, wellId, s, cfg); r.Err? ==> !r.error.BadSite?
  {
    if wellId in s.wells {
      var well := s.wells[wellId];
      var name := WellName(well.metadata);
      var g := GroupFrom(map[], well.imageIds, s.images, cfg.channels);
      if name.Some? && g.Ok? {
        GroupKeysParse(map[], well.imageIds, s.images, cfg.channels);
        GroupedRowsSites(rows, g.value, plate, name.value, cfg);
      }
    }
  }

  lemma {:induction false} PlateRowsSites(rows: seq<seq<string>>, plate: string, wellIds: seq<string>, s: Sections, cfg: Config)
    ensures var r := PlateRowsFrom(rows, plate, wellIds, s, cfg); r.Err? ==> !r.error.BadSite?
    decreases |wellIds|
  {
    if wellIds != [] {
      WellRowsSites(rows, plate, wellIds[0], s, cfg);
      var next := WellRowsFrom(rows, plate, wellIds[0], s, cfg);
      if next.Ok? {
        PlateRowsSites(next.value, plate, wellIds[1..], s, cfg);
      }
    }
  }

  lemma {:induction false} AllRowsSites(rows: seq<seq<string>>, order: seq<Option<string>>, s: Sections, cfg: Config)
    requires forall p :: p in order ==> p in s.plates
    ensures var r := AllRowsFrom(rows, order, s, cfg); r.Err? ==> !r.error.BadSite?
    decreases |order|
  {
    if order != [] {
      PlateRowsSites(rows, NameOf(order[0]), s.plates[order[0]], s, cfg);
      var next := PlateRowsFrom(rows, NameOf(order[0]), s.plates[order[0]], s, cfg);
      if next.Ok? {
        AllRowsSites(next.value, order[1..], s, cfg);
      }
    }
  }

  lemma JoinSites(s: Sections, cfg: Config)
    ensures var r := Join(s, cfg); r.Err? ==> !r.error.BadSite?
  {
    var order := PlateOrder(s.plates.Keys);
    if order.Ok? {
      AllRowsSites([], order.value, s, cfg);
    }
  }
}
