/**
 * The loops of convert_to_dataframe (scripts/commands.py) and write_csv
 * (pe2loaddata_39.py) as they run: local maps and lists updated step by
 * step, the channel loop's break, the early exits on errors. Each method
 * is proved to compute the accumulator-style function of LoadData that
 * specifies its loop, so every property proved there holds of them.
 */
module Writer {
  import opened Results
  import opened Text
  import opened Ordering
  import opened Elements
  import opened Naming
  import opened Hierarchy
  import opened LoadData

  /** One turn of the grouping loop from the `i`th image id. */
  lemma GroupStep(fields: Fields, ids: seq<string>, i: int, images: map<string, Meta>, channels: map<string, string>)
    requires 0 <= i < |ids|
    ensures GroupFrom(fields, ids[i..], images, channels) ==
      match AddImage(fields, ids[i], images, channels)
      case Err(e) => Err(e)
      case Ok(next) => GroupFrom(next, ids[i + 1..], images, channels)
  {
    assert ids[i..][0] == ids[i] && ids[i..][1..] == ids[i + 1..];
  }

  /**
   * The image loop of one well: each image is filed under its field key
   * and channel in the local map `fields`; the first image that cannot be
   * filed ends the conversion.
   */
  method GroupImages(ids: seq<string>, images: map<string, Meta>, channels: map<string, string>)
    returns (r: Result<Fields, JoinError>)
    ensures r == GroupFrom(map[], ids, images, channels)
  {
    var fields: Fields := map[];
    var i := 0;
    while i < |ids|
      invariant 0 <= i <= |ids|
      invariant GroupFrom(map[], ids, images, channels) == GroupFrom(fields, ids[i..], images, channels)
    {
      GroupStep(fields, ids, i, images, channels);
      var id := ids[i];
      if id !in images {
        return Err(UnknownImage(id));
      }
      var image := images[id];
      var key := FieldKey(image);
      if key.None? {
        return Err(BadFieldId(id));
      }
      var channel := ChannelName(image);
      if channel.None? {
        return Err(NoChannelName(id));
      }
      if channel.value !in channels {
        return Err(UnknownChannel(channel.value));
      }
      if key.value !in fields {
        fields := fields[key.value := map[channel.value := image]];
      } else {
        fields := fields[key.value := fields[key.value][channel.value := image]];
      }
      i := i + 1;
    }
    assert ids[i..] == [];
    r := Ok(fields);
  }

  /** One turn of the channel loop from the `i`th channel key. */
  lemma PairsStep(acc: seq<string>, C: seq<string>, i: int, group: map<string, Meta>, paths: map<string, string>)
    requires 0 <= i < |C|
    ensures !Resolves(group, C[i], paths) ==> ChannelPairsFrom(acc, C[i..], group, paths) == None
    ensures Resolves(group, C[i], paths) ==>
      var url := group[C[i]]["URL"];
      ChannelPairsFrom(acc, C[i..], group, paths) == ChannelPairsFrom(acc + [url, paths[url]], C[i + 1..], group, paths)
  {
    assert C[i..][0] == C[i] && C[i..][1..] == C[i + 1..];
  }

  /** One turn of the metadata loop from the `j`th metadata key. */
  lemma MetaStep(acc: seq<string>, image: Meta, M: seq<string>, j: int)
    requires 0 <= j < |M|
    ensures M[j] !in image ==> MetaValuesFrom(acc, image, M[j..]) == Err(MissingMetadata(M[j]))
    ensures M[j] in image ==>
      MetaValuesFrom(acc, image, M[j..]) == MetaValuesFrom(acc + [image[M[j]]], image, M[j + 1..])
  {
    assert M[j..][0] == M[j] && M[j..][1..] == M[j + 1..];
  }

  /**
   * The row of one field: the channel loop, which empties the row and
   * breaks at the first channel that does not resolve, then plate, well and
   * site, then the metadata of `image` -- the image the channel loop read
   * last, that of the last channel.
   */
  method BuildRow(group: map<string, Meta>, plate: string, well: string, site: string,
                  C: seq<string>, M: seq<string>, paths: map<string, string>)
    returns (r: Result<Option<seq<string>>, JoinError>)
    ensures r == FieldRow(group, plate, well, site, C, M, paths)
  {
    ghost var pairs := ChannelPairsFrom([], C, group, paths);
    var row: seq<string> := [];
    var image: Meta := map[];
    var i := 0;
    while i < |C|
      invariant 0 <= i <= |C|
      invariant pairs == ChannelPairsFrom(row, C[i..], group, paths)
      invariant 0 < i ==> C[i - 1] in group && image == group[C[i - 1]]
    {
      PairsStep(row, C, i, group, paths);
      if C[i] !in group {
        row := [];
        break;
      }
      image := group[C[i]];
      if "URL" !in image || image["URL"] !in paths {
        row := [];
        break;
      }
      var fileName := image["URL"];
      row := row + [fileName, paths[fileName]];
      i := i + 1;
    }
    assert pairs.Some? ==> i == |C| && pairs.value == row;
    assert pairs.None? ==> row == [];
    if row == [] {
      return Ok(None);
    }
    assert |C| > 0 && image == group[C[|C| - 1]];
    row := row + [plate, well, site];
    ghost var cells := MetaValuesFrom(row, image, M);
    var j := 0;
    while j < |M|
      invariant 0 <= j <= |M|
      invariant cells == MetaValuesFrom(row, image, M[j..])
    {
      MetaStep(row, image, M, j);
      if M[j] !in image {
        return Err(MissingMetadata(M[j]));
      }
      row := row + [image[M[j]]];
      j := j + 1;
    }
    assert M[j..] == [];
    r := Ok(Some(row));
  }

  /** One turn of the field loop from the `i`th field key. */
  lemma FieldStep(rows: seq<seq<string>>, keys: seq<string>, i: int, fields: Fields, plate: string, well: string, cfg: Config)
    requires 0 <= i < |keys|
    requires forall k :: k in keys ==> k in fields
    ensures !SiteParses(keys[i]) ==> FieldRowsFrom(rows, keys[i..], fields, plate, well, cfg) == Err(BadSite(keys[i]))
    ensures SiteParses(keys[i]) ==>
      FieldRowsFrom(rows, keys[i..], fields, plate, well, cfg) ==
        var row := FieldRow(fields[keys[i]], plate, well, Site(keys[i]), ChannelKeys(cfg), MetadataKeys(cfg), cfg.paths);
        if row.Err? then Err(row.error)
        else if row.value.None? then FieldRowsFrom(rows, keys[i + 1..], fields, plate, well, cfg)
        else FieldRowsFrom(rows + [row.value.value], keys[i + 1..], fields, plate, well, cfg)
  {
    assert keys[i..][0] == keys[i] && keys[i..][1..] == keys[i + 1..];
  }

  /**
   * The field loop of one well: for each field key in sorted order, the
   * site str(int(field[:2])) and the field's row, appended to `rows` when
   * there is one.
   */
  method FieldRows(rows: seq<seq<string>>, fields: Fields, plate: string, well: string, cfg: Config)
    returns (r: Result<seq<seq<string>>, JoinError>)
    ensures r == FieldRowsFrom(rows, SortedSet(fields.Keys), fields, plate, well, cfg)
  {
    var keys := SortedSet(fields.Keys);
    var C := ChannelKeys(cfg);
    var M := MetadataKeys(cfg);
    ghost var target := FieldRowsFrom(rows, keys, fields, plate, well, cfg);
    var all := rows;
    var i := 0;
    while i < |keys|
      invariant 0 <= i <= |keys|
      invariant target == FieldRowsFrom(all, keys[i..], fields, plate, well, cfg)
    {
      FieldStep(all, keys, i, fields, plate, well, cfg);
      var field := keys[i];
      if !SiteParses(field) {
        return Err(BadSite(field));
      }
      var row := BuildRow(fields[field], plate, well, Site(field), C, M, cfg.paths);
      if row.Err? {
        return Err(row.error);
      }
      if row.value.Some? {
        all := all + [row.value.value];
      }
      i := i + 1;
    }
    assert keys[i..] == [];
    r := Ok(all);
  }

  /** One well of a plate: look it up, name it, group its images, then its field loop. */
  method WellRows(rows: seq<seq<string>>, plate: string, wellId: string, s: Sections, cfg: Config)
    returns (r: Result<seq<seq<string>>, JoinError>)
    ensures r == WellRowsFrom(rows, plate, wellId, s, cfg)
  {
    if wellId !in s.wells {
      return Err(UnknownWell(wellId));
    }
    var well := s.wells[wellId];
    var name := WellName(well.metadata);
    if name.None? {
      return Err(BadWellName(wellId));
    }
    var fields := GroupImages(well.imageIds, s.images, cfg.channels);
    if fields.Err? {
      return Err(fields.error);
    }
    r := FieldRows(rows, fields.value, plate, name.value, cfg);
  }

  /** One turn of the well loop from the `w`th well id. */
  lemma WellStep(rows: seq<seq<string>>, plate: string, wellIds: seq<string>, w: int, s: Sections, cfg: Config)
    requires 0 <= w < |wellIds|
    ensures PlateRowsFrom(rows, plate, wellIds[w..], s, cfg) ==
      match WellRowsFrom(rows, plate, wellIds[w], s, cfg)
      case Err(e) => Err(e)
      case Ok(next) => PlateRowsFrom(next, plate, wellIds[w + 1..], s, cfg)
  {
    assert wellIds[w..][0] == wellIds[w] && wellIds[w..][1..] == wellIds[w + 1..];
  }

  /** One turn of the plate loop from the `p`th plate. */
  lemma PlateStep(rows: seq<seq<string>>, order: seq<Option<string>>, p: int, s: Sections, cfg: Config)
    requires 0 <= p < |order|
    requires forall q :: q in order ==> q in s.plates
    ensures AllRowsFrom(rows, order[p..], s, cfg) ==
      match PlateRowsFrom(rows, NameOf(order[p]), s.plates[order[p]], s, cfg)
      case Err(e) => Err(e)
      case Ok(next) => AllRowsFrom(next, order[p + 1..], s, cfg)
  {
    assert order[p..][0] == order[p] && order[p..][1..] == order[p + 1..];
  }

  /** The well loop of one plate: each well's rows in the order of the plate's well ids. */
  method PlateRows(rows: seq<seq<string>>, plate: string, wellIds: seq<string>, s: Sections, cfg: Config)
    returns (r: Result<seq<seq<string>>, JoinError>)
    ensures r == PlateRowsFrom(rows, plate, wellIds, s, cfg)
  {
    var all := rows;
    var w := 0;
    while w < |wellIds|
      invariant 0 <= w <= |wellIds|
      invariant PlateRowsFrom(rows, plate, wellIds, s, cfg) == PlateRowsFrom(all, plate, wellIds[w..], s, cfg)
    {
      WellStep(all, plate, wellIds, w, s, cfg);
      var next := WellRows(all, plate, wellIds[w], s, cfg);
      if next.Err? {
        return Err(next.error);
      }
      all := next.value;
      w := w + 1;
    }
    assert wellIds[w..] == [];
    r := Ok(all);
  }

  /**
   * convert_to_dataframe: the header, then the plate loop over the sorted
   * plate names, accumulating the rows of each plate in `all`.
   */
  method ConvertToDataFrame(s: Sections, cfg: Config) returns (r: Result<Table, JoinError>)
    ensures r == Join(s, cfg)
  {
    var header := Header(cfg);
    var order := PlateOrder(s.plates.Keys);
    if order.Err? {
      return Err(order.error);
    }
    var plates := order.value;
    var all: seq<seq<string>> := [];
    var p := 0;
    while p < |plates|
      invariant 0 <= p <= |plates|
      invariant AllRowsFrom([], plates, s, cfg) == AllRowsFrom(all, plates[p..], s, cfg)
    {
      PlateStep(all, plates, p, s, cfg);
      var next := PlateRows(all, NameOf(plates[p]), s.plates[plates[p]], s, cfg);
      if next.Err? {
        return Err(next.error);
      }
      all := next.value;
      p := p + 1;
    }
    assert plates[p..] == [];
    r := Ok(Table(header, all));
  }
}
