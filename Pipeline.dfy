/**
 * pe2_load_data in scripts/commands.py, end to end: parse the index file,
 * take the three tables from its root, map every listed file name to the
 * data directory, remove the spaces from the configured channel keys, and
 * build the LoadData table.
 */
module Pipeline {
  import opened Results
  import opened Elements
  import opened Documents
  import opened Hierarchy
  import opened LoadData
  import opened Listing
  import opened Writer

  /** What stops the conversion, by stage. */
  datatype Failure =
    | ParseFailed(parse: ParseError)
    | StructureFailed(structure: StructureError)
    | JoinFailed(join: JoinError)

  /** The configuration the conversion runs with. */
  function ConfigOf(listing: string, channelItems: seq<(string, string)>, metadata: map<string, string>): Config
  {
    Config(NormalizeChannels(channelItems), metadata, Paths(listing))
  }

  /** The table for an event stream, a listing and a configuration, or the first failure. */
  function Convert(events: seq<Event>, listing: string, channelItems: seq<(string, string)>, metadata: map<string, string>)
    : Result<Table, Failure>
  {
    match Run(events)
    case Err(e) => Err(ParseFailed(e))
    case Ok(d) =>
      match Extract(d)
      case Err(e) => Err(StructureFailed(e))
      case Ok(s) =>
        match Join(s, ConfigOf(listing, channelItems, metadata))
        case Err(e) => Err(JoinFailed(e))
        case Ok(t) => Ok(t)
  }

  /**
   * A successful conversion writes the header of its configuration, whose
   * channel keys hold no space, with every row as wide as the header and
   * the plate column in sorted order.
   */
  lemma ConvertShape(events: seq<Event>, listing: string, channelItems: seq<(string, string)>, metadata: map<string, string>)
    requires Convert(events, listing, channelItems, metadata).Ok?
    ensures var cfg := ConfigOf(listing, channelItems, metadata); var t := Convert(events, listing, channelItems, metadata).value;
      && t.header == Header(cfg)
      && (forall k :: k in cfg.channels ==> ' ' !in k)
      && (forall i :: 0 <= i < |t.rows| ==> |t.rows[i]| == |t.header|)
      && PlatesSorted(t.rows, cfg)
  {
    var cfg := ConfigOf(listing, channelItems, metadata);
    var s := Extract(Run(events).value).value;
    JoinRows(s, cfg);
  }

  /** The conversion as pe2_load_data runs it, each stage in turn. */
  method Pe2LoadData(events: seq<Event>, listing: string, channelItems: seq<(string, string)>, metadata: map<string, string>)
    returns (r: Result<Table, Failure>)
    ensures r == Convert(events, listing, channelItems, metadata)
  {
    var doc := Parse(events);
    if doc.Err? {
      return Err(ParseFailed(doc.error));
    }
    var sections := Extract(doc.value);
    if sections.Err? {
      return Err(StructureFailed(sections.error));
    }
    var paths := BuildPaths(listing);
    var channels := NormalizeChannels(channelItems);
    var table := ConvertToDataFrame(sections.value, Config(channels, metadata, paths));
    if table.Err? {
      return Err(JoinFailed(table.error));
    }
    r := Ok(table.value);
  }
}
