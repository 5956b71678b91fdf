/**
 * The accessors the converter applies to the finished tree:
 * doc.root.images.images, doc.root.plates.plates and doc.root.wells.wells,
 * turned into plain lookup tables for the row joiner.
 */
module Hierarchy {
  import opened Results
  import opened Elements
  import opened Documents

  /** What the joiner reads of a Well: its metadata and its image ids in document order. */
  datatype WellRec = WellRec(metadata: Meta, imageIds: seq<string>)

  /**
   * The three sections: image id to the image's metadata; plate name (None
   * for a plate without a "Name") to its well ids; well id to its record.
   */
  datatype Sections = Sections(
    images: map<string, Meta>,
    plates: map<Option<string>, seq<string>>,
    wells: map<string, WellRec>)

  datatype StructureError =
    | NoRoot                       // the document had no element at all
    | MissingSection(name: string) // the root never received that section
    | NotAWell                     // an entry of Wells.wells is not a Well
    | NotAPlate                    // an entry of Plates.plates is not a Plate

  /**
   * The root's section of class `kind` (Images, Plates or Wells): the
   * element in that slot, when the slot is filled with an element of that class.
   */
  function RootSection(d: Doc, kind: Kind): Option<nat>
    requires Valid(d) && d.root.Some?
    ensures var r := RootSection(d, kind); r.Some? ==> r.value < |d.arena| && KindOf(d.arena[r.value].role) == kind
  {
    var root := d.arena[0].role;
    assert RefsBelow(root, |d.arena|);
    var slot := if kind == ImagesKind then root.imagesSection
      else if kind == PlatesKind then root.platesSection
      else root.wellsSection;
    if slot.Some? && KindOf(d.arena[slot.value].role) == kind then slot else None
  }

  /** True when the root holds an Images, a Plates and a Wells section. */
  predicate HasSections(d: Doc)
    requires Valid(d)
  {
    && d.root.Some?
    && RootSection(d, ImagesKind).Some?
    && RootSection(d, PlatesKind).Some?
    && RootSection(d, WellsKind).Some?
  }

  /** Some entry of the Wells element `wi` is not a Well. */
  predicate StrayWell(d: Doc, wi: nat)
    requires Valid(d)
    requires wi < |d.arena| && d.arena[wi].role.WellsRole?
  {
    assert RefsBelow(d.arena[wi].role, |d.arena|);
    var wells := d.arena[wi].role.wells;
    exists k :: k in wells && !d.arena[wells[k]].role.WellRole?
  }

  /** Some entry of the Plates element `pi` is not a Plate. */
  predicate StrayPlate(d: Doc, pi: nat)
    requires Valid(d)
    requires pi < |d.arena| && d.arena[pi].role.PlatesRole?
  {
    assert RefsBelow(d.arena[pi].role, |d.arena|);
    var plates := d.arena[pi].role.plates;
    exists k :: k in plates && !d.arena[plates[k]].role.PlateRole?
  }

  /**
   * The tables read from the Images element `ii`, the Plates element `pi`
   * and the Wells element `wi`. NotAWell exactly when the Wells index holds
   * an element of another class, otherwise NotAPlate exactly when the
   * Plates index does; with neither, every table has exactly the keys of the
   * corresponding index, and each entry is read from the element that index
   * points to.
   */
  function Tables(d: Doc, ii: nat, pi: nat, wi: nat): (r: Result<Sections, StructureError>)
    requires Valid(d)
    requires ii < |d.arena| && d.arena[ii].role.ImagesRole?
    requires pi < |d.arena| && d.arena[pi].role.PlatesRole?
    requires wi < |d.arena| && d.arena[wi].role.WellsRole?
    ensures r == Err(NotAWell) <==> StrayWell(d, wi)
    ensures r == Err(NotAPlate) <==> !StrayWell(d, wi) && StrayPlate(d, pi)
    ensures r.Ok? <==> !StrayWell(d, wi) && !StrayPlate(d, pi)
    ensures r.Ok? ==>
      var images := d.arena[ii].role.images;
      var plates := d.arena[pi].role.plates;
      var wells := d.arena[wi].role.wells;
      && r.value.images.Keys == images.Keys
      && r.value.plates.Keys == plates.Keys
      && r.value.wells.Keys == wells.Keys
      && (forall k :: k in images ==> r.value.images[k] == d.arena[images[k]].metadata)
      && (forall k :: k in plates ==> r.value.plates[k] == IdList(d.arena[plates[k]].role))
      && (forall k :: k in wells ==>
            r.value.wells[k] == WellRec(d.arena[wells[k]].metadata, IdList(d.arena[wells[k]].role)))
  {
    if StrayWell(d, wi) then Err(NotAWell)
    else if StrayPlate(d, pi) then Err(NotAPlate)
    else Ok(Sections(ImageTable(d, ii), PlateTable(d, pi), WellTable(d, wi)))
  }

  /** Image id to the metadata of the Image element it indexes. */
  function ImageTable(d: Doc, ii: nat): (t: map<string, Meta>)
    requires Valid(d)
    requires ii < |d.arena| && d.arena[ii].role.ImagesRole?
    ensures var images := d.arena[ii].role.images;
      && t.Keys == images.Keys
      && forall k :: k in images ==> t[k] == d.arena[images[k]].metadata
  {
    assert RefsBelow(d.arena[ii].role, |d.arena|);
    var images := d.arena[ii].role.images;
    map k | k in images :: d.arena[images[k]].metadata
  }

  /** Plate name to the well ids of the Plate element it indexes. */
  function PlateTable(d: Doc, pi: nat): (t: map<Option<string>, seq<string>>)
    requires Valid(d)
    requires pi < |d.arena| && d.arena[pi].role.PlatesRole?
    requires forall k :: k in d.arena[pi].role.plates ==> d.arena[d.arena[pi].role.plates[k]].role.PlateRole?
    ensures var plates := d.arena[pi].role.plates;
      && t.Keys == plates.Keys
      && forall k :: k in plates ==> t[k] == IdList(d.arena[plates[k]].role)
  {
    assert RefsBelow(d.arena[pi].role, |d.arena|);
    var plates := d.arena[pi].role.plates;
    map k | k in plates :: d.arena[plates[k]].role.wellIds
  }

  /** Well id to the metadata and image ids of the Well element it indexes. */
  function WellTable(d: Doc, wi: nat): (t: map<string, WellRec>)
    requires Valid(d)
    requires wi < |d.arena| && d.arena[wi].role.WellsRole?
    requires forall k :: k in d.arena[wi].role.wells ==> d.arena[d.arena[wi].role.wells[k]].role.WellRole?
    ensures var wells := d.arena[wi].role.wells;
      && t.Keys == wells.Keys
      && forall k :: k in wells ==> t[k] == WellRec(d.arena[wells[k]].metadata, IdList(d.arena[wells[k]].role))
  {
    assert RefsBelow(d.arena[wi].role, |d.arena|);
    var wells := d.arena[wi].role.wells;
    map k | k in wells :: WellRec(d.arena[wells[k]].metadata, d.arena[wells[k]].role.imageIds)
  }

  /**
   * The three tables, or why they cannot be read: no root, or a section
   * missing, reported in the order images, plates, wells, as the accessors
   * run; with all three present, the tables of those sections.
   */
  function Extract(d: Doc): (r: Result<Sections, StructureError>)
    requires Valid(d)
    ensures d.root.None? ==> r == Err(NoRoot)
    ensures d.root.Some? && RootSection(d, ImagesKind).None? ==> r == Err(MissingSection("Images"))
    ensures d.root.Some? && RootSection(d, ImagesKind).Some? && RootSection(d, PlatesKind).None?
      ==> r == Err(MissingSection("Plates"))
    ensures d.root.Some? && RootSection(d, ImagesKind).Some? && RootSection(d, PlatesKind).Some?
      && RootSection(d, WellsKind).None?
      ==> r == Err(MissingSection("Wells"))
    ensures r.Ok? ==> HasSections(d)
    ensures HasSections(d) ==>
      r == Tables(d, RootSection(d, ImagesKind).value, RootSection(d, PlatesKind).value, RootSection(d, WellsKind).value)
  {
    if d.root.None? then Err(NoRoot)
    else
      match RootSection(d, ImagesKind)
      case None => Err(MissingSection("Images"))
      case Some(ii) =>
        match RootSection(d, PlatesKind)
        case None => Err(MissingSection("Plates"))
        case Some(pi) =>
          match RootSection(d, WellsKind)
          case None => Err(MissingSection("Wells"))
          case Some(wi) => Tables(d, ii, pi, wi)
  }

  /**
   * On a tree built from a well-formed event stream no index holds an
   * element of the wrong class, since each Well and Plate is indexed under
   * the tag its class was chosen for: the tables can only be missing, never
   * unreadable, and with all three sections present they are read.
   */
  lemma ExtractAfterRun(events: seq<Event>)
    requires Run(events).Ok? && EndsMatch(Empty, events)
    ensures var r := Extract(Run(events).value);
      && (r.Err? ==> r.error.NoRoot? || r.error.MissingSection?)
      && (HasSections(Run(events).value) ==> r.Ok?)
  {
    var d := Run(events).value;
    RunKeepsTyped(Empty, events);
    if HasSections(d) {
      var pi, wi := RootSection(d, PlatesKind).value, RootSection(d, WellsKind).value;
      assert IndexesTyped(d.arena, d.arena[wi].role);
      assert IndexesTyped(d.arena, d.arena[pi].role);
    }
  }
}
