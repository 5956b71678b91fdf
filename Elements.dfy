/**
 * The element handlers of the index-file reader: PEContentHandler and its
 * subclasses Well, Wells, Plate, Plates, Images and Root, as one closed
 * variant. Each element keeps the attributes of its start tag as metadata,
 * accumulates its own stripped text, and, when a child closes, folds the
 * child in a way that depends on its class.
 */
module Elements {
  import opened Results
  import opened Text

  /** An element's metadata: attribute name (or child tag) to string value. */
  type Meta = map<string, string>

  /** The handler class an element was created with. */
  datatype Kind = GenericKind | WellKind | WellsKind | PlateKind | PlatesKind | ImagesKind | RootKind

  /** The fields a subclass adds to PEContentHandler; children are arena indices. */
  datatype Role =
    | Generic
    | WellRole(imageIds: seq<string>)
    | WellsRole(wells: map<string, nat>)
    | PlateRole(wellIds: seq<string>)
    | PlatesRole(plates: map<Option<string>, nat>)
    | ImagesRole(images: map<string, nat>)
    | RootRole(imagesSection: Option<nat>, platesSection: Option<nat>, wellsSection: Option<nat>)

  /** One element; `parent` is the arena index of its parent, None for the root. */
  datatype Element = Element(name: string, parent: Option<nat>, content: string, metadata: Meta, role: Role)

  /** Why reading the event stream stopped. */
  datatype ParseError =
    | NoCurrentElement      // an event arrived with no element to receive it (AttributeError, RecursionError)
    | NoClassFor(name: string)  // Plates has no class for a child other than Plate (TypeError)
    | MissingId(name: string)   // a child that must be indexed by id has no "id" (KeyError)
    | Malformed             // the XML parser itself rejected the document

  function KindOf(r: Role): Kind
  {
    match r
    case Generic => GenericKind
    case WellRole(_) => WellKind
    case WellsRole(_) => WellsKind
    case PlateRole(_) => PlateKind
    case PlatesRole(_) => PlatesKind
    case ImagesRole(_) => ImagesKind
    case RootRole(_, _, _) => RootKind
  }

  /**
   * get_class_for_name: the class a new child of a `parent` element gets.
   * Root dispatches Plates, Wells and Images, Wells dispatches Well, Plates
   * dispatches Plate and has no class (None) for any other child; every
   * other pairing yields the generic class.
   */
  function ClassForName(parent: Kind, name: string): (k: Option<Kind>)
    ensures k.None? <==> parent == PlatesKind && name != "Plate"
    ensures k == Some(PlatesKind) <==> parent == RootKind && name == "Plates"
    ensures k == Some(WellsKind) <==> parent == RootKind && name == "Wells"
    ensures k == Some(ImagesKind) <==> parent == RootKind && name == "Images"
    ensures k == Some(WellKind) <==> parent == WellsKind && name == "Well"
    ensures k == Some(PlateKind) <==> parent == PlatesKind && name == "Plate"
    ensures k != Some(RootKind)
  {
    match parent
    case RootKind =>
      if name == "Plates" then Some(PlatesKind)
      else if name == "Wells" then Some(WellsKind)
      else if name == "Images" then Some(ImagesKind)
      else Some(GenericKind)
    case WellsKind => if name == "Well" then Some(WellKind) else Some(GenericKind)
    case PlatesKind => if name == "Plate" then Some(PlateKind) else None
    case _ => Some(GenericKind)
  }

  /** The freshly initialised subclass fields: empty lists, empty dicts, unset sections. */
  function NewRole(k: Kind): (r: Role)
    ensures KindOf(r) == k
  {
    match k
    case GenericKind => Generic
    case WellKind => WellRole([])
    case WellsKind => WellsRole(map[])
    case PlateKind => PlateRole([])
    case PlatesKind => PlatesRole(map[])
    case ImagesKind => ImagesRole(map[])
    case RootKind => RootRole(None, None, None)
  }

  /** The constructor: no content yet, metadata = dict(attrs). */
  function Create(k: Kind, parent: Option<nat>, name: string, attrs: Meta): Element
  {
    Element(name, parent, "", attrs, NewRole(k))
  }

  /** characters(): the stripped text run is appended to the element's content. */
  function AddText(e: Element, text: string): Element
  {
    e.(content := e.content + Strip(text))
  }

  /** Python's dict.get(key): None when the key is absent. */
  function Lookup(m: Meta, key: string): Option<string>
  {
    if key in m then Some(m[key]) else None
  }

  /** The (kind, tag) pairs whose fold reads the child's "id". */
  predicate NeedsId(k: Kind, name: string)
  {
    (k == WellKind && name == "Image") || (k == WellsKind && name == "Well")
    || (k == PlateKind && name == "Well") || (k == ImagesKind && name == "Image")
  }

  /** The (kind, tag) pairs whose fold does not record the child's content in metadata. */
  predicate Intercepts(k: Kind, name: string)
  {
    (k == PlateKind && name == "Well") || (k == PlatesKind && name == "Plate")
    || (k == ImagesKind && name == "Image")
    || (k == RootKind && (name == "Images" || name == "Plates" || name == "Wells"))
  }

  /**
   * onEndElement: `parent` absorbs the child `child` (at arena index
   * `childIx`) that just closed with tag `name`.
   *   generic: metadata[name] := child.content;
   *   Well: on "Image" appends child.id to image_ids, and records content;
   *   Wells: on "Well" indexes the child by id, and records content;
   *   Plate: on "Well" appends child.id to well_ids only;
   *   Plates: on "Plate" indexes the child by its "Name" (None if absent);
   *   Images: on "Image" indexes the child by id;
   *   Root: keeps the "Images", "Plates" and "Wells" children.
   * Fails exactly when the fold needs an id the child does not have, and
   * never alters the parent's tag, parent, content or class.
   */
  function Fold(parent: Element, child: Element, childIx: nat, name: string): (r: Result<Element, ParseError>)
    ensures r.Err? <==> NeedsId(KindOf(parent.role), name) && "id" !in child.metadata
    ensures r.Ok? ==>
      && r.value.name == parent.name && r.value.parent == parent.parent
      && r.value.content == parent.content && KindOf(r.value.role) == KindOf(parent.role)
  {
    var generic := parent.(metadata := parent.metadata[name := child.content]);
    match parent.role
    case Generic => Ok(generic)
    case WellRole(ids) =>
      if name != "Image" then Ok(generic)
      else if "id" !in child.metadata then Err(MissingId(name))
      else Ok(generic.(role := WellRole(ids + [child.metadata["id"]])))
    case WellsRole(wells) =>
      if name != "Well" then Ok(generic)
      else if "id" !in child.metadata then Err(MissingId(name))
      else Ok(generic.(role := WellsRole(wells[child.metadata["id"] := childIx])))
    case PlateRole(ids) =>
      if name != "Well" then Ok(generic)
      else if "id" !in child.metadata then Err(MissingId(name))
      else Ok(parent.(role := PlateRole(ids + [child.metadata["id"]])))
    case PlatesRole(plates) =>
      if name != "Plate" then Ok(generic)
      else Ok(parent.(role := PlatesRole(plates[Lookup(child.metadata, "Name") := childIx])))
    case ImagesRole(images) =>
      if name != "Image" then Ok(generic)
      else if "id" !in child.metadata then Err(MissingId(name))
      else Ok(parent.(role := ImagesRole(images[child.metadata["id"] := childIx])))
    case RootRole(i, p, w) =>
      if name == "Images" then Ok(parent.(role := RootRole(Some(childIx), p, w)))
      else if name == "Plates" then Ok(parent.(role := RootRole(i, Some(childIx), w)))
      else if name == "Wells" then Ok(parent.(role := RootRole(i, p, Some(childIx))))
      else Ok(generic)
  }

  /** The ordered id list an element keeps: Well.image_ids, Plate.well_ids, empty otherwise. */
  function IdList(r: Role): seq<string>
  {
    match r
    case WellRole(ids) => ids
    case PlateRole(ids) => ids
    case _ => []
  }

  /** Every child index an element holds is below `n`. */
  predicate RefsBelow(r: Role, n: nat)
  {
    match r
    case WellsRole(wells) => forall k :: k in wells ==> wells[k] < n
    case PlatesRole(plates) => forall k :: k in plates ==> plates[k] < n
    case ImagesRole(images) => forall k :: k in images ==> images[k] < n
    case RootRole(i, p, w) =>
      (i.Some? ==> i.value < n) && (p.Some? ==> p.value < n) && (w.Some? ==> w.value < n)
    case _ => true
  }

  /**
   * What a fold does to the metadata: unless the class intercepts the tag,
   * exactly the entry for the tag changes, to the child's content,
   * replacing any earlier value.
   */
  lemma FoldMetadata(parent: Element, child: Element, childIx: nat, name: string)
    requires Fold(parent, child, childIx, name).Ok?
    ensures var q := Fold(parent, child, childIx, name).value;
      if Intercepts(KindOf(parent.role), name) then q.metadata == parent.metadata
      else q.metadata == parent.metadata[name := child.content]
  {
  }

  /**
   * Well.image_ids and Plate.well_ids grow by exactly the closed child's id,
   * at the end, when the tag is the one the class collects; no other fold
   * touches them.
   */
  lemma FoldIdList(parent: Element, child: Element, childIx: nat, name: string)
    requires Fold(parent, child, childIx, name).Ok?
    ensures var k := KindOf(parent.role);
      var collects := (k == WellKind && name == "Image") || (k == PlateKind && name == "Well");
      IdList(Fold(parent, child, childIx, name).value.role)
        == IdList(parent.role) + (if collects then [child.metadata["id"]] else [])
  {
  }

  /**
   * Wells and Images index the closed child by its id, Plates by its
   * "Name" (None when absent), Root keeps the section of that tag; an
   * earlier entry under the same key is replaced, every other entry kept.
   */
  lemma FoldIndexes(parent: Element, child: Element, childIx: nat, name: string)
    requires Fold(parent, child, childIx, name).Ok?
    ensures var q := Fold(parent, child, childIx, name).value.role;
      match parent.role
      case WellsRole(wells) =>
        q.wells == if name == "Well" then wells[child.metadata["id"] := childIx] else wells
      case ImagesRole(images) =>
        q.images == if name == "Image" then images[child.metadata["id"] := childIx] else images
      case PlatesRole(plates) =>
        q.plates == if name == "Plate" then plates[Lookup(child.metadata, "Name") := childIx] else plates
      case RootRole(i, p, w) =>
        && q.imagesSection == (if name == "Images" then Some(childIx) else i)
        && q.platesSection == (if name == "Plates" then Some(childIx) else p)
        && q.wellsSection == (if name == "Wells" then Some(childIx) else w)
      case _ => true
  {
  }

  /** A fold only adds references to the child, so references stay below any bound above it. */
  lemma FoldRefsBelow(parent: Element, child: Element, childIx: nat, name: string, n: nat)
    requires Fold(parent, child, childIx, name).Ok?
    requires RefsBelow(parent.role, n) && childIx < n
    ensures RefsBelow(Fold(parent, child, childIx, name).value.role, n)
  {
  }

  lemma RefsBelowMono(r: Role, n: nat, m: nat)
    requires n <= m && RefsBelow(r, n)
    ensures RefsBelow(r, m)
  {
  }
}
