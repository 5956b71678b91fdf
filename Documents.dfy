/**
 * DocContentHandler: the document-level SAX handler that turns the
 * parser's event stream into a tree of elements. The tree is an arena of
 * elements addressed by index; the chain from the root to the current
 * element is a stack of indices, its top being the handler's
 * `current_element`. Step is the specification of one event; the class
 * DocContentHandler performs the same updates in place, and Parse feeds it
 * a whole stream, as xml.sax.parse does.
 */
module Documents {
  import opened Results
  import opened Text
  import opened Elements

  /** The events the XML parser delivers; SyntaxError stands for any parse failure. */
  datatype Event = Start(name: string, attrs: Meta) | Chars(text: string) | End(name: string) | SyntaxError

  /** The handler's state: the elements built so far, the open-element chain, and the root. */
  datatype Doc = Doc(arena: seq<Element>, stack: seq<nat>, root: Option<nat>)

  /** State after startDocument: no root yet. */
  const Empty: Doc := Doc([], [], None)

  /**
   * The shape every reachable state has: the root, once created, is element
   * 0 and is a Root; every other element has an earlier parent; every
   * stored child index is inside the arena; the stack starts at the root and
   * each entry's parent is the entry below it.
   */
  ghost predicate Valid(d: Doc)
  {
    && (d.root.None? ==> d.arena == [] && d.stack == [])
    && (d.root.Some? ==> d.root == Some(0) && |d.arena| > 0 && d.arena[0].role.RootRole?)
    && (forall i :: 0 <= i < |d.arena| ==> ParentBelow(d.arena[i], i))
    && (forall i :: 0 <= i < |d.arena| ==> RefsBelow(d.arena[i].role, |d.arena|))
    && (forall k :: 0 <= k < |d.stack| ==> d.stack[k] < |d.arena|)
    && (|d.stack| > 0 ==> d.stack[0] == 0)
    && (forall k :: 0 < k < |d.stack| ==> d.arena[d.stack[k]].parent == Some(d.stack[k - 1]))
  }

  /** Element `i` has no parent exactly when it is the root, and otherwise an earlier one. */
  predicate ParentBelow(e: Element, i: nat)
  {
    if i == 0 then e.parent.None? else e.parent.Some? && e.parent.value < i
  }

  /** The handler's current_element. */
  function Top(d: Doc): nat
    requires |d.stack| > 0
  {
    d.stack[|d.stack| - 1]
  }

  /**
   * One event, as DocContentHandler handles it:
   *   start: the first one creates the Root; later ones make a child of the
   *          current element, of the class the current element chooses;
   *   text:  appends the stripped text to the current element's content;
   *   end:   the current element folds itself into its parent (the root's
   *          parent, the document handler, ignores it) and its parent
   *          becomes current.
   * Once the root has closed the current element is the document handler
   * itself, which has no onStartElement and whose characters and
   * endElement call themselves without end: every further event fails.
   */
  function Step(d: Doc, e: Event): (r: Result<Doc, ParseError>)
    requires Valid(d)
  {
    match e
    case Start(name, attrs) => OnStart(d, name, attrs)
    case Chars(t) => OnChars(d, t)
    case End(name) => OnEnd(d, name)
    case SyntaxError => Err(Malformed)
  }

  /** startElement. */
  function OnStart(d: Doc, name: string, attrs: Meta): Result<Doc, ParseError>
    requires Valid(d)
  {
    if d.root.None? then
      Ok(Doc([Create(RootKind, None, name, attrs)], [0], Some(0)))
    else if d.stack == [] then Err(NoCurrentElement)
    else
      var top := Top(d);
      match ClassForName(KindOf(d.arena[top].role), name)
      case None => Err(NoClassFor(name))
      case Some(k) => Ok(Doc(d.arena + [Create(k, Some(top), name, attrs)], d.stack + [|d.arena|], d.root))
  }

  /** characters. */
  function OnChars(d: Doc, t: string): Result<Doc, ParseError>
    requires Valid(d)
  {
    if d.stack == [] then Err(NoCurrentElement)
    else
      var top := Top(d);
      Ok(d.(arena := d.arena[top := AddText(d.arena[top], t)]))
  }

  /** endElement. */
  function OnEnd(d: Doc, name: string): Result<Doc, ParseError>
    requires Valid(d)
  {
    if d.stack == [] then Err(NoCurrentElement)
    else
      var top := Top(d);
      var rest := d.stack[..|d.stack| - 1];
      match d.arena[top].parent
      case None => Ok(d.(stack := rest))
      case Some(p) =>
        match Fold(d.arena[p], d.arena[top], top, name)
        case Err(err) => Err(err)
        case Ok(q) => Ok(Doc(d.arena[p := q], rest, d.root))
  }

  /** One successful event changes the depth by +1 (start), -1 (end) or 0. */
  lemma StepDepth(d: Doc, e: Event)
    requires Valid(d)
    requires Step(d, e).Ok?
    ensures |Step(d, e).value.stack| + (if e.End? then 1 else 0) == |d.stack| + (if e.Start? then 1 else 0)
  {
  }

  lemma StartKeepsValid(d: Doc, name: string, attrs: Meta)
    requires Valid(d)
    requires Step(d, Start(name, attrs)).Ok?
    ensures Valid(Step(d, Start(name, attrs)).value)
  {
    if d.root.Some? {
      var k := ClassForName(KindOf(d.arena[Top(d)].role), name).value;
      PushKeepsValid(d, Create(k, Some(Top(d)), name, attrs));
    }
  }

  /** Opening a child of the current element keeps the state well formed. */
  lemma PushKeepsValid(d: Doc, e: Element)
    requires Valid(d) && d.root.Some? && |d.stack| > 0
    requires e.parent == Some(Top(d)) && RefsBelow(e.role, |d.arena| + 1)
    ensures Valid(Doc(d.arena + [e], d.stack + [|d.arena|], d.root))
  {
    var d' := Doc(d.arena + [e], d.stack + [|d.arena|], d.root);
    var n := |d.arena|;
    forall i | 0 <= i < n
      ensures RefsBelow(d'.arena[i].role, n + 1)
    {
      RefsBelowMono(d.arena[i].role, n, n + 1);
    }
  }

  lemma CharsKeepsValid(d: Doc, t: string)
    requires Valid(d)
    requires Step(d, Chars(t)).Ok?
    ensures Valid(Step(d, Chars(t)).value)
  {
  }

  lemma EndKeepsValid(d: Doc, name: string)
    requires Valid(d)
    requires Step(d, End(name)).Ok?
    ensures Valid(Step(d, End(name)).value)
  {
    var top := Top(d);
    if d.arena[top].parent.Some? {
      var p := d.arena[top].parent.value;
      FoldRefsBelow(d.arena[p], d.arena[top], top, name, |d.arena|);
    }
  }

  /** Every event that is handled keeps the state well formed. */
  lemma StepKeepsValid(d: Doc, e: Event)
    requires Valid(d)
    requires Step(d, e).Ok?
    ensures Valid(Step(d, e).value)
  {
    match e
    case Start(name, attrs) => StartKeepsValid(d, name, attrs);
    case Chars(t) => CharsKeepsValid(d, t);
    case End(name) => EndKeepsValid(d, name);
    case SyntaxError =>
  }

  /** The handler fed `events` from state `d`; the first failing event ends the run. */
  function RunFrom(d: Doc, events: seq<Event>): (r: Result<Doc, ParseError>)
    requires Valid(d)
    ensures r.Ok? ==> Valid(r.value)
    decreases |events|
  {
    if events == [] then Ok(d)
    else
      match Step(d, events[0])
      case Err(err) => Err(err)
      case Ok(d') =>
        StepKeepsValid(d, events[0]);
        RunFrom(d', events[1..])
  }

  /** One turn of a run from the `i`th event: its step, then the rest of the run. */
  lemma RunFromStep(d: Doc, events: seq<Event>, i: int)
    requires Valid(d) && 0 <= i < |events|
    ensures Step(d, events[i]).Err? ==> RunFrom(d, events[i..]) == Err(Step(d, events[i]).error)
    ensures Step(d, events[i]).Ok? ==> Valid(Step(d, events[i]).value)
    ensures Step(d, events[i]).Ok? ==> RunFrom(d, events[i..]) == RunFrom(Step(d, events[i]).value, events[i + 1..])
  {
    assert events[i..][0] == events[i] && events[i..][1..] == events[i + 1..];
    if Step(d, events[i]).Ok? {
      StepKeepsValid(d, events[i]);
    }
  }

  /** A whole document: startDocument, then every event. */
  function Run(events: seq<Event>): Result<Doc, ParseError>
  {
    RunFrom(Empty, events)
  }

  function Starts(events: seq<Event>): nat
  {
    if events == [] then 0 else (if events[0].Start? then 1 else 0) + Starts(events[1..])
  }

  function Ends(events: seq<Event>): nat
  {
    if events == [] then 0 else (if events[0].End? then 1 else 0) + Ends(events[1..])
  }

  /**
   * Stack discipline over a whole run: every start that succeeds opens one
   * element and every end closes one, so the depth of the open chain is the
   * number of starts minus the number of ends.
   */
  lemma {:induction false} RunDepth(d: Doc, events: seq<Event>)
    requires Valid(d)
    requires RunFrom(d, events).Ok?
    ensures |RunFrom(d, events).value.stack| + Ends(events) == |d.stack| + Starts(events)
    decreases |events|
  {
    if events != [] {
      var d1 := Step(d, events[0]).value;
      StepKeepsValid(d, events[0]);
      StepDepth(d, events[0]);
      assert RunFrom(d, events) == RunFrom(d1, events[1..]);
      RunDepth(d1, events[1..]);
    }
  }

  /** From startDocument, the depth after any successful prefix is #starts - #ends. */
  lemma DocumentDepth(events: seq<Event>)
    requires Run(events).Ok?
    ensures |Run(events).value.stack| == Starts(events) - Ends(events)
  {
    RunDepth(Empty, events);
  }

  /**
   * A start event: the very first one creates the Root as element 0 and
   * makes it current; any later successful one appends a new element whose
   * parent is the current element, and makes it current. Nothing already
   * built changes.
   */
  lemma StartOpensChild(d: Doc, name: string, attrs: Meta)
    requires Valid(d)
    requires Step(d, Start(name, attrs)).Ok?
    ensures var d' := Step(d, Start(name, attrs)).value;
      && |d'.arena| == |d.arena| + 1
      && d'.arena[..|d.arena|] == d.arena
      && d'.stack == d.stack + [|d.arena|]
      && d'.arena[|d.arena|].name == name && d'.arena[|d.arena|].metadata == attrs
      && d'.arena[|d.arena|].content == ""
      && (d.root.None? ==> d'.root == Some(0) && d'.arena[0].role == RootRole(None, None, None))
      && (d.root.Some? ==> d'.arena[|d.arena|].parent == Some(Top(d)))
  {
  }

  /**
   * A text event succeeds exactly when there is a current element, and
   * changes the content of that element only, by appending the stripped text.
   */
  lemma TextAppends(d: Doc, t: string)
    requires Valid(d)
    ensures Step(d, Chars(t)).Ok? <==> d.stack != []
    ensures Step(d, Chars(t)).Ok? ==>
      var d' := Step(d, Chars(t)).value;
      && d'.stack == d.stack && d'.root == d.root && |d'.arena| == |d.arena|
      && d'.arena[Top(d)].content == d.arena[Top(d)].content + Strip(t)
      && d'.arena[Top(d)].metadata == d.arena[Top(d)].metadata
      && d'.arena[Top(d)].role == d.arena[Top(d)].role
      && forall i :: 0 <= i < |d.arena| && i != Top(d) ==> d'.arena[i] == d.arena[i]
  {
  }

  /**
   * An end event pops the current element and makes its parent current;
   * only the parent may change (by the fold). When the root closes, the
   * document handler's fold is a no-op: nothing but the stack changes.
   */
  lemma EndReturnsToParent(d: Doc, name: string)
    requires Valid(d)
    requires Step(d, End(name)).Ok?
    ensures var d' := Step(d, End(name)).value;
      && |d.stack| > 0
      && d'.stack == d.stack[..|d.stack| - 1]
      && |d'.arena| == |d.arena| && d'.root == d.root
      && (|d'.stack| == 0 <==> d.arena[Top(d)].parent.None?)
      && (|d'.stack| == 0 ==> d'.arena == d.arena)
      && (|d'.stack| > 0 ==>
            && d.arena[Top(d)].parent == Some(Top(d'))
            && forall i :: 0 <= i < |d.arena| && i != Top(d') ==> d'.arena[i] == d.arena[i])
  {
    var top := Top(d);
    if |d.stack| == 1 {
      assert top == 0;
    } else {
      assert d.arena[d.stack[|d.stack| - 1]].parent == Some(d.stack[|d.stack| - 2]);
    }
  }

  /** `a` is a prefix of `b`. */
  predicate IsPrefix(a: seq<string>, b: seq<string>)
  {
    |a| <= |b| && b[..|a|] == a
  }

  /** Every element already built keeps its id list, possibly extended at the end. */
  predicate IdListsExtend(d: Doc, d': Doc)
  {
    && |d.arena| <= |d'.arena|
    && forall i :: 0 <= i < |d.arena| ==> IsPrefix(IdList(d.arena[i].role), IdList(d'.arena[i].role))
  }

  lemma StepExtendsIdLists(d: Doc, e: Event)
    requires Valid(d)
    requires Step(d, e).Ok?
    ensures IdListsExtend(d, Step(d, e).value)
  {
    var d' := Step(d, e).value;
    match e
    case End(name) =>
      if |d'.stack| + 1 == |d.stack| && d.arena[Top(d)].parent.Some? {
        var p := d.arena[Top(d)].parent.value;
        FoldIdList(d.arena[p], d.arena[Top(d)], Top(d), name);
      }
    case _ =>
  }

  /**
   * Document order: over any run, Well.image_ids and Plate.well_ids of every
   * element only ever grow at the end, so ids appear in the order their
   * children closed.
   */
  lemma {:induction false} RunExtendsIdLists(d: Doc, events: seq<Event>)
    requires Valid(d)
    requires RunFrom(d, events).Ok?
    ensures IdListsExtend(d, RunFrom(d, events).value)
    decreases |events|
  {
    if events != [] {
      var d1 := Step(d, events[0]).value;
      StepKeepsValid(d, events[0]);
      StepExtendsIdLists(d, events[0]);
      assert RunFrom(d, events) == RunFrom(d1, events[1..]);
      RunExtendsIdLists(d1, events[1..]);
      ExtendTrans(d, d1, RunFrom(d1, events[1..]).value);
    }
  }

  lemma ExtendTrans(d: Doc, d1: Doc, d2: Doc)
    requires IdListsExtend(d, d1) && IdListsExtend(d1, d2)
    ensures IdListsExtend(d, d2)
  {
    forall i | 0 <= i < |d.arena|
      ensures IsPrefix(IdList(d.arena[i].role), IdList(d2.arena[i].role))
    {
      var a, b, c := IdList(d.arena[i].role), IdList(d1.arena[i].role), IdList(d2.arena[i].role);
      assert c[..|b|][..|a|] == c[..|a|];
    }
  }

  /**
   * The XML parser reports a mismatched end tag as a syntax error, so every
   * End it delivers names the element being closed.
   */
  ghost predicate EndsMatch(d: Doc, events: seq<Event>)
    requires Valid(d)
    decreases |events|
  {
    if events == [] then true
    else
      && (events[0].End? && d.stack != [] ==> d.arena[Top(d)].name == events[0].name)
      && match Step(d, events[0])
         case Err(_) => true
         case Ok(d') => StepKeepsValid(d, events[0]); EndsMatch(d', events[1..])
  }

  /** Every entry of a Wells index is a Well element, every entry of a Plates index a Plate element. */
  ghost predicate IndexesTyped(arena: seq<Element>, r: Role)
  {
    match r
    case WellsRole(wells) => forall k :: k in wells ==> wells[k] < |arena| && arena[wells[k]].role.WellRole?
    case PlatesRole(plates) => forall k :: k in plates ==> plates[k] < |arena| && arena[plates[k]].role.PlateRole?
    case _ => true
  }

  /**
   * Every element has the class its parent chose for its tag, and every
   * Wells and Plates index holds elements of the class it is named after.
   */
  ghost predicate Typed(d: Doc)
  {
    && (forall i :: 0 <= i < |d.arena| && d.arena[i].parent.Some? && d.arena[i].parent.value < |d.arena| ==>
          Some(KindOf(d.arena[i].role)) == ClassForName(KindOf(d.arena[d.arena[i].parent.value].role), d.arena[i].name))
    && (forall i :: 0 <= i < |d.arena| ==> IndexesTyped(d.arena, d.arena[i].role))
  }

  /** `b` keeps the tag, parent and class of every element of `a`. */
  ghost predicate SameShape(a: seq<Element>, b: seq<Element>)
  {
    && |a| <= |b|
    && forall j :: 0 <= j < |a| ==>
         b[j].name == a[j].name && b[j].parent == a[j].parent && KindOf(b[j].role) == KindOf(a[j].role)
  }

  lemma IndexesTypedMono(a: seq<Element>, b: seq<Element>, r: Role)
    requires IndexesTyped(a, r) && SameShape(a, b)
    ensures IndexesTyped(b, r)
  {
    match r
    case WellsRole(wells) =>
      forall k | k in wells ensures wells[k] < |b| && b[wells[k]].role.WellRole? {
        assert KindOf(b[wells[k]].role) == KindOf(a[wells[k]].role);
      }
    case PlatesRole(plates) =>
      forall k | k in plates ensures plates[k] < |b| && b[plates[k]].role.PlateRole? {
        assert KindOf(b[plates[k]].role) == KindOf(a[plates[k]].role);
      }
    case _ =>
  }

  /** Typing survives any arena change that keeps every element's tag, parent and class. */
  lemma TypedMono(d: Doc, b: seq<Element>, skip: nat)
    requires Valid(d) && Typed(d) && SameShape(d.arena, b)
    requires forall i :: |d.arena| <= i < |b| ==> b[i].parent.Some? && b[i].parent.value < |d.arena|
    requires forall i :: |d.arena| <= i < |b| ==>
      Some(KindOf(b[i].role)) == ClassForName(KindOf(b[b[i].parent.value].role), b[i].name)
    requires forall i :: 0 <= i < |b| && i != skip ==> IndexesTyped(d.arena, b[i].role) || b[i].role == NewRole(KindOf(b[i].role))
    requires skip < |b| ==> IndexesTyped(b, b[skip].role)
    ensures Typed(Doc(b, d.stack, d.root))
  {
    var a := d.arena;
    forall i | 0 <= i < |b| && b[i].parent.Some? && b[i].parent.value < |b|
      ensures Some(KindOf(b[i].role)) == ClassForName(KindOf(b[b[i].parent.value].role), b[i].name)
    {
      if i < |a| {
        assert ParentBelow(a[i], i);
      }
    }
    forall i | 0 <= i < |b| ensures IndexesTyped(b, b[i].role) {
      if i != skip {
        if IndexesTyped(a, b[i].role) {
          IndexesTypedMono(a, b, b[i].role);
        }
      }
    }
  }

  /**
   * Folding the element `top`, of the class its parent `p` chose for the
   * closing tag, keeps every element's shape and the parent's indexes typed.
   */
  lemma FoldKeepsTyped(a: seq<Element>, p: nat, top: nat, name: string)
    requires p < top < |a|
    requires Some(KindOf(a[top].role)) == ClassForName(KindOf(a[p].role), name)
    requires IndexesTyped(a, a[p].role)
    requires Fold(a[p], a[top], top, name).Ok?
    ensures var b := a[p := Fold(a[p], a[top], top, name).value];
      SameShape(a, b) && IndexesTyped(b, b[p].role)
  {
    var b := a[p := Fold(a[p], a[top], top, name).value];
    FoldIndexes(a[p], a[top], top, name);
    assert b[top] == a[top];
    IndexesTypedMono(a, b, a[p].role);
  }

  /** Closing a child folds it into its parent without breaking the typing. */
  lemma EndKeepsTyped(d: Doc, name: string)
    requires Valid(d) && Typed(d)
    requires Step(d, End(name)).Ok?
    requires d.stack != [] ==> d.arena[Top(d)].name == name
    ensures Typed(Step(d, End(name)).value)
  {
    var top := Top(d);
    if d.arena[top].parent.Some? {
      var p := d.arena[top].parent.value;
      assert ParentBelow(d.arena[top], top);
      var b := d.arena[p := Fold(d.arena[p], d.arena[top], top, name).value];
      FoldKeepsTyped(d.arena, p, top, name);
      forall i | 0 <= i < |b| && i != p ensures IndexesTyped(d.arena, b[i].role) {
        assert b[i] == d.arena[i];
      }
      TypedMono(d, b, p);
    }
  }

  /** A new element gets the class its parent chose, and empty indexes. */
  lemma StartKeepsTyped(d: Doc, name: string, attrs: Meta)
    requires Valid(d) && Typed(d)
    requires Step(d, Start(name, attrs)).Ok?
    ensures Typed(Step(d, Start(name, attrs)).value)
  {
    if d.root.Some? {
      var b := Step(d, Start(name, attrs)).value.arena;
      TypedMono(d, b, |b|);
    }
  }

  /** Text changes no element's class or indexes. */
  lemma CharsKeepsTyped(d: Doc, t: string)
    requires Valid(d) && Typed(d)
    requires Step(d, Chars(t)).Ok?
    ensures Typed(Step(d, Chars(t)).value)
  {
    var b := Step(d, Chars(t)).value.arena;
    forall i | 0 <= i < |b| ensures IndexesTyped(d.arena, b[i].role) {
      assert b[i].role == d.arena[i].role;
    }
    TypedMono(d, b, |b|);
  }

  /** Every event the XML parser can deliver keeps the typing. */
  lemma StepKeepsTyped(d: Doc, e: Event)
    requires Valid(d) && Typed(d)
    requires Step(d, e).Ok?
    requires e.End? && d.stack != [] ==> d.arena[Top(d)].name == e.name
    ensures Typed(Step(d, e).value)
  {
    match e
    case Start(name, attrs) => StartKeepsTyped(d, name, attrs);
    case Chars(t) => CharsKeepsTyped(d, t);
    case End(name) => EndKeepsTyped(d, name);
    case SyntaxError =>
  }

  /**
   * Over a well-formed run, every element keeps the class its parent chose
   * for its tag, so Wells indexes only Well elements and Plates only Plate
   * elements.
   */
  lemma {:induction false} RunKeepsTyped(d: Doc, events: seq<Event>)
    requires Valid(d) && Typed(d) && EndsMatch(d, events)
    requires RunFrom(d, events).Ok?
    ensures Typed(RunFrom(d, events).value)
    decreases |events|
  {
    if events != [] {
      var d1 := Step(d, events[0]).value;
      StepKeepsValid(d, events[0]);
      StepKeepsTyped(d, events[0]);
      assert RunFrom(d, events) == RunFrom(d1, events[1..]);
      RunKeepsTyped(d1, events[1..]);
    }
  }

  /**
   * The document handler with its fields updated in place: the arena of
   * elements, the chain of open elements and the root.
   */
  class DocContentHandler {
    var arena: seq<Element>
    var stack: seq<nat>
    var root: Option<nat>

    ghost function State(): Doc
      reads this
    {
      Doc(arena, stack, root)
    }

    /** startDocument. */
    constructor ()
      ensures State() == Empty
    {
      arena, stack, root := [], [], None;
    }

    method StartElement(name: string, attrs: Meta) returns (r: Outcome<ParseError>)
      requires Valid(State())
      modifies this
      ensures Valid(State())
      ensures Step(old(State()), Start(name, attrs)) == (if r.Pass? then Ok(State()) else Err(r.error))
      ensures r.Fail? ==> State() == old(State())
    {
      if root.None? {
        arena := [Create(RootKind, None, name, attrs)];
        stack := [0];
        root := Some(0);
        return Pass;
      }
      if stack == [] {
        return Fail(NoCurrentElement);
      }
      var top := stack[|stack| - 1];
      var cls := ClassForName(KindOf(arena[top].role), name);
      if cls.None? {
        return Fail(NoClassFor(name));
      }
      ghost var d := State();
      stack := stack + [|arena|];
      arena := arena + [Create(cls.value, Some(top), name, attrs)];
      r := Pass;
      assert State() == Step(d, Start(name, attrs)).value;
      StartKeepsValid(d, name, attrs);
    }

    method Characters(text: string) returns (r: Outcome<ParseError>)
      requires Valid(State())
      modifies this
      ensures Valid(State())
      ensures Step(old(State()), Chars(text)) == (if r.Pass? then Ok(State()) else Err(r.error))
      ensures r.Fail? ==> State() == old(State())
    {
      ghost var d := State();
      if stack == [] {
        return Fail(NoCurrentElement);
      }
      var top := stack[|stack| - 1];
      arena := arena[top := AddText(arena[top], text)];
      r := Pass;
      assert State() == Step(d, Chars(text)).value;
      CharsKeepsValid(d, text);
    }

    method EndElement(name: string) returns (r: Outcome<ParseError>)
      requires Valid(State())
      modifies this
      ensures Valid(State())
      ensures Step(old(State()), End(name)) == (if r.Pass? then Ok(State()) else Err(r.error))
      ensures r.Fail? ==> State() == old(State())
    {
      ghost var d := State();
      if stack == [] {
        return Fail(NoCurrentElement);
      }
      var top := stack[|stack| - 1];
      var parent := arena[top].parent;
      if parent.Some? {
        var p := parent.value;
        var folded := Fold(arena[p], arena[top], top, name);
        if folded.Err? {
          return Fail(folded.error);
        }
        arena := arena[p := folded.value];
      }
      stack := stack[..|stack| - 1];
      r := Pass;
      assert State() == Step(d, End(name)).value;
      EndKeepsValid(d, name);
    }
  }

  /**
   * xml.sax.parse driving a fresh DocContentHandler over `events`: the
   * handler's final state, or the error that stopped it.
   */
  method Parse(events: seq<Event>) returns (r: Result<Doc, ParseError>)
    ensures r == Run(events)
  {
    var h := new DocContentHandler();
    var i := 0;
    while i < |events|
      invariant 0 <= i <= |events|
      decreases |events| - i
      invariant Valid(h.State())
      invariant Run(events) == RunFrom(h.State(), events[i..])
    {
      ghost var d := h.State();
      RunFromStep(d, events, i);
      var o: Outcome<ParseError>;
      match events[i] {
        case Start(name, attrs) => o := h.StartElement(name, attrs);
        case Chars(t) => o := h.Characters(t);
        case End(name) => o := h.EndElement(name);
        case SyntaxError => o := Fail(Malformed);
      }
      if o.Fail? {
        return Err(o.error);
      }
      i := i + 1;
    }
    r := Ok(Doc(h.arena, h.stack, h.root));
  }
}
