/** The `Align` class: one coordinate of a child placed against a parent along
    one axis, by centring, by the leading or trailing edge, or at a literal
    value; written into the child when both operands are display objects, with
    optional attachment of the child to the parent. */
module Align {
  import opened Host

  // The five alignment tokens: fixed, distinct strings.
  const CENTER: string := "center"
  const LEFT: string := "left"
  const RIGHT: string := "right"
  const TOP: string := "top"
  const BOTTOM: string := "bottom"

  lemma TokensDistinct()
    ensures CENTER != LEFT && CENTER != RIGHT && CENTER != TOP && CENTER != BOTTOM
    ensures LEFT != RIGHT && LEFT != TOP && LEFT != BOTTOM
    ensures RIGHT != TOP && RIGHT != BOTTOM
    ensures TOP != BOTTOM
  {
  }

  /** A parent or child argument: absent (`null` or `undefined`), a bare size,
      or a display object. */
  datatype Operand = Missing | Size(n: real) | Obj(o: DisplayObject)
  {
    function Frame(): set<object> {
      if Obj? then {o} else {}
    }
  }

  /** The three placements an alignment token selects. */
  datatype Tag = Center | Leading | Trailing

  /** The two usage errors. The routine returns `undefined` for both; the
      constructor says which diagnostic it reports. */
  datatype AlignError = MissingOperand | InvalidAxis

  datatype Option<T> = None | Some(value: T)

  datatype Result<T> = Ok(value: T) | Err(error: AlignError)

  predicate ValidAxis(axis: string) {
    axis == "x" || axis == "y"
  }

  /** LEFT on the horizontal axis, TOP on any other. */
  function LeadingToken(axis: string): string {
    if axis == "x" then LEFT else TOP
  }

  /** RIGHT on the horizontal axis, BOTTOM on any other. */
  function TrailingToken(axis: string): string {
    if axis == "x" then RIGHT else BOTTOM
  }

  /** Which case of the `switch` an intent selects under strict equality;
      `None` is the default case. */
  function Classify(axis: string, intent: JsValue): (t: Option<Tag>)
    ensures t == Some(Center) <==> intent == Str(CENTER)
    ensures axis == "x" ==> (t == Some(Leading) <==> intent == Str(LEFT))
    ensures axis == "x" ==> (t == Some(Trailing) <==> intent == Str(RIGHT))
    ensures axis == "y" ==> (t == Some(Leading) <==> intent == Str(TOP))
    ensures axis == "y" ==> (t == Some(Trailing) <==> intent == Str(BOTTOM))
    ensures !intent.Str? ==> t.None?
    ensures axis == "x" && (intent == Str(TOP) || intent == Str(BOTTOM)) ==> t.None?
    ensures axis == "y" && (intent == Str(LEFT) || intent == Str(RIGHT)) ==> t.None?
  {
    if intent == Str(CENTER) then Some(Center)
    else if intent == Str(LeadingToken(axis)) then Some(Leading)
    else if intent == Str(TrailingToken(axis)) then Some(Trailing)
    else None
  }

  /** Where a child box of extent `childSize` starting at `pos` sits against a
      parent box of extent `parentSize` starting at 0, for each placement. */
  ghost predicate Placed(tag: Tag, parentSize: real, childSize: real, padding: real, pos: real) {
    match tag
    // the child's midpoint is `padding` past the parent's midpoint
    case Center => pos + childSize / 2.0 == parentSize / 2.0 + padding
    // the gap between the leading edges is `padding`
    case Leading => pos == padding
    // the gap between the trailing edges is `padding`
    case Trailing => pos + childSize + padding == parentSize
  }

  /** The coordinate the `switch` selects, from the two sizes along the axis
      and the coerced padding. */
  function Coordinate(axis: string, parentSize: real, childSize: real, intent: JsValue, padding: real): (r: JsValue)
    ensures Classify(axis, intent).None? ==> r == intent
    ensures Classify(axis, intent).Some? ==>
              r.Number? && Placed(Classify(axis, intent).value, parentSize, childSize, padding, r.n)
  {
    match Classify(axis, intent)
    case Some(Center) => Number(parentSize * 0.5 - childSize * 0.5 + padding)
    case Some(Leading) => Number(padding)
    case Some(Trailing) =>
      if parentSize > childSize then Number(parentSize - childSize - padding)
      else Number(-(childSize - parentSize) - padding)
    // the default case returns the intent itself, whatever it is
    case None => intent
  }

  /** The size an operand contributes along the axis. */
  function SizeOn(axis: string, v: Operand): real
    requires !v.Missing?
    reads v.Frame()
  {
    match v
    case Size(n) => n
    case Obj(o) => if axis == "x" then o.width else o.height
  }

  /** A non-numeric padding counts as 0. */
  function PaddingValue(padding: JsValue): real {
    if padding.Number? then padding.n else 0.0
  }

  /** What `align` returns, once its defaults are bound: the operand check
      first, then the axis check, then the coordinate. */
  function Outcome(axis: string, parent: Operand, child: Operand, intent: JsValue, padding: JsValue): (r: Result<JsValue>)
    reads parent.Frame(), child.Frame()
    ensures r == Err(MissingOperand) <==> parent.Missing? || child.Missing?
    ensures r == Err(InvalidAxis) <==> !parent.Missing? && !child.Missing? && !ValidAxis(axis)
    ensures r.Ok? ==> !parent.Missing? && !child.Missing? && ValidAxis(axis)
    ensures r.Ok? ==>
              var desired := Defaulted(intent, Number(0.0));
              match Classify(axis, desired)
              case None => r.value == desired
              case Some(tag) =>
                r.value.Number? &&
                Placed(tag, SizeOn(axis, parent), SizeOn(axis, child), PaddingValue(padding), r.value.n)
  {
    if parent.Missing? || child.Missing? then Err(MissingOperand)
    else if !ValidAxis(axis) then Err(InvalidAxis)
    else Ok(Coordinate(axis, SizeOn(axis, parent), SizeOn(axis, child), Defaulted(intent, Number(0.0)),
                       PaddingValue(Defaulted(padding, Number(0.0)))))
  }

  /** A call writes a field exactly when it succeeds and neither operand is a
      bare number. */
  ghost predicate Mutates(parent: Operand, child: Operand, r: Result<JsValue>) {
    r.Ok? && parent.Obj? && child.Obj?
  }

  /** A call attaches the child exactly when it writes a field and its flag,
      once defaulted, is the boolean `true`. */
  ghost predicate Attaches(parent: Operand, child: Operand, addChild: JsValue, r: Result<JsValue>) {
    Mutates(parent, child, r) && Defaulted(addChild, Bool(false)) == Bool(true)
  }

  /** What one `align` call does to a display object `o` it was given: only
      the axis's field of the child is written, and only when `Mutates`;
      `addChild` is called on the parent exactly when `Attaches`, and then
      the child's `parent` is the parent; nothing else about `o` changes. */
  twostate predicate Effect(o: DisplayObject, axis: string, parent: Operand, child: Operand,
                            addChild: JsValue, new r: Result<JsValue>)
    reads o
  {
    && o.width == old(o.width) && o.height == old(o.height)
    && o.x == (if Mutates(parent, child, r) && o == child.o && axis == "x" then r.value else old(o.x))
    && o.y == (if Mutates(parent, child, r) && o == child.o && axis == "y" then r.value else old(o.y))
    && o.added == old(o.added) + (if Attaches(parent, child, addChild, r) && o == parent.o then [child.o] else [])
    && o.parent == (if Attaches(parent, child, addChild, r) && o == child.o then parent.o else old(o.parent))
  }

  /** The whole effect of one `align` call: the result is `Outcome`, and each
      operand that is a display object changes as `Effect` says. */
  twostate predicate AlignedOnce(axis: string, parent: Operand, child: Operand, intent: JsValue,
                                 padding: JsValue, addChild: JsValue, new r: Result<JsValue>)
    reads parent.Frame(), child.Frame()
  {
    && r == old(Outcome(axis, parent, child, intent, padding))
    && (parent.Obj? ==> Effect(parent.o, axis, parent, child, addChild, r))
    && (child.Obj? ==> Effect(child.o, axis, parent, child, addChild, r))
  }

  /** The side effect of `align` when both operands are display objects:
      the coordinate goes into the child's field for the axis, then the child
      is attached when the coerced flag is `true`. */
  method WriteAndAttach(axis: string, parent: DisplayObject, child: DisplayObject, retVal: JsValue, flag: bool)
    requires ValidAxis(axis)
    modifies child`x, child`y, parent`added, child`parent
    ensures child.x == (if axis == "x" then retVal else old(child.x))
    ensures child.y == (if axis == "y" then retVal else old(child.y))
    ensures parent.added == old(parent.added) + (if flag then [child] else [])
    ensures child.parent == (if flag then parent else old(child.parent))
  {
    if axis == "x" {
      child.x := retVal;
    } else {
      child.y := retVal;
    }
    // The "already attached" test reads `parent` off the flag rather than off
    // the child; the flag is a boolean, so the read gives `undefined`, and
    // the test fails whatever `child.parent` is.
    var flagParent := PropParentOfBool(flag);
    if flag && !(Truthy(flagParent) && StrictEqualsObject(flagParent, parent)) {
      parent.AddChild(child);
    }
  }

  /** The computing part of `align`: the binding of the defaults, the operand
      check, the coercion of the padding, the axis check, the sizes along the axis and the `switch`.
      It computes `Outcome` again as statements, reassigning the padding as the routine does. */
  method Compute(axis: string, parent: Operand, child: Operand, alignDesired: JsValue, padding: JsValue)
    returns (r: Result<JsValue>)
    ensures r == Outcome(axis, parent, child, alignDesired, padding)
  {
    if parent.Missing? || child.Missing? {
      return Err(MissingOperand);
    }
    var desired := Defaulted(alignDesired, Number(0.0));
    var pad := Defaulted(padding, Number(0.0));
    if !pad.Number? {
      pad := Number(0.0);
    }
    if axis != "x" && axis != "y" {
      return Err(InvalidAxis);
    }
    var parentSize, childSize;
    if axis == "x" {
      parentSize := if parent.Size? then parent.n else parent.o.width;
      childSize := if child.Size? then child.n else child.o.width;
    } else {
      parentSize := if parent.Size? then parent.n else parent.o.height;
      childSize := if child.Size? then child.n else child.o.height;
    }
    return Ok(Coordinate(axis, parentSize, childSize, desired, pad.n));
  }

  /** `Align.align`: the core routine. */
  method AlignAxis(axis: string, parent: Operand, child: Operand, alignDesired: JsValue := Number(0.0),
                   padding: JsValue := Number(0.0), addChild: JsValue := Bool(false))
    returns (r: Result<JsValue>)
    modifies parent.Frame(), child.Frame()
    ensures AlignedOnce(axis, parent, child, alignDesired, padding, addChild, r)
  {
    r := Compute(axis, parent, child, alignDesired, padding);
    var flag := Defaulted(addChild, Bool(false));
    if !flag.Bool? {
      flag := Bool(false);
    }
    assert flag.b <==> Defaulted(addChild, Bool(false)) == Bool(true);
    if r.Ok? && !child.Size? && !parent.Size? {
      assert Mutates(parent, child, r) && (flag.b <==> Attaches(parent, child, addChild, r));
      WriteAndAttach(axis, parent.o, child.o, r.value, flag.b);
    }
  }

  /** `Align.alignX`: `align` on the horizontal axis. */
  method AlignX(parent: Operand, child: Operand, alignX: JsValue := Number(0.0),
                padding: JsValue := Number(0.0), addChild: JsValue := Bool(false))
    returns (r: Result<JsValue>)
    modifies parent.Frame(), child.Frame()
    ensures AlignedOnce("x", parent, child, alignX, padding, addChild, r)
  {
    r := AlignAxis("x", parent, child, alignX, padding, addChild);
  }

  /** `Align.alignY`: `align` on the vertical axis. */
  method AlignY(parent: Operand, child: Operand, alignY: JsValue := Number(0.0),
                padding: JsValue := Number(0.0), addChild: JsValue := Bool(false))
    returns (r: Result<JsValue>)
    modifies parent.Frame(), child.Frame()
    ensures AlignedOnce("y", parent, child, alignY, padding, addChild, r)
  {
    r := AlignAxis("y", parent, child, alignY, padding, addChild);
  }

  /** `Align.alignXandY`: the horizontal pass without attaching, then the
      vertical pass with the caller's flag. Both coordinates are those of the
      sizes on entry; `addChild` is called at most once, by the second pass. */
  method AlignXandY(parent: Operand, child: Operand, alignX: JsValue := Number(0.0),
                    alignY: JsValue := Number(0.0), paddingX: JsValue := Number(0.0),
                    paddingY: JsValue := Number(0.0), addChild: JsValue := Bool(false))
    modifies parent.Frame(), child.Frame()
    ensures var rx, ry := old(Outcome("x", parent, child, alignX, paddingX)),
                          old(Outcome("y", parent, child, alignY, paddingY));
      forall o: DisplayObject | o in parent.Frame() || o in child.Frame() ::
        && o.width == old(o.width) && o.height == old(o.height)
        && o.x == (if Mutates(parent, child, rx) && o == child.o then rx.value else old(o.x))
        && o.y == (if Mutates(parent, child, ry) && o == child.o then ry.value else old(o.y))
        && o.added == old(o.added) + (if Attaches(parent, child, addChild, ry) && o == parent.o then [child.o] else [])
        && o.parent == (if Attaches(parent, child, addChild, ry) && o == child.o then parent.o else old(o.parent))
  {
    var _ := AlignX(parent, child, alignX, paddingX, Bool(false));
    var _ := AlignY(parent, child, alignY, paddingY, Defaulted(addChild, Bool(false)));
  }

  // ---------------------------------------------------------------------
  // Properties of the coordinate

  /** Each placement has exactly one coordinate, and it is the computed one. */
  lemma PlacementIsUnique(axis: string, parentSize: real, childSize: real, intent: JsValue, padding: real, pos: real)
    requires Classify(axis, intent).Some?
    ensures Placed(Classify(axis, intent).value, parentSize, childSize, padding, pos)
            <==> Coordinate(axis, parentSize, childSize, intent, padding) == Number(pos)
  {
  }

  /** The trailing placement is not clamped: a child at least as large as the
      parent starts at or before `-padding`, strictly before when larger. */
  lemma TrailingOverflowIsNotClamped(axis: string, parentSize: real, childSize: real, padding: real)
    requires ValidAxis(axis)
    requires parentSize <= childSize
    ensures var r := Coordinate(axis, parentSize, childSize, Str(TrailingToken(axis)), padding);
      r.Number? && r.n <= -padding && (parentSize < childSize ==> r.n < -padding)
  {
  }

  /** LEFT and RIGHT (TOP and BOTTOM) with one padding are mirror images: the
      two gaps at the parent's edges are equal. */
  lemma EdgesAreMirrored(axis: string, parentSize: real, childSize: real, padding: real)
    requires ValidAxis(axis)
    ensures var lead := Coordinate(axis, parentSize, childSize, Str(LeadingToken(axis)), padding);
      var trail := Coordinate(axis, parentSize, childSize, Str(TrailingToken(axis)), padding);
      lead.Number? && trail.Number? && lead.n == parentSize - (trail.n + childSize)
  {
  }

  /** The result depends on the sizes and the padding exactly when the intent
      is one of the three tokens of the axis; otherwise it is the intent. */
  ghost predicate IgnoresGeometry(axis: string, intent: JsValue) {
    forall parentSize, childSize, padding ::
      Coordinate(axis, parentSize, childSize, intent, padding) == Coordinate(axis, 0.0, 0.0, intent, 0.0)
  }

  lemma GeometryMattersExactlyForTokens(axis: string, intent: JsValue)
    ensures IgnoresGeometry(axis, intent) <==> Classify(axis, intent).None?
  {
    if Classify(axis, intent).Some? {
      assert Coordinate(axis, 0.0, 0.0, intent, 1.0) != Coordinate(axis, 0.0, 0.0, intent, 0.0);
    }
  }

  /** A numeric intent is the coordinate itself, whatever the sizes and the
      padding. */
  lemma LiteralIntentIsTheCoordinate(axis: string, parentSize: real, childSize: real, padding: real, pos: real)
    ensures Coordinate(axis, parentSize, childSize, Number(pos), padding) == Number(pos)
  {
  }

  // ---------------------------------------------------------------------
  // Properties of the whole call

  /** A stray string, or a token of the other axis, comes back unchanged rather
      than as 0; an `undefined` intent is bound to its default, 0. */
  lemma UnrecognisedIntentReturnedAsIs(axis: string, parent: Operand, child: Operand, intent: JsValue, padding: JsValue)
    requires ValidAxis(axis) && !parent.Missing? && !child.Missing?
    requires Classify(axis, intent).None?
    ensures Outcome(axis, parent, child, intent, padding) == Ok(if intent.Undefined? then Number(0.0) else intent)
  {
  }

  /** A non-numeric padding behaves as a padding of 0. */
  lemma NonNumericPaddingIsZero(axis: string, parent: Operand, child: Operand, intent: JsValue, padding: JsValue)
    requires !padding.Number?
    ensures Outcome(axis, parent, child, intent, padding) == Outcome(axis, parent, child, intent, Number(0.0))
  {
  }

  /** With the default intent and padding, left out or passed as `undefined`,
      the result is the literal 0. */
  lemma DefaultsGiveZero(axis: string, parent: Operand, child: Operand)
    requires ValidAxis(axis) && !parent.Missing? && !child.Missing?
    ensures Outcome(axis, parent, child, Number(0.0), Number(0.0)) == Ok(Number(0.0))
    ensures Outcome(axis, parent, child, Undefined, Undefined) == Ok(Number(0.0))
  {
  }

  /** A client of the contracts above: a 200 by 100 parent and a 50 by 20
      child. */
  method DisplayObjectScenario() {
    var parent := new DisplayObject(200.0, 100.0);
    var child := new DisplayObject(50.0, 20.0);
    var r := AlignX(Obj(parent), Obj(child), Str(CENTER));
    assert r == Ok(Number(75.0)) && child.x == Number(75.0);
    r := AlignY(Obj(parent), Obj(child), Str(BOTTOM), Number(5.0));
    assert child.y == Number(75.0) && child.x == Number(75.0);
    r := AlignX(Obj(parent), Obj(child), Str(RIGHT), Number(10.0), Bool(true));
    assert child.x == Number(140.0) && parent.added == [child] && child.parent == parent;
    r := AlignX(Obj(parent), Obj(child), Undefined);
    assert child.x == Number(0.0);
  }

  /** A client with bare sizes, which nothing is written to, and with the two
      usage errors, which write nothing. */
  method UsageErrorScenario() {
    var parent := new DisplayObject(200.0, 100.0);
    var child := new DisplayObject(50.0, 20.0);
    var r := AlignAxis("x", Size(100.0), Size(20.0), Str(CENTER));
    assert r == Ok(Number(40.0));
    r := AlignAxis("x", Obj(parent), Size(20.0), Str(CENTER), Number(0.0), Bool(true));
    assert r == Ok(Number(90.0)) && parent.added == [];
    r := AlignAxis("z", Obj(parent), Obj(child), Str(CENTER));
    assert r == Err(InvalidAxis) && child.x == Number(0.0);
    r := AlignY(Missing, Obj(child), Str(TOP), Number(3.0), Bool(true));
    assert r == Err(MissingOperand) && child.y == Number(0.0) && child.added == [];
  }
}
