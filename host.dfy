/** The host environment the alignment routine runs in: the JavaScript values
    it inspects with `typeof` and `===`, and the display objects it positions.
    The display-object library itself is foreign; only the capabilities the
    routine uses are modelled. */
module Host {

  /** The primitive JavaScript values an alignment intent, a padding or an
      attach flag can take. Floating point is modelled by `real`. */
  datatype JsValue = Undefined | Null | Bool(b: bool) | Number(n: real) | Str(s: string)

  /** The value a parameter with default `d` is bound to: a default replaces
      an argument that is left out or passed as `undefined`. */
  function Defaulted(v: JsValue, d: JsValue): JsValue {
    if v.Undefined? then d else v
  }

  /** JavaScript truthiness of a primitive value. */
  predicate Truthy(v: JsValue) {
    match v
    case Undefined | Null => false
    case Bool(b) => b
    case Number(n) => n != 0.0
    case Str(s) => s != ""
  }

  /** Reading the property `parent` of a boolean: a boolean has no such
      property, so the read gives `undefined`. (The same read on `undefined`
      or `null` throws a `TypeError`; the routine never makes it.) */
  function PropParentOfBool(b: bool): JsValue {
    Undefined
  }

  /** `v === o` for a primitive `v` and an object `o`: a primitive value is
      never strictly equal to an object. */
  predicate StrictEqualsObject(v: JsValue, o: object) {
    false
  }

  /** A sized display object: readable `width` and `height`, writable `x` and
      `y`, a `parent` back-reference and an `addChild` operation. */
  class DisplayObject {
    var width: real
    var height: real
    // `x` and `y` hold whatever the routine writes, which need not be a number
    var x: JsValue
    var y: JsValue
    var parent: DisplayObject?
    /** Every child handed to `addChild`, in call order. */
    ghost var added: seq<DisplayObject>

    constructor (width: real, height: real)
      ensures this.width == width && this.height == height
      ensures x == Number(0.0) && y == Number(0.0)
      ensures parent == null && added == []
    {
      this.width, this.height := width, height;
      x, y := Number(0.0), Number(0.0);
      parent := null;
      added := [];
    }

    /** The library's reparenting operation: the call is recorded, and the
        child's back-reference now points to this object. */
    method AddChild(child: DisplayObject)
      modifies this`added, child`parent
      ensures added == old(added) + [child]
      ensures child.parent == this
    {
      added := added + [child];
      child.parent := this;
    }
  }
}
