# Align: one-axis placement of a display object

This project models the `Align` class of `src/Align.js`. The class places a
child rectangle against a parent rectangle along one axis. Each of the two
operands is either a bare size or a display object. The intent is one of
five tokens (`CENTER`, `LEFT`/`TOP` for the leading edge, `RIGHT`/`BOTTOM`
for the trailing edge) or a literal coordinate. When both operands are display
objects, the routine writes the computed coordinate into the child's `x` or
`y`. It can also attach the child to the parent with `addChild`.

Layout:

- `host.dfy`, module `Host`: the JavaScript values that the routine tells
  apart with `typeof` and `===` (`JsValue`), and the display object
  (`DisplayObject`). The display object has `width`, `height`, `x`, `y`,
  `parent` and `AddChild`. `AddChild` stands for the foreign library call: it
  appends the child to a ghost log, `added`, and points the child's `parent`
  at the object. The module also holds the few JavaScript semantics the
  routine relies on. `Defaulted` binds a default parameter, which replaces an
  argument left out or passed as `undefined`. `Truthy` is truthiness.
  `StrictEqualsObject` is `===` between a primitive and an object, which
  never holds. `PropParentOfBool` reads `parent` off a boolean, which gives
  `undefined`; the same read on `undefined` or `null` would throw a
  `TypeError`, but the routine only makes it on a boolean.
- `align.dfy`, module `Align`: the five tokens and the case selection
  (`Classify`). It also holds the coordinate (`Coordinate`), the whole result
  with its two usage errors (`Outcome`), and the imperative routine. The
  routine is `Compute` (the checks, the coercion and the `switch`),
  `WriteAndAttach` (the field write and the attach) and `AlignAxis`, which runs
  the two in sequence. The facades `AlignX`, `AlignY` and `AlignXandY` follow.
  `Placed` is an independent geometric reading of the three placements.
  `Effect` and `AlignedOnce` state the whole effect of one call on the objects
  it is given. Two client methods, `DisplayObjectScenario` and
  `UsageErrorScenario`, use only these contracts to derive concrete results.
  For example, a 50 by 20 child in a 200 by 100 parent centres at x = 75.

Where the comments and the code differ, the model follows the code:

- An intent that is neither `CENTER` nor a token of the call's axis comes
  back unchanged as the result (src/Align.js:156-158). This covers a stray
  string and `TOP` on the x axis. The 0 stored at src/Align.js:117 is always
  overwritten before it is read (`UnrecognisedIntentReturnedAsIs`).
- The "already attached" test at src/Align.js:169 reads `parent` from the
  flag `addChild`. By then the flag is a boolean, and `parent` of a
  boolean is `undefined` (`PropParentOfBool`), so the test never holds. The
  child is attached on every call that writes a field with the flag `true`,
  whatever `child.parent` is (`Effect`, `WriteAndAttach`).

The routine returns `undefined` for both usage errors. The model returns
`Err(MissingOperand)` or `Err(InvalidAxis)` instead, naming the diagnostic the
routine prints. When both errors apply, the operand check wins.

## Model

| member | source | states |
|---|---|---|
| `Align.TokensDistinct` | src/Align.js:177-208 | the five tokens CENTER, LEFT, RIGHT, TOP and BOTTOM are pairwise distinct |
| `Align.Classify` | src/Align.js:142-158 | the intent selects CENTER exactly when it is the string CENTER. On "x" it selects leading/trailing exactly for LEFT/RIGHT, and on "y" exactly for TOP/BOTTOM. A non-string or a token of the other axis falls to the default case |
| `Align.Coordinate` | src/Align.js:142-159 | for a token of the axis the result is a number that realises `Placed`: CENTER puts the child's midpoint `padding` past the parent's midpoint, leading gives a leading gap of `padding`, trailing gives a trailing gap of `padding`. Any other intent is returned unchanged |
| `Align.Outcome` | src/Align.js:99-140 | a missing parent or child gives MissingOperand, whatever the axis. Otherwise an axis other than "x"/"y" gives InvalidAxis. Otherwise, with an `undefined` intent bound to 0, the result is the intent itself when it is not a token of the axis. For a token it is a number that realises `Placed` for the width (x) or height (y) of each operand and the padding, with non-numeric padding read as 0 |
| `Align.Compute` | src/Align.js:99-159 | the binding of the defaults, the operand check, the padding coercion, the axis check, the choice of sizes and the `switch` together produce exactly `Outcome` |
| `Align.WriteAndAttach` | src/Align.js:163-171 | axis "x" writes only `child.x`, axis "y" only `child.y`. `addChild` is called on the parent exactly when the flag is true, and then `child.parent` is the parent. The "already attached" test reads `parent` off the flag and never holds |
| `Align.AlignAxis` | src/Align.js:99-174 | the result is `Outcome`. A field is written only when the call succeeds and neither operand is a bare number, and only the axis's field of the child. `addChild` is called once exactly then and when the flag, with `undefined` bound to `false`, is the boolean `true`; a truthy non-boolean does not attach. Width and height of both objects are unchanged, and `parent` changes only through that `addChild` call. On an error nothing changes |
| `Align.AlignX` | src/Align.js:32-34 | same effect and result as `align` with axis "x" |
| `Align.AlignY` | src/Align.js:55-57 | same effect and result as `align` with axis "y" |
| `Align.AlignXandY` | src/Align.js:80-83 | with two display objects the child's `x` is the x-pass result and its `y` is the y-pass result. Both are computed from the sizes on entry. `addChild` is called at most once, only when the y pass writes and the flag is `true`, and `child.parent` changes only then. The x pass is made with the flag `false` |
| `Host.DisplayObject.AddChild` | src/Align.js:170 | each call to `parent.addChild(child)` is recorded, in order, and leaves `child.parent` pointing at the parent |
| `Align.PlacementIsUnique` | src/Align.js:143-155 | for each token, a coordinate satisfies the geometric placement if and only if it is the computed one |
| `Align.TrailingOverflowIsNotClamped` | src/Align.js:149-155 | a trailing-aligned child at least as large as the parent starts at or before `-padding`, and strictly before when it is larger: no clamping |
| `Align.EdgesAreMirrored` | src/Align.js:146-155 | with one padding, the leading gap of the leading placement equals the trailing gap of the trailing placement |
| `Align.GeometryMattersExactlyForTokens` | src/Align.js:142-159 | the result ignores both sizes and the padding if and only if the intent is not CENTER or a token of the axis |
| `Align.LiteralIntentIsTheCoordinate` | src/Align.js:156-158 | a numeric intent is the result itself, whatever the sizes and padding |
| `Align.UnrecognisedIntentReturnedAsIs` | src/Align.js:115-119 | an intent that is not a token of the axis is returned as is, not replaced by 0, on a call without usage errors. The exception is `undefined`, which the default at src/Align.js:99 binds to 0 |
| `Align.NonNumericPaddingIsZero` | src/Align.js:121-123 | a non-numeric padding gives the same result as padding 0 |
| `Align.DefaultsGiveZero` | src/Align.js:99 | with the default intent and padding, whether given as 0 or passed as `undefined`, a call without usage errors returns the literal 0 |

## Left out

- The diagnostics printed with `console.log` (src/Align.js:109, 130) are output only. The error constructor says which one would be printed.
- The 0 stored at src/Align.js:115-119 is not modelled as a statement, because the `switch` overwrites it on every path that reads it.
- The flag is coerced after the axis check in the model, not before it (src/Align.js:125-132). Neither check reads the flag, so the results agree.
- `Host.DisplayObject.AddChild` models only part of the library's reparenting: the call is recorded and `child.parent` is set. Removing the child from its previous parent and the parent's list of children are not modelled, because that library is not part of this model.
- Sizes, paddings and coordinates are `real`, so IEEE-754 rounding, NaN and signed zero are not modelled.
- JavaScript dynamic typing is modelled only as far as the routine tests it. An operand is missing, a number or a display object. An intent, padding or flag is a primitive value. Other values as operands are not modelled.
- The property descriptors of `Object.defineProperties` are not modelled. The tokens are five constant strings.
