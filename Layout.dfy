/** Vocabulary shared by the whole model: the container's configuration, the
    abstract child views it arranges, the layout-constraint records it
    synthesises, and the fixed priority table with its nesting decay. */
module Layout {

  datatype Option<T> = None | Some(value: T)

  /** UILayoutConstraintAxis. */
  datatype Axis = Horizontal | Vertical

  /** UIStackLayoutAlign; `top` is an alias of `leading` and `bottom` of `trailing`. */
  datatype Align = AlignLeading | AlignTrailing | AlignCenter

  /** The NSLayoutAttribute cases the container uses. */
  datatype Attribute = Top | Bottom | Leading | Trailing | Width | Height | CenterX | CenterY | NotAnAttribute
  {
    /** One of the four edges, the attributes that carry a padding constant. */
    predicate IsEdge() {
      Top? || Bottom? || Leading? || Trailing?
    }
    /** One of the two size attributes. */
    predicate IsDimension() {
      Width? || Height?
    }
  }

  /** NSLayoutRelation. */
  datatype Relation = LessThanOrEqual | Equal | GreaterThanOrEqual

  /** The two ends of a constraint: the container itself, the child at an index
      of the child sequence, or no item at all (a size constant). */
  datatype Item = Container | Child(index: nat) | NoItem

  /** An NSLayoutConstraint as the container creates it:
      first.firstAttr  relation  second.secondAttr * 1 + constant, at priority.
      The multiplier is always 1 in the source, so it is not a field. */
  datatype Constraint = Constraint(
    first: Item,
    firstAttr: Attribute,
    relation: Relation,
    second: Item,
    secondAttr: Attribute,
    constant: real,
    priority: real)

  /** UIEdgeInsets. */
  datatype EdgeInsets = EdgeInsets(top: real, left: real, bottom: real, right: real)

  const ZeroInsets := EdgeInsets(0.0, 0.0, 0.0, 0.0)

  /** A pair of priorities, one per axis (content hugging or compression resistance). */
  datatype AxisPriorities = AxisPriorities(horizontal: real, vertical: real)
  {
    function For(axis: Axis): real {
      if axis == Horizontal then horizontal else vertical
    }
  }

  /** A CGSize; a negative component is the "no intrinsic metric" sentinel. */
  datatype Size = Size(width: real, height: real)

  /** What the container reads from one child view. `id` stands for the view's
      object identity; `isStackView` says whether the child is itself a stack
      layout view. */
  datatype View = View(
    id: nat,
    hugging: AxisPriorities,
    compression: AxisPriorities,
    intrinsicContentSize: Size,
    isStackView: bool)

  // The Priority table of the source.
  const BaseWeak: real := 100.0
  const BaseMedium: real := 500.0
  const BaseStrong: real := 900.0
  const NestDecrease: real := 0.01
  const AlignIncrease: real := 0.001
  const SpaceIncrease: real := AlignIncrease * 2.0

  /** The three priority tiers of one rebuild. */
  datatype Tiers = Tiers(weak: real, medium: real, strong: real)

  /** The tiers at a nesting depth: each base priority lowered by 0.01 per level. */
  function TiersAt(depth: nat): (t: Tiers)
    ensures t.weak < t.medium < t.strong
    ensures depth == 0 ==> t == Tiers(100.0, 500.0, 900.0)
    ensures t.weak <= BaseWeak && t.medium <= BaseMedium && t.strong <= BaseStrong
    ensures BaseStrong - t.strong == BaseMedium - t.medium == BaseWeak - t.weak
  {
    var decrease := NestDecrease * depth as real;
    Tiers(BaseWeak - decrease, BaseMedium - decrease, BaseStrong - decrease)
  }

  /** nestDepth(): the number of consecutive stack-view ancestors, where
      `ancestors[0]` tells whether the superview is a stack layout view,
      `ancestors[1]` the superview's superview, and so on. */
  function NestDepth(ancestors: seq<bool>): (d: nat)
    ensures d <= |ancestors|
    ensures forall j :: 0 <= j < d ==> ancestors[j]
    ensures d < |ancestors| ==> !ancestors[d]
  {
    if |ancestors| == 0 || !ancestors[0] then 0 else 1 + NestDepth(ancestors[1..])
  }

  /** isValidIntrinsicContentSize. */
  predicate IsValidIntrinsicContentSize(size: Size) {
    !(size.width < 0.0 || size.height < 0.0)
  }

  /** alignEnd: trailing (also spelled bottom) alignment. */
  predicate AlignEnd(align: Align) {
    align == AlignTrailing
  }

  /** The signed alignment micro-adjustment of end pins. */
  function AlignDelta(align: Align): real {
    if AlignEnd(align) then AlignIncrease else -AlignIncrease
  }

  // The roles of the attributes for an arrangement axis.
  function NonAxialStart(axis: Axis): Attribute {
    if axis == Horizontal then Top else Leading
  }
  function NonAxialEnd(axis: Axis): Attribute {
    if axis == Horizontal then Bottom else Trailing
  }
  function AxialStart(axis: Axis): Attribute {
    if axis == Horizontal then Leading else Top
  }
  function AxialEnd(axis: Axis): Attribute {
    if axis == Horizontal then Trailing else Bottom
  }
  function CenterAttribute(axis: Axis): Attribute {
    if axis == Horizontal then CenterY else CenterX
  }
  /** The perpendicular axis, whose priorities govern the cross-axis pins. */
  function CrossAxis(axis: Axis): Axis {
    if axis == Horizontal then Vertical else Horizontal
  }

  /** The four roles partition the edges: each axis uses all four edges once. */
  lemma RolesPartitionEdges(axis: Axis, a: Attribute)
    ensures a.IsEdge() <==>
      a in {NonAxialStart(axis), NonAxialEnd(axis), AxialStart(axis), AxialEnd(axis)}
    ensures |{NonAxialStart(axis), NonAxialEnd(axis), AxialStart(axis), AxialEnd(axis)}| == 4
  {
  }
}
