/** What updateConstraintsConstant() does to the records: it overwrites the
    constant of every inset, spacing and size record from the padding, the
    spacing and the number of children, and leaves everything else alone. */
module Constants {
  import opened Layout
  import opened Synthesis

  /** The padding component that an edge attribute takes. */
  function PaddingFor(a: Attribute, p: EdgeInsets): real
    requires a.IsEdge()
  {
    match a
    case Top => p.top
    case Leading => p.left
    case Trailing => p.right
    case Bottom => p.bottom
  }

  /** The switch over inset attributes has a case for every record. */
  predicate InsetsResolvable(cs: seq<Constraint>) {
    forall j :: 0 <= j < |cs| ==> cs[j].firstAttr.IsEdge()
  }

  /** The size records are all width or height records. */
  predicate SizesResolvable(cs: seq<Constraint>) {
    forall j :: 0 <= j < |cs| ==> cs[j].firstAttr.IsDimension()
  }

  /** Two records that differ at most in their constant. */
  predicate SameExceptConstant(a: Constraint, b: Constraint) {
    a.(constant := 0.0) == b.(constant := 0.0)
  }

  /** The inset list after resolution: top, leading, trailing and bottom
      records take padding.top, .left, .right and .bottom. */
  function ResolveInsets(cs: seq<Constraint>, p: EdgeInsets): (r: seq<Constraint>)
    requires InsetsResolvable(cs)
    ensures |r| == |cs| && InsetsResolvable(r)
    ensures forall j :: 0 <= j < |r| ==> SameExceptConstant(r[j], cs[j])
    ensures forall j :: 0 <= j < |r| ==>
      r[j].constant == match r[j].firstAttr
        case Top => p.top
        case Leading => p.left
        case Trailing => p.right
        case _ => p.bottom
  {
    seq(|cs|, j requires 0 <= j < |cs| => cs[j].(constant := PaddingFor(cs[j].firstAttr, p)))
  }

  /** The spacing list after resolution: every constant is the spacing. */
  function ResolveSpaces(cs: seq<Constraint>, spacing: real): (r: seq<Constraint>)
    ensures |r| == |cs|
    ensures forall j :: 0 <= j < |r| ==> SameExceptConstant(r[j], cs[j]) && r[j].constant == spacing
  {
    seq(|cs|, j requires 0 <= j < |cs| => cs[j].(constant := spacing))
  }

  /** The spacing reserved along the axis by n children: n - 1 gaps, none for n <= 1. */
  function TotalSpacing(spacing: real, n: nat): real {
    if n > 1 then spacing * (n - 1) as real else 0.0
  }

  /** The constant of a size record: the two paddings across that dimension,
      plus the total spacing when the dimension is the arrangement axis. */
  function SizeConstant(a: Attribute, axis: Axis, p: EdgeInsets, spacing: real, n: nat): real
    requires a.IsDimension()
  {
    if a == Width then p.left + p.right + (if axis == Horizontal then TotalSpacing(spacing, n) else 0.0)
    else p.top + p.bottom + (if axis == Horizontal then 0.0 else TotalSpacing(spacing, n))
  }

  function ResolveSizes(cs: seq<Constraint>, axis: Axis, p: EdgeInsets, spacing: real, n: nat): (r: seq<Constraint>)
    requires SizesResolvable(cs)
    ensures |r| == |cs| && SizesResolvable(r)
    ensures forall j :: 0 <= j < |r| ==> SameExceptConstant(r[j], cs[j])
    ensures forall j :: 0 <= j < |r| && r[j].firstAttr == Width ==>
      r[j].constant == p.left + p.right + (if axis == Horizontal then TotalSpacing(spacing, n) else 0.0)
    ensures forall j :: 0 <= j < |r| && r[j].firstAttr == Height ==>
      r[j].constant == p.top + p.bottom + (if axis == Vertical then TotalSpacing(spacing, n) else 0.0)
  {
    seq(|cs|, j requires 0 <= j < |cs| => cs[j].(constant := SizeConstant(cs[j].firstAttr, axis, p, spacing, n)))
  }

  /** The five constraint lists of the container. */
  datatype ConstraintSets = ConstraintSets(
    insets: seq<Constraint>,
    spaces: seq<Constraint>,
    sizes: seq<Constraint>,
    subViews: seq<Constraint>,
    centers: seq<Constraint>)

  predicate Resolvable(cs: ConstraintSets) {
    InsetsResolvable(cs.insets) && SizesResolvable(cs.sizes)
  }

  /** Two families of lists that differ at most in their constants. */
  predicate SameShape(a: ConstraintSets, b: ConstraintSets) {
    && |a.insets| == |b.insets| && (forall j :: 0 <= j < |a.insets| ==> SameExceptConstant(a.insets[j], b.insets[j]))
    && |a.spaces| == |b.spaces| && (forall j :: 0 <= j < |a.spaces| ==> SameExceptConstant(a.spaces[j], b.spaces[j]))
    && |a.sizes| == |b.sizes| && (forall j :: 0 <= j < |a.sizes| ==> SameExceptConstant(a.sizes[j], b.sizes[j]))
    && a.subViews == b.subViews && a.centers == b.centers
  }

  /** updateConstraintsConstant() over all five lists; the caps and the center
      records keep their constants. */
  function Resolve(cs: ConstraintSets, axis: Axis, p: EdgeInsets, spacing: real, n: nat): (r: ConstraintSets)
    requires Resolvable(cs)
    ensures Resolvable(r) && SameShape(r, cs)
  {
    cs.(insets := ResolveInsets(cs.insets, p),
        spaces := ResolveSpaces(cs.spaces, spacing),
        sizes := ResolveSizes(cs.sizes, axis, p, spacing, n))
  }

  /** buildConstraints(): the five freshly synthesised lists. */
  function Build(s: Setup, hugging: AxisPriorities, compression: AxisPriorities): (r: ConstraintSets)
    ensures Resolvable(r)
  {
    InsetsShaped(s);
    ConstraintSets(Insets(s), Spaces(s), Sizes(hugging, compression), Caps(s), Centers(s))
  }

  /** Resolution only overwrites constants, so its result does not depend on
      the constants it starts from. */
  lemma ResolveForgetsConstants(a: ConstraintSets, b: ConstraintSets, axis: Axis, p: EdgeInsets, spacing: real, n: nat)
    requires Resolvable(a) && Resolvable(b) && SameShape(a, b)
    ensures Resolve(a, axis, p, spacing, n) == Resolve(b, axis, p, spacing, n)
  {
    var ra, rb := Resolve(a, axis, p, spacing, n), Resolve(b, axis, p, spacing, n);
    forall j | 0 <= j < |a.insets| ensures ra.insets[j] == rb.insets[j] {
      assert a.insets[j].firstAttr == b.insets[j].firstAttr;
    }
    forall j | 0 <= j < |a.sizes| ensures ra.sizes[j] == rb.sizes[j] {
      assert a.sizes[j].firstAttr == b.sizes[j].firstAttr;
    }
  }

  /** Re-running resolution with new padding and spacing gives what the
      first run would have given with them: resolution is idempotent, and a
      spacing or padding change needs no rebuild. */
  lemma ResolveOverwrites(cs: ConstraintSets, axis: Axis, p: EdgeInsets, spacing: real, p': EdgeInsets, spacing': real, n: nat)
    requires Resolvable(cs)
    ensures Resolvable(Resolve(cs, axis, p, spacing, n))
    ensures Resolve(Resolve(cs, axis, p, spacing, n), axis, p', spacing', n) == Resolve(cs, axis, p', spacing', n)
    ensures Resolve(Resolve(cs, axis, p, spacing, n), axis, p, spacing, n) == Resolve(cs, axis, p, spacing, n)
  {
    var once := Resolve(cs, axis, p, spacing, n);
    ResolveForgetsConstants(once, cs, axis, p, spacing, n);
    assert SameShape(once, cs);
    ResolveForgetsConstants(once, cs, axis, p', spacing', n);
  }

  /** Three children laid out horizontally with spacing 8 and padding 4 on every
      side: 12 cross-axis pins and 2 axial pins, 2 spacing records of constant 8,
      width constant 24 and height constant 8. */
  lemma ThreeChildScenario(a: View, b: View, c: View, hugging: AxisPriorities, compression: AxisPriorities)
    ensures var s := Setup(Horizontal, AlignLeading, 0, [a, b, c]);
      var r := Resolve(Build(s, hugging, compression), Horizontal, EdgeInsets(4.0, 4.0, 4.0, 4.0), 8.0, 3);
      && |r.insets| == 14
      && |r.spaces| == 2 && r.spaces[0].constant == r.spaces[1].constant == 8.0
      && |r.sizes| == 4
      && r.sizes[0].constant == r.sizes[1].constant == 8.0
      && r.sizes[2].constant == r.sizes[3].constant == 24.0
      && r.centers == []
  {
    var s := Setup(Horizontal, AlignLeading, 0, [a, b, c]);
    InsetsCount(s);
    SpacesShape(s);
    CentersShape(s);
  }
}
