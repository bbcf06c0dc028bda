/** The stack layout view itself: its configuration fields, its child list,
    its five constraint lists and the "needs update constraints" flag, with
    the setters, the membership hooks, the rebuild and the constant pass. */
module StackLayout {
  import opened Layout
  import opened Subviews
  import opened Synthesis
  import opened Constants

  class UIStackLayoutView {
    var axis: Axis
    var align: Align
    var spacing: real
    var padding: EdgeInsets

    var insetConstraints: seq<Constraint>
    var spaceConstraints: seq<Constraint>
    var sizeConstraints: seq<Constraint>
    var subViewConstraints: seq<Constraint>
    var centerConstraints: seq<Constraint>

    /** The children in arrangement order (also the view's subviews). */
    var arrangedSubviews: seq<View>

    /** setNeedsUpdateConstraints() has been requested since the last rebuild. */
    var needsUpdateConstraints: bool

    // Read from the host view tree; the container never writes them.
    /** For the superview, its superview, ...: whether it is a stack layout view. */
    var ancestors: seq<bool>
    /** The container's own content hugging priorities. */
    var hugging: AxisPriorities
    /** The container's own compression resistance priorities. */
    var compression: AxisPriorities

    /** Every record has a case in updateConstraintsConstant()'s switches. */
    predicate Valid()
      reads this
    {
      InsetsResolvable(insetConstraints) && SizesResolvable(sizeConstraints)
    }

    /** The five constraint lists together. */
    function Lists(): ConstraintSets
      reads this
    {
      ConstraintSets(insetConstraints, spaceConstraints, sizeConstraints, subViewConstraints, centerConstraints)
    }

    /** The inputs a rebuild reads. */
    function CurrentSetup(): Setup
      reads this
    {
      Setup(axis, align, NestDepth(ancestors), arrangedSubviews)
    }

    /** A new, empty container with the default configuration: horizontal,
        leading, no spacing, no padding. */
    constructor (ancestors: seq<bool>, hugging: AxisPriorities, compression: AxisPriorities)
      ensures Valid()
      ensures axis == Horizontal && align == AlignLeading && spacing == 0.0 && padding == ZeroInsets
      ensures arrangedSubviews == [] && Lists() == ConstraintSets([], [], [], [], [])
      ensures !needsUpdateConstraints
      ensures this.ancestors == ancestors && this.hugging == hugging && this.compression == compression
    {
      axis, align, spacing, padding := Horizontal, AlignLeading, 0.0, ZeroInsets;
      insetConstraints, spaceConstraints, sizeConstraints := [], [], [];
      subViewConstraints, centerConstraints := [], [];
      arrangedSubviews := [];
      needsUpdateConstraints := false;
      this.ancestors, this.hugging, this.compression := ancestors, hugging, compression;
    }

    /** axis's didSet: a different axis requests a full rebuild; the same axis changes nothing. */
    method SetAxis(value: Axis)
      modifies this`axis, this`needsUpdateConstraints
      ensures axis == value
      ensures needsUpdateConstraints == (old(needsUpdateConstraints) || value != old(axis))
    {
      var oldValue := axis;
      axis := value;
      if oldValue != axis {
        needsUpdateConstraints := true;
      }
    }

    /** align's didSet: a different alignment requests a full rebuild; the same one changes nothing. */
    method SetAlign(value: Align)
      modifies this`align, this`needsUpdateConstraints
      ensures align == value
      ensures needsUpdateConstraints == (old(needsUpdateConstraints) || value != old(align))
    {
      var oldValue := align;
      align := value;
      if oldValue != align {
        needsUpdateConstraints := true;
      }
    }

    /** spacing's didSet: a different spacing re-resolves the constants in
        place, without a rebuild; the same spacing changes nothing. */
    method SetSpacing(value: real)
      requires Valid()
      modifies this`spacing, this`insetConstraints, this`spaceConstraints, this`sizeConstraints
      ensures Valid() && spacing == value
      ensures Lists() == if value == old(spacing) then old(Lists())
                         else Resolve(old(Lists()), axis, padding, value, |arrangedSubviews|)
    {
      var oldValue := spacing;
      spacing := value;
      if oldValue != spacing {
        UpdateConstraintsConstant();
      }
    }

    /** padding's didSet: different insets re-resolve the constants in place,
        without a rebuild; equal insets change nothing. */
    method SetPadding(value: EdgeInsets)
      requires Valid()
      modifies this`padding, this`insetConstraints, this`spaceConstraints, this`sizeConstraints
      ensures Valid() && padding == value
      ensures Lists() == if value == old(padding) then old(Lists())
                         else Resolve(old(Lists()), axis, value, spacing, |arrangedSubviews|)
    {
      var oldValue := padding;
      padding := value;
      if oldValue != padding {
        UpdateConstraintsConstant();
      }
    }

    // The single-edge accessors read one component of padding.
    function TopPadding(): real reads this { padding.top }
    function LeftPadding(): real reads this { padding.left }
    function BottomPadding(): real reads this { padding.bottom }
    function RightPadding(): real reads this { padding.right }

    /** topPadding's setter: changes the top edge only, through padding's didSet. */
    method SetTopPadding(value: real)
      requires Valid()
      modifies this`padding, this`insetConstraints, this`spaceConstraints, this`sizeConstraints
      ensures Valid() && padding == old(padding).(top := value)
      ensures TopPadding() == value
      ensures Lists() == if value == old(padding.top) then old(Lists())
                         else Resolve(old(Lists()), axis, padding, spacing, |arrangedSubviews|)
    {
      SetPadding(padding.(top := value));
    }

    /** leftPadding's setter: changes the left edge only, through padding's didSet. */
    method SetLeftPadding(value: real)
      requires Valid()
      modifies this`padding, this`insetConstraints, this`spaceConstraints, this`sizeConstraints
      ensures Valid() && padding == old(padding).(left := value)
      ensures LeftPadding() == value
      ensures Lists() == if value == old(padding.left) then old(Lists())
                         else Resolve(old(Lists()), axis, padding, spacing, |arrangedSubviews|)
    {
      SetPadding(padding.(left := value));
    }

    /** bottomPadding's setter: changes the bottom edge only, through padding's didSet. */
    method SetBottomPadding(value: real)
      requires Valid()
      modifies this`padding, this`insetConstraints, this`spaceConstraints, this`sizeConstraints
      ensures Valid() && padding == old(padding).(bottom := value)
      ensures BottomPadding() == value
      ensures Lists() == if value == old(padding.bottom) then old(Lists())
                         else Resolve(old(Lists()), axis, padding, spacing, |arrangedSubviews|)
    {
      SetPadding(padding.(bottom := value));
    }

    /** rightPadding's setter: changes the right edge only, through padding's didSet. */
    method SetRightPadding(value: real)
      requires Valid()
      modifies this`padding, this`insetConstraints, this`spaceConstraints, this`sizeConstraints
      ensures Valid() && padding == old(padding).(right := value)
      ensures RightPadding() == value
      ensures Lists() == if value == old(padding.right) then old(Lists())
                         else Resolve(old(Lists()), axis, padding, spacing, |arrangedSubviews|)
    {
      SetPadding(padding.(right := value));
    }

    /** didAddSubview: the child goes to the end of the list and a rebuild is requested. */
    method DidAddSubview(subview: View)
      modifies this`arrangedSubviews, this`needsUpdateConstraints
      ensures arrangedSubviews == old(arrangedSubviews) + [subview]
      ensures needsUpdateConstraints
    {
      arrangedSubviews := arrangedSubviews + [subview];
      needsUpdateConstraints := true;
    }

    /** willRemoveSubview: the first entry that is the same view is removed (a
        view that is not in the list leaves it as it is), and a rebuild is
        requested either way. */
    method WillRemoveSubview(subview: View)
      modifies this`arrangedSubviews, this`needsUpdateConstraints
      ensures arrangedSubviews == RemoveFirst(old(arrangedSubviews), subview.id)
      ensures needsUpdateConstraints
    {
      var index := IndexOf(arrangedSubviews, subview.id);
      if index.Some? {
        arrangedSubviews := arrangedSubviews[..index.value] + arrangedSubviews[index.value + 1..];
      }
      needsUpdateConstraints := true;
    }

    /** updateConstraints(): all five lists are replaced by a fresh synthesis
        with resolved constants; the pending request is consumed. */
    method UpdateConstraints()
      modifies this`insetConstraints, this`spaceConstraints, this`sizeConstraints,
        this`subViewConstraints, this`centerConstraints, this`needsUpdateConstraints
      ensures Valid()
      ensures Lists() == Resolve(Build(CurrentSetup(), hugging, compression), axis, padding, spacing, |arrangedSubviews|)
      ensures !needsUpdateConstraints
    {
      BuildConstraints();
      UpdateConstraintsConstant();
      needsUpdateConstraints := false;
    }

    /** buildConstraints(): one pass over the children appending to five local
        lists, then all five fields replaced at once. */
    method BuildConstraints()
      modifies this`insetConstraints, this`spaceConstraints, this`sizeConstraints,
        this`subViewConstraints, this`centerConstraints
      ensures Valid()
      ensures Lists() == Build(CurrentSetup(), hugging, compression)
    {
      var sizes: seq<Constraint> := [];
      var insets, spaces, centers, subViews := SynthesizeChildren(axis, align, NestDepth(ancestors), arrangedSubviews);

      // Container self-size: height then width, each >= then <=.
      sizes := sizes + [Constraint(Container, Height, GreaterThanOrEqual, NoItem, NotAnAttribute, 0.0, compression.vertical)];
      sizes := sizes + [Constraint(Container, Height, LessThanOrEqual, NoItem, NotAnAttribute, 0.0, hugging.vertical)];
      sizes := sizes + [Constraint(Container, Width, GreaterThanOrEqual, NoItem, NotAnAttribute, 0.0, compression.horizontal)];
      sizes := sizes + [Constraint(Container, Width, LessThanOrEqual, NoItem, NotAnAttribute, 0.0, hugging.horizontal)];

      assert sizes == Sizes(hugging, compression);
      assert Build(CurrentSetup(), hugging, compression) == ConstraintSets(insets, spaces, sizes, subViews, centers);
      insetConstraints, spaceConstraints, sizeConstraints := insets, spaces, sizes;
      subViewConstraints, centerConstraints := subViews, centers;
    }

    /** updateConstraintsConstant(): rewrites the constant of every inset,
        spacing and size record in place. */
    method UpdateConstraintsConstant()
      requires Valid()
      modifies this`insetConstraints, this`spaceConstraints, this`sizeConstraints
      ensures Valid()
      ensures Lists() == Resolve(old(Lists()), axis, padding, spacing, |arrangedSubviews|)
    {
      ghost var insets0, spaces0, sizes0 := insetConstraints, spaceConstraints, sizeConstraints;

      for i := 0 to |insetConstraints|
        invariant |insetConstraints| == |insets0|
        invariant forall j :: 0 <= j < i ==> insetConstraints[j] == ResolveInsets(insets0, padding)[j]
        invariant forall j :: i <= j < |insetConstraints| ==> insetConstraints[j] == insets0[j]
        invariant spaceConstraints == spaces0 && sizeConstraints == sizes0
      {
        var c := insetConstraints[i];
        match c.firstAttr {
          case Top => insetConstraints := insetConstraints[i := c.(constant := padding.top)];
          case Leading => insetConstraints := insetConstraints[i := c.(constant := padding.left)];
          case Trailing => insetConstraints := insetConstraints[i := c.(constant := padding.right)];
          case Bottom => insetConstraints := insetConstraints[i := c.(constant := padding.bottom)];
        }
      }

      for i := 0 to |spaceConstraints|
        invariant |spaceConstraints| == |spaces0|
        invariant forall j :: 0 <= j < i ==> spaceConstraints[j] == spaces0[j].(constant := spacing)
        invariant forall j :: i <= j < |spaceConstraints| ==> spaceConstraints[j] == spaces0[j]
        invariant insetConstraints == ResolveInsets(insets0, padding) && sizeConstraints == sizes0
      {
        spaceConstraints := spaceConstraints[i := spaceConstraints[i].(constant := spacing)];
      }

      var count := |arrangedSubviews|;
      var totalSpacing := TotalSpacing(spacing, count);
      for i := 0 to |sizeConstraints|
        invariant |sizeConstraints| == |sizes0|
        invariant forall j :: 0 <= j < i ==>
          sizeConstraints[j] == sizes0[j].(constant := SizeConstant(sizes0[j].firstAttr, axis, padding, spacing, count))
        invariant forall j :: i <= j < |sizeConstraints| ==> sizeConstraints[j] == sizes0[j]
        invariant insetConstraints == ResolveInsets(insets0, padding)
        invariant spaceConstraints == ResolveSpaces(spaces0, spacing)
      {
        var c := sizeConstraints[i];
        if c.firstAttr == Width {
          sizeConstraints := sizeConstraints[i := c.(constant := padding.left + padding.right + (if axis == Horizontal then totalSpacing else 0.0))];
        } else {
          sizeConstraints := sizeConstraints[i := c.(constant := padding.top + padding.bottom + (if axis == Horizontal then 0.0 else totalSpacing))];
        }
      }
    }
  }

  /** The loop of buildConstraints(): one pass over the children that appends
      to the inset, spacing, center and size-cap lists, carrying the previous
      child. */
  method SynthesizeChildren(axis: Axis, align: Align, depth: nat, views: seq<View>)
    returns (insets: seq<Constraint>, spaces: seq<Constraint>, centers: seq<Constraint>, subViews: seq<Constraint>)
    ensures var s := Setup(axis, align, depth, views);
      insets == Insets(s) && spaces == Spaces(s) && centers == Centers(s) && subViews == Caps(s)
  {
    insets, spaces, centers, subViews := [], [], [], [];

    var decrease := NestDecrease * depth as real;
    var weak := BaseWeak - decrease;
    var medium := BaseMedium - decrease;
    var strong := BaseStrong - decrease;
    // The cross-axis roles and the alignment delta are computed in AppendChildInsets.
    var axialStart := if axis == Horizontal then Leading else Top;
    var axialEnd := if axis == Horizontal then Trailing else Bottom;
    var alignCenter := align == AlignCenter;

    var s := Setup(axis, align, depth, views);
    assert TiersAt(depth) == Tiers(weak, medium, strong);
    var previous: Option<nat> := None;
    var count := |views|;
    for i := 0 to count
      invariant insets == InsetsUpTo(s, i)
      invariant spaces == SpacesUpTo(s, i)
      invariant centers == CentersUpTo(s, i)
      invariant subViews == CapsUpTo(s, i)
      invariant previous == if i == 0 then None else Some(i - 1)
    {
      var v := views[i];
      insets := AppendChildInsets(s, Tiers(weak, medium, strong), insets, i);

      if previous.Some? {
        spaces := spaces + [Constraint(Child(i), axialStart, GreaterThanOrEqual, Child(previous.value), axialEnd, 0.0,
          strong + SpaceIncrease)];
      }

      if alignCenter {
        var attribute := if axis == Horizontal then CenterY else CenterX;
        centers := centers + [Constraint(Child(i), attribute, Equal, Container, attribute, 0.0, medium)];
      }

      if !IsValidIntrinsicContentSize(v.intrinsicContentSize) {
        if !v.isStackView {
          subViews := subViews + [Constraint(Child(i), Width, LessThanOrEqual, NoItem, Width, 0.0, v.hugging.horizontal)];
          subViews := subViews + [Constraint(Child(i), Height, LessThanOrEqual, NoItem, Height, 0.0, v.hugging.vertical)];
        }
      }

      assert spaces == SpacesUpTo(s, i + 1);
      assert centers == CentersUpTo(s, i + 1);
      assert subViews == CapsUpTo(s, i + 1);
      previous := Some(i);
    }
  }

  /** The inset part of one iteration of buildConstraints()' loop: the four
      cross-axis pins of child i in the order start <=, start >=, end <=,
      end >=, then its axial pins if it is the first or the last child. */
  method AppendChildInsets(s: Setup, t: Tiers, insets: seq<Constraint>, i: nat)
    returns (r: seq<Constraint>)
    requires i < |s.views|
    requires t == TiersAt(s.depth)
    ensures r == insets + ChildInsets(s, i)
  {
    var axis, align, views := s.axis, s.align, s.views;
    var nonAxialStart := if axis == Horizontal then Top else Leading;
    var nonAxialEnd := if axis == Horizontal then Bottom else Trailing;
    var axialStart := if axis == Horizontal then Leading else Top;
    var axialEnd := if axis == Horizontal then Trailing else Bottom;
    var alignEnd := align == AlignTrailing;
    var delta := if alignEnd then AlignIncrease else -AlignIncrease;
    var v := views[i];
    var nonAxialHugging := if axis == Horizontal then v.hugging.vertical else v.hugging.horizontal;
    var nonAxialCompression := if axis == Horizontal then v.compression.vertical else v.compression.horizontal;

    r := insets;
    // child.start <= / >= container.start
    r := r + [Constraint(Child(i), nonAxialStart, LessThanOrEqual, Container, nonAxialStart, 0.0,
      if nonAxialHugging < BaseWeak then t.medium else t.weak)];
    r := r + [Constraint(Child(i), nonAxialStart, GreaterThanOrEqual, Container, nonAxialStart, 0.0,
      if nonAxialCompression > BaseStrong then t.medium else t.strong)];
    // container.end <= / >= child.end
    r := r + [Constraint(Container, nonAxialEnd, LessThanOrEqual, Child(i), nonAxialEnd, 0.0,
      (if nonAxialHugging < BaseWeak then t.medium else t.weak) + delta)];
    r := r + [Constraint(Container, nonAxialEnd, GreaterThanOrEqual, Child(i), nonAxialEnd, 0.0,
      (if nonAxialHugging < BaseStrong then t.medium else t.strong) + delta)];
    ghost var pins := r;

    if i == 0 {
      r := r + [Constraint(Child(i), axialStart, Equal, Container, axialStart, 0.0, t.strong)];
    }
    ghost var first := r;
    if i == |views| - 1 {
      r := r + [Constraint(Container, axialEnd, Equal, Child(i), axialEnd, 0.0, t.strong + delta)];
    }

    assert pins == insets + (StartPins(s, i) + EndPins(s, i));
    assert first == pins + (if i == 0 then [FirstPin(s, i)] else []);
  }
}
