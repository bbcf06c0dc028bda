# UIStackLayoutView in Dafny

`UIStackLayoutView` is a UIKit container that lays out its children along one axis. It computes no frames itself. Instead it builds five lists of prioritised linear constraint records and hands them to Auto Layout:

- **inset records** pin each child to the container's edges;
- **spacing records** separate consecutive children;
- **size records** bound the container's own width and height;
- **size caps** apply to children without an intrinsic size;
- **center records** apply under center alignment.

This project models that container:

- its configuration fields (axis, alignment, spacing, padding);
- its child list and the "needs update constraints" request;
- the rebuild (`buildConstraints()`) and the constant pass (`updateConstraintsConstant()`);
- the priority table and its decay with nesting depth.

It proves what the records look like and how they relate to the inputs.

Modules:

- `Layout`: the vocabulary. It holds the constraint record (`Constraint`, with items `Container | Child(i) | NoItem`), axis, alignment, attributes, edge insets, the abstract child `View`, the `Priority` table, `TiersAt` and `NestDepth`.
- `Subviews`: `index(of:)` and first-occurrence removal on the child list.
- `Synthesis`: a pure specification of what `buildConstraints()` emits, written as prefix functions over the children, with lemmas on counts, order, priorities, references, nesting decay and alignment.
- `Constants`: a pure specification of `updateConstraintsConstant()` (`Resolve`) and of a whole rebuild (`Build`), with lemmas on idempotence and independence from old constants.
- `StackLayout`: the class `UIStackLayoutView`. Its setters carry the didSet guards. `DidAddSubview` and `WillRemoveSubview` maintain the child list. `UpdateConstraints` is the rebuild. `BuildConstraints`, with its loop in `SynthesizeChildren`, and `UpdateConstraintsConstant` are loops, each proved against the functions above.

Priorities and constants are exact `real`s. A child is a value that carries:

- an identity `id`;
- hugging and compression priorities per axis;
- its intrinsic size;
- whether it is itself a stack layout view.

Records refer to children by their index in the child list.

Behaviour of the code worth noting:

- The spacing record's relation is `>=`: the record helper's default relation (`UIStackLayoutView/UIStackLayoutView.swift:350`) applies, since the call at `:241` passes none.
- The end `>=` pin is decided by the child's cross-axis hugging priority: Medium when it is below 900, Strong otherwise (`:204`). The start `>=` pin is decided by compression resistance (`:195`).
- The alignment delta is +0.001 under trailing alignment and -0.001 otherwise, and only the end pins and the last child's axial pin carry it (`:209-210`, `:234-235`). Switching from leading to trailing therefore moves exactly those records up by 0.002; the start pins keep their tiers.
- The synthesis reads no visibility state: a hidden child gets the same records as a visible one.

## Model

| member | source | states |
|---|---|---|
| Layout.TiersAt | UIStackLayoutView/UIStackLayoutView.swift:149-170 | the tiers at any nesting depth satisfy weak < medium < strong; depth 0 gives exactly 100/500/900; every tier is at most its base; all three tiers are lowered by the same amount |
| Layout.NestDepth | UIStackLayoutView/UIStackLayoutView.swift:339-346 | the depth is the length of the leading run of stack-view ancestors: every ancestor below the depth is a stack view, and the next one (if any) is not |
| Layout.RolesPartitionEdges | UIStackLayoutView/UIStackLayoutView.swift:172-175 | for either axis, the four attribute roles are four distinct edges and cover exactly the edge attributes |
| Subviews.IndexOf | UIStackLayoutView/UIStackLayoutView.swift:120 | the result is the first index holding the view; the result is None exactly when the view is absent |
| Subviews.RemoveAbsent | UIStackLayoutView/UIStackLayoutView.swift:118-125 | removing a view that is not in the list leaves the list unchanged |
| Subviews.RemoveFirst | UIStackLayoutView/UIStackLayoutView.swift:120-122 | the list loses one entry when the view is present and none when it is absent, and keeps only entries of the original list (RemoveAbsent and RemovePresent say which entry goes) |
| Subviews.RemovePresent | UIStackLayoutView/UIStackLayoutView.swift:118-125 | removing a present view shortens the list by one; it deletes the first occurrence and keeps the rest in order |
| Subviews.AppendThenRemove | UIStackLayoutView/UIStackLayoutView.swift:108-125 | appending a new view and then removing it restores the original list |
| Layout.IsValidIntrinsicContentSize | UIStackLayoutView/UIStackLayoutView.swift:361-363 | a size is valid when neither component is negative; CapsShape states that a child gets size caps only when its size is invalid and it is not a stack view |
| Synthesis.Insets | UIStackLayoutView/UIStackLayoutView.swift:183-238 | the inset list of a rebuild; InsetsCount, InsetsOrder, CrossAxisPriorities and InsetsShaped give its length, order, priorities and shape |
| Synthesis.Spaces | UIStackLayoutView/UIStackLayoutView.swift:240-245 | the spacing list of a rebuild; SpacesShape gives every record of it |
| Synthesis.Centers | UIStackLayoutView/UIStackLayoutView.swift:247-252 | the center list of a rebuild; CentersShape gives every record of it |
| Synthesis.Caps | UIStackLayoutView/UIStackLayoutView.swift:254-264 | the size-cap list of a rebuild; CapsShape gives its length and which children it names |
| Synthesis.Sizes | UIStackLayoutView/UIStackLayoutView.swift:270-285 | exactly four container records in the order height >=, height <=, width >=, width <=; none has a second item; each >= is at the container's compression resistance for that axis and each <= at its hugging priority |
| Synthesis.InsetsCount | UIStackLayoutView/UIStackLayoutView.swift:183-238 | N children give 4N inset records, plus 2 when N > 0 |
| Synthesis.InsetsOrder | UIStackLayoutView/UIStackLayoutView.swift:192-238 | each child's records form a contiguous block in the order start <=, start >=, end <=, end >=; the first child's axial pin follows its block; the last record is the last child's axial pin, so a single child gets both pins |
| Synthesis.CrossAxisPriorities | UIStackLayoutView/UIStackLayoutView.swift:185-212 | the relation, attributes and priority of each cross-axis pin follow from the child's cross-axis hugging (H) and compression (C): <= pins are Medium when H < 100 and Weak otherwise; start >= is Medium when C > 900 and Strong otherwise; end >= is Medium when H < 900 and Strong otherwise; the end pins carry the alignment delta |
| Synthesis.SpacesShape | UIStackLayoutView/UIStackLayoutView.swift:240-245 | there are N-1 spacing records, one per consecutive pair; record j makes child j+1's axial start >= child j's axial end, at Strong + 0.002 |
| Synthesis.CentersShape | UIStackLayoutView/UIStackLayoutView.swift:247-252 | the center list has one record per child, at Medium on centerY (horizontal) or centerX (vertical), under center alignment, and is empty otherwise |
| Synthesis.CapsShape | UIStackLayoutView/UIStackLayoutView.swift:254-264 | size caps come in pairs, only for children whose intrinsic size is invalid and that are not stack views, and have no second item |
| Synthesis.EmptyContainer | UIStackLayoutView/UIStackLayoutView.swift:181-267 | with no children, the inset, spacing, center and cap lists are empty |
| Synthesis.InsetsShaped | UIStackLayoutView/UIStackLayoutView.swift:192-238 | every inset record relates a child and the container on the same edge attribute |
| Synthesis.NoStaleReferences | UIStackLayoutView/UIStackLayoutView.swift:183-267 | every record of a rebuild refers only to children currently in the list |
| Synthesis.SpacingOutranksInsets | UIStackLayoutView/UIStackLayoutView.swift:192-245 | every inset priority, with its alignment adjustment, lies strictly below the spacing priority and no lower than Weak - 0.001 |
| Synthesis.NestingDecay | UIStackLayoutView/UIStackLayoutView.swift:166-170 | at nesting depth d, every inset, spacing and center record is the depth-0 record with its priority lowered by 0.01·d; the caps are unchanged |
| Synthesis.AlignmentShift | UIStackLayoutView/UIStackLayoutView.swift:201-238 | switching leading to trailing raises exactly the container-side (end) pins by 0.002 and changes nothing else; center alignment gives the same inset list as leading |
| Constants.ResolveInsets | UIStackLayoutView/UIStackLayoutView.swift:300-314 | each inset constant becomes padding.top, .left, .right or .bottom for attribute top, leading, trailing or bottom; nothing but the constant changes |
| Constants.ResolveSpaces | UIStackLayoutView/UIStackLayoutView.swift:316 | every spacing constant becomes the spacing; nothing else changes |
| Constants.ResolveSizes | UIStackLayoutView/UIStackLayoutView.swift:318-327 | width constants become left + right, plus spacing·(N-1) on a horizontal axis with N > 1; height constants become top + bottom, plus spacing·(N-1) on a vertical axis with N > 1; nothing else changes |
| Constants.Resolve | UIStackLayoutView/UIStackLayoutView.swift:299-329 | the constant pass over the five lists changes constants only: the lists keep their lengths, every record keeps everything but its constant, and caps and centers are untouched; ResolveInsets, ResolveSpaces and ResolveSizes give the new constants |
| Constants.Build | UIStackLayoutView/UIStackLayoutView.swift:158-297 | a rebuild produces lists on which every case of the constant pass is defined |
| Constants.ResolveForgetsConstants | UIStackLayoutView/UIStackLayoutView.swift:299-329 | the constant pass changes only constants, and its result does not depend on the constants it starts from |
| Constants.ResolveOverwrites | UIStackLayoutView/UIStackLayoutView.swift:48-64 | re-resolving with a new spacing or padding equals resolving once with it, so spacing and padding changes need no rebuild; the pass is idempotent |
| Constants.ThreeChildScenario | UIStackLayoutView/UIStackLayoutView.swift:158-329 | three children laid out horizontally with spacing 8 and padding 4 give 14 insets, 2 spacings of 8, heights 8, widths 24 and no center records |
| StackLayout.UIStackLayoutView.constructor | UIStackLayoutView/UIStackLayoutView.swift:30-76 | the defaults are horizontal, leading, spacing 0, zero padding, no children, empty lists and no pending update |
| StackLayout.UIStackLayoutView.SetAxis | UIStackLayoutView/UIStackLayoutView.swift:30-37 | the axis is stored; an update is requested exactly when the axis changed; the constraint lists are untouched |
| StackLayout.UIStackLayoutView.SetAlign | UIStackLayoutView/UIStackLayoutView.swift:39-46 | the alignment is stored; an update is requested exactly when the alignment changed; the constraint lists are untouched |
| StackLayout.UIStackLayoutView.SetSpacing | UIStackLayoutView/UIStackLayoutView.swift:48-55 | an equal spacing leaves the lists as they were; a new spacing re-resolves the constants in place, with no rebuild and no update request |
| StackLayout.UIStackLayoutView.SetPadding | UIStackLayoutView/UIStackLayoutView.swift:57-64 | equal insets leave the lists as they were; new insets re-resolve the constants in place, with no rebuild and no update request |
| StackLayout.UIStackLayoutView.TopPadding | UIStackLayoutView/UIStackLayoutView.swift:385-392 | reads padding.top; SetTopPadding states that it reads back the value just set |
| StackLayout.UIStackLayoutView.LeftPadding | UIStackLayoutView/UIStackLayoutView.swift:376-383 | reads padding.left; SetLeftPadding states that it reads back the value just set |
| StackLayout.UIStackLayoutView.BottomPadding | UIStackLayoutView/UIStackLayoutView.swift:394-401 | reads padding.bottom; SetBottomPadding states that it reads back the value just set |
| StackLayout.UIStackLayoutView.RightPadding | UIStackLayoutView/UIStackLayoutView.swift:367-374 | reads padding.right; SetRightPadding states that it reads back the value just set |
| StackLayout.UIStackLayoutView.SetRightPadding | UIStackLayoutView/UIStackLayoutView.swift:367-374 | only the right edge of the padding changes, RightPadding() reads back the new value, and the constants are re-resolved when it differs |
| StackLayout.UIStackLayoutView.SetLeftPadding | UIStackLayoutView/UIStackLayoutView.swift:376-383 | only the left edge of the padding changes, LeftPadding() reads back the new value, and the constants are re-resolved when it differs |
| StackLayout.UIStackLayoutView.SetTopPadding | UIStackLayoutView/UIStackLayoutView.swift:385-392 | only the top edge of the padding changes, TopPadding() reads back the new value, and the constants are re-resolved when it differs |
| StackLayout.UIStackLayoutView.SetBottomPadding | UIStackLayoutView/UIStackLayoutView.swift:394-401 | only the bottom edge of the padding changes, BottomPadding() reads back the new value, and the constants are re-resolved when it differs |
| StackLayout.UIStackLayoutView.DidAddSubview | UIStackLayoutView/UIStackLayoutView.swift:108-116 | the child is appended at the end and an update is requested |
| StackLayout.UIStackLayoutView.WillRemoveSubview | UIStackLayoutView/UIStackLayoutView.swift:118-125 | the first occurrence of the child is removed (an absent child leaves the list as it is) and an update is requested either way |
| StackLayout.UIStackLayoutView.UpdateConstraints | UIStackLayoutView/UIStackLayoutView.swift:127-143 | all five lists are replaced by a fresh rebuild with resolved constants, and the pending request is consumed |
| StackLayout.UIStackLayoutView.BuildConstraints | UIStackLayoutView/UIStackLayoutView.swift:158-297 | the five fields become exactly the lists the synthesis specification gives for the current configuration and children |
| StackLayout.UIStackLayoutView.UpdateConstraintsConstant | UIStackLayoutView/UIStackLayoutView.swift:299-329 | the inset, spacing and size lists are rewritten in place to their resolved form; the other lists are untouched |
| StackLayout.SynthesizeChildren | UIStackLayoutView/UIStackLayoutView.swift:181-267 | the loop over the children appends exactly the specified inset, spacing, center and cap records, in order |
| StackLayout.AppendChildInsets | UIStackLayoutView/UIStackLayoutView.swift:192-238 | one iteration appends the child's four cross-axis pins and, for the first and last child, its axial pins |

## Left out

- Interface Builder integration is not modelled. The prototyping-constraint lookup and filtering, `awakeFromNib` and the `addConstraint` override (`UIStackLayoutView/UIStackLayoutView.swift:79-104`) depend on runtime class lookup. The `TARGET_INTERFACE_BUILDER` branch of the update request (`:332-336`, `setNeedsLayout`) is a compile-time switch for Interface Builder rendering; the model follows the application branch, `setNeedsUpdateConstraints()`.
- The Auto Layout engine is not modelled. `removeConstraints`, `addConstraints`, `super.updateConstraints` and solving are left out; `UpdateConstraints` only replaces the five lists.
- The constraint records are values, not shared objects. The source's records are references also held by the layout engine, so the in-place constant rewrite is visible to it. The model has no such aliasing.
- UIKit clears the "needs update constraints" flag when it calls `updateConstraints()`. The model clears it in `UpdateConstraints`. `setNeedsUpdateConstraints()` is modelled as setting that flag.
- The synthesis loop iterates `subviews` (in z-order), and the constant pass counts them. The model has one child list, so it assumes `subviews` equals `arrangedSubviews`. That holds when every subview is added with `addSubview` (appended at the end) and the subview order never changes. Insertion at an index or below a sibling, `bringSubview(toFront:)`, `sendSubview(toBack:)` and `exchangeSubview` break it, and the model does not capture them.
- DidAddSubview: does not model setting the child's `translatesAutoresizingMaskIntoConstraints` to false (`UIStackLayoutView/UIStackLayoutView.swift:110-112`), because the child's autoresizing state is not part of the model.
- Records name children by their index in the child list at rebuild time; the source's records point at the view objects. Between `WillRemoveSubview` and the next `UpdateConstraints`, a stored record's `Child(i)` can therefore name a different child, or no child at all. The model does not capture which object a stored record refers to after the list changes.
- The rebuild's inputs from outside the container are fixed in the model. A child's hugging and compression priorities, its intrinsic size and whether it is a stack view are stored as a `View` value when `DidAddSubview` runs. The container's own hugging and compression priorities and its ancestor flags (from which the nesting depth is computed) are set by the constructor. No method changes any of them afterwards. The source reads all of them again on every `buildConstraints()` (`UIStackLayoutView/UIStackLayoutView.swift:185-188`, `:254`, `:256`, `:278-280`, and `nestDepth()` at `:339-346`). So the model cannot express changes made between rebuilds: a child whose intrinsic size becomes valid (which changes its caps), a changed priority, or the container moving under another stack view (which changes the decay).
- `Float` and `CGFloat` rounding is not modelled: priorities and constants are exact reals.
- The multiplier is always 1, so it is not a field. The unused `priority` parameter of the record helper is not modelled.
- `updateConstraintsConstant()` has `assert(false)` default branches. In the model they become the precondition `Valid()` (every inset record is on an edge attribute, every size record on a dimension); every rebuild establishes it.
- The demo view controller is not part of this model: it is a UIKit caller only.
- Visibility: the source reads no hidden state, so the model has none.
