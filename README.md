# LCInterlocking in Dafny

A Dafny model of the computational core of LCInterlocking, the FreeCAD
workbench that turns a 3D assembly of flat panels into laser-cut parts that
interlock. The model covers:

- **Tab and slot joints** (`lasercut/join.py`): slot positions along a face,
  the kerf- and tolerance-corrected tab, hole and screw-way boxes, the
  continuous joint's segments, and the loops that hand each slot's tab to the
  first other panel it meets. It also covers each panel's `MaterialElement`,
  whose `toAdd` and `toRemove` lists are fused onto and cut out of its shape.
- **Cross-lap joints** (`lasercut/crosspart.py`): the table that classifies
  how two overlapping panels meet, the notch and dog-bone dimensions, the
  node dispatch, and the loop over pairs that gives each panel of a pair one
  notch.
- **Living hinges** (`lasercut/makehinges.py`, `lasercut/hingesproperties.py`):
  the slit columns and rows, slit shape and width, the choice of the shared
  edge, the line intersection and its guards, the minimum link count, and the
  bookkeeping of a chain of hinged faces.
- **Helpers and materials** (`lasercut/helper.py`, `lasercut/material.py`):
  the screw/nut table, epsilon comparisons, vertex ordering, local axes,
  grouping faces by normal, and the thickness estimate (minimum distances,
  then the mode).
- **Box generators** (`lasercut/makebox.py`, `lasercut/makeroundedbox.py` and
  their property classes): panels as axis-aligned boxes, the rounded box's
  chunking of faces into cuts and its part names, and every validation error.
- **Parameter lists with links** (`panel/tab.py`, `panel/partmat.py`,
  `panel/propertieslist.py`): named lists with duplicate checks, link checks
  and the pass that resolves each link into a copy of its source.
- **Export layout** (`ExportPanel.py`,
  `LasercutterTechdrawExport/LasercutterTechdrawExport.py`): the grid and
  strip placement of parts from their bounding-box sizes, the biggest-face
  search and the angle search.

Each module models one source file. The modules are named after the file
they model, and `join.py` is split into `JoinSlots`, `JoinShapes`, `Plans`,
`JoinPlans`, `Elements` and `Join`.

Solids are terms (`Solids.Solid`) that record how they were built. Kernel
probes (`check_intersect`, `is_inside`, `check_limit_z`) and kernel queries
(edge lengths, normals, `acos`, `sqrt`, `sin`/`cos`) are function parameters.
Python exceptions are `Result` values whose `Error` keeps the exception kind
and its message, because `material.py` catches only `ValueError`. Objects
that the source updates in place are classes: `MaterialElement`,
`PropertiesList`, `TabsList`, `PartsList`, `HingesProperties`,
`RoundedBoxProperties` and the Techdraw `Template`. A loop that builds a list
or updates variables is a method proved against a function. The properties
the source promises are lemmas about that function.

## Model

| member | source | states |
|---|---|---|
| `Solids.MakeBox` | lasercut/join.py:190-191 | `Part.makeBox(l, w, h, origin)`: a box with exactly those side lengths whose minimum corner is the origin |
| `Solids.FuseAllRoundTrip` | lasercut/join.py:32-40 | the left fold of fuses keeps every piece, in order: reading its spine back gives the list |
| `Solids.CutAllRoundTrip` | lasercut/join.py:59-67 | cutting a list of solids leaves the shape unchanged exactly when the list is empty |
| `Solids.CutAllDepth` | lasercut/join.py:63-65 | cutting a list of solids applies exactly one cut per element |
| `Helper.ObjectProperties.constructor` | lasercut/helper.py:33-36 | one attribute per keyword argument, holding the value passed, and no other attribute |
| `Helper.GetScrewNutSpec` | lasercut/helper.py:40-68 | the table's nut width across flats and height for M1.6, 2, 2.5, 3, 4, 5, 6, 8 and 10; diameter and length passed through; ValueError "Unknown screw diameter" for any other diameter; the nut is always wider than the screw |
| `Helper.CompareVectorSymmetric` | lasercut/helper.py:147-151 | the epsilon vector comparison is symmetric |
| `Helper.CompareVectorTriangle` | lasercut/helper.py:147-151 | closeness chains: within e1 and within e2 give within e1 + e2 |
| `Helper.SortQuadVertex` | lasercut/helper.py:158-175 | the result is the chain of the first edge's endpoints followed by the far endpoint of each middle edge, None at the first middle edge that shares no endpoint; the last edge is not looked at |
| `Helper.ChainShape` | lasercut/helper.py:158-175 | a chained result has one point more than the edges processed, starts with the first edge's endpoints (swapped when reversed) and walks each middle edge from one end to the other |
| `Helper.ChainStaysNone` | lasercut/helper.py:172-173 | once the chain has failed it stays failed (the loop returns None) |
| `Helper.ChainFailsAtDisconnectedEdge` | lasercut/helper.py:164-173 | a failed chain has a middle edge sharing no endpoint with the point chained just before it |
| `Helper.SortedPoints` | lasercut/helper.py:104-109 | forward then reversed chaining: IndexError exactly for no edge, else "Error sorting vertex" when neither orientation chains, else at least two points |
| `Helper.AxesAt` | lasercut/helper.py:118-132 | at a vertex, the two adjacent edges, the longer (or equal, the next one) taken as y |
| `Helper.LocalAxisOfPoints` | lasercut/helper.py:111-144 | x is the reversed normal and (y, z) the unnormalised edges at the first vertex whose normalised cross product matches x within 1e-5; no matching vertex gives (None, None, None); fewer than 4 points is an IndexError |
| `Helper.GetLocalAxis` | lasercut/helper.py:103-144 | "Error sorting vertex" when neither orientation chains; otherwise the frame of the first matching vertex of the chained points, or none |
| `Helper.GetMatrixTransform` | lasercut/helper.py:83-100 | the matrix maps the unit x, y, z vectors to x, normalised y and normalised z: they are its columns 1, 2, 3; a failed axis search propagates (AttributeError when no vertex matched) |
| `Helper.FirstParallel` | lasercut/helper.py:191-197 | the first group whose normal is parallel to the face's, or none |
| `Helper.InsertKeepsAreas` | lasercut/helper.py:191-199 | adding a face to its group keeps every group's area the sum of its faces' areas |
| `Helper.InsertCountsOnce` | lasercut/helper.py:191-199 | adding a face places it in exactly one group |
| `Helper.CountUpdate` | lasercut/helper.py:195-196 | replacing one group changes the face count by that group's difference |
| `Helper.GroupsPartitionFaces` | lasercut/helper.py:184-199 | every face lands in exactly one group, and each group's area is the sum of its faces' areas |
| `Helper.GroupsNotParallel` | lasercut/helper.py:191-199 | no two groups have parallel normals |
| `Helper.InsertKeepsNormals` | lasercut/helper.py:191-199 | adding a face never makes two groups parallel |
| `Helper.LastMax` | lasercut/helper.py:201-203 | the group the ascending stable sort puts last: of maximal area, and strictly larger than every later group |
| `Helper.InsertFace` | lasercut/helper.py:186-199 | one pass of the face loop equals the insertion function |
| `Helper.LastMaxIndex` | lasercut/helper.py:201-203 | the loop finds the last group of maximal area |
| `Helper.BiggestAreaFaces` | lasercut/helper.py:184-205 | the group of maximal total area among the normal groups of all faces; IndexError exactly when there is no face |
| `Material.NewMaterialProperties` | lasercut/material.py:37-55 | ValueError "Must defined freecad object" without an object; defaults type 1, thickness estimated (5.0 when the estimate raises ValueError, other errors propagate), tolerance 0.1 x thickness, beam thickness / 15, new name label + "_tab"; supplied values kept |
| `Material.MinOf` | lasercut/material.py:90 | Python's `min`: an element of the list no larger than any other |
| `Material.MostCommon` | lasercut/material.py:92-95 | an element whose multiplicity is at least every other element's |
| `Material.MostCommonFrom` | lasercut/material.py:92-95 | an element of the suffix whose multiplicity is maximal among the suffix's elements |
| `Material.MinDistances` | lasercut/material.py:85-90 | one entry per point of face 1: a distance to some point of face 2 that no other distance to face 2 undercuts |
| `Material.RetrieveThicknessFromBiggestFace` | lasercut/material.py:68-95 | IndexError for no face; the chaining error of either face; otherwise a mode of the nearest-point distances of the largest group's first two faces |
| `Material.MostCommonIsMode` | lasercut/material.py:92-95 | the chosen value is a mode of the list |
| `Material.NearestDistances` | lasercut/material.py:69-90 | IndexError when the group has fewer than two faces; the chaining errors otherwise; one distance per chained point of face 1 |
| `Material.MinArraySpec` | lasercut/material.py:85-90 | the minimum-distance array has one entry per point of face 1 |
| `Material.MinDistancesAreSpec` | lasercut/material.py:85-90 | attained lower bounds are exactly the minima |
| `Material.SortFacePoints` | lasercut/material.py:73-83 | the two orientations of `sort_quad_vertex` tried in turn give the sorted points or the error |
| `Elements.AssembleListElement` | lasercut/join.py:32-40 | None exactly for an empty list; otherwise the left fold of fuses, from which the list can be read back |
| `Elements.ShapeOfParts` | lasercut/join.py:59-67 | the panel's shape is its base exactly when both lists are empty; with both non-empty it is the base fused with the fold of the additions, then cut by the fold of the removals |
| `Elements.MaterialElement.constructor` | lasercut/join.py:44-47 | a new element keeps its properties and starts with empty `toAdd` and `toRemove` |
| `Elements.MaterialElement.ResetAddRemove` | lasercut/join.py:49-51 | both lists are emptied; the properties are a constant and cannot change |
| `Elements.MaterialElement.GetShape` | lasercut/join.py:59-67 | the shape is base, fused with the fold of `toAdd`, cut by the fold of `toRemove` (each step skipped for an empty list); the element is not changed |
| `Elements.SpreadIndex` | lasercut/join.py:251-264 | row after row, the j-th other panel receives exactly the removals of the rows whose first hit is j |
| `Elements.ApplyRow` | lasercut/join.py:252-264 | the inner loop: only the first interacting panel gets its cut and the tab panel its tab; no other panel's lists change and no panel's additions |
| `Elements.ApplyRowAt` | lasercut/join.py:251-264 | one slot of the outer loop extends the hand-outs of the slots before it |
| `Elements.ApplyRows` | lasercut/join.py:251-265 | the slot loop: the tab panel and each other panel end with exactly what the rows' first hits hand them, and the other panels' additions are untouched |
| `Plans.FirstHit` | lasercut/join.py:252-264 | the position of the first interacting panel, or the row's length when none interacts |
| `Plans.FirstHitAt` | lasercut/join.py:258-264 | the first hit is the interacting panel after panels that do not interact (first match wins) |
| `Plans.TabAddsCount` | lasercut/join.py:258-259 | with a fixed number of tab solids per plan, the tab panel gains that number per slot that met a panel |
| `Plans.TabRemovesCount` | lasercut/join.py:331-332 | with a fixed number of tab-side cuts per plan, the tab panel loses that number per slot that met a panel |
| `Plans.TotalAdd` | lasercut/join.py:251-264 | sums of removals split panel by panel |
| `Plans.SumHitOtherRemovesIsFirstHit` | lasercut/join.py:263-264 | a row hands its cuts to one panel only: the first hit |
| `Plans.SumOtherRemovesSplit` | lasercut/join.py:251-264 | the removals of all slots are those of the earlier slots plus the last slot's |
| `Plans.OtherRemovesCount` | lasercut/join.py:251-264 | each slot that meets a panel hands its cuts to exactly one other panel: the others receive c solids per hit in all |
| `JoinSlots.GetSlotPositions` | lasercut/join.py:70-100 | AttributeError for a tab whose `y_length` was never set, ZeroDivisionError for zero tabs, otherwise the slot list of the specification function (odd: the shift then symmetric pairs at whole intervals, the ratio applied twice when not 1; even: pairs at half intervals), negated under `y_invert` |
| `JoinSlots.SlotStep` | lasercut/join.py:76-92 | one turn of the loop computes the i-th pair's + and - offsets |
| `JoinSlots.NegateAll` | lasercut/join.py:94-98 | the inversion loop negates every entry, in order |
| `JoinSlots.SlotPairsShape` | lasercut/join.py:76-92 | m pairs give 2m entries: shift plus the k-th offset, then shift minus it |
| `JoinSlots.SlotCount` | lasercut/join.py:72-92 | exactly `tabs_number` positions for every positive count, odd or even |
| `JoinSlots.SlotSymmetry` | lasercut/join.py:74-92 | an odd count puts `tabs_shift` first; the other positions come in pairs symmetric about `tabs_shift` |
| `JoinSlots.SlotInvert` | lasercut/join.py:94-98 | `y_invert` negates every entry |
| `JoinSlots.SlotOffsetsIncrease` | lasercut/join.py:76-92 | for positive length and ratio, the pair offsets are positive and grow strictly |
| `JoinSlots.SlotPairsBounded` | lasercut/join.py:76-92 | no pair position is at `tabs_shift`, and none is further from it than the last offset |
| `JoinSlots.SlotPairsDistinct` | lasercut/join.py:76-92 | no two pair positions coincide |
| `JoinSlots.BaseSlotsDistinct` | lasercut/join.py:72-92 | no two slots coincide before inversion |
| `JoinSlots.SlotsDistinct` | lasercut/join.py:70-100 | no two slots of a tab coincide when length, count and ratio are positive |
| `JoinSlots.NegatedDistinct` | lasercut/join.py:94-98 | negation keeps the slots distinct |
| `TabProperty.FaceGeometry` | lasercut/tabproperties.py:46-54 | when any of y_length, thickness or matrix is missing, all three come from the face frame (y length, z length, matrix); a ValueError of the frame search is only reported and leaves them as passed; no frame at all fails on `None.Length` |
| `TabProperty.NewTabProperties` | lasercut/tabproperties.py:40-72 | "Must defined freecad face/object" and "no type of tab defined" errors; face geometry as above; defaults tabs_number 1, width 10, shift 0, interval ratio 1, half-tab ratio 1, screw 3 x 15, dog bone on, no inversion; supplied values kept |
| `JoinShapes.TabOnFace` | lasercut/join.py:178-203 | the tab box spans x over the other panel's thickness and z over the tab panel's thickness, both centred; y over [pos - w/2 - (left ? k/2 : 0), pos + w/2 + (right ? k/2 : 0)] with the tab panel's kerf k |
| `JoinShapes.HoleBox` | lasercut/join.py:463-496 | the hole spans x over the other panel's thickness; y shrinks by half the other panel's kerf on each kerfed side; z spans [-H/2 + (z_plus ? k/2 : 0), H/2 - (z_minus ? k/2 : 0)] with H = thickness + thickness tolerance |
| `JoinShapes.LimitZMinusBox` | lasercut/join.py:375-381 | the upper probe of `check_limit_z`: 0.1 thick, just above the tab panel, a quarter-width either side of the slot |
| `JoinShapes.LimitZPlusBox` | lasercut/join.py:383-384 | the lower probe: 0.1 thick, just below the tab panel, a quarter-width either side of the slot |
| `JoinShapes.FuseOnto` | lasercut/join.py:116-127 | the dog bones are fused onto the shape one after the other: reading the result's fuse spine back gives the shape followed by the bones, in order |
| `JoinShapes.YZBones` | lasercut/join.py:109-127 | one cylinder of radius 0.2 along x per flag that is set, each centred 0.1 inside a corner of the hole |
| `JoinShapes.XYBones` | lasercut/join.py:103-106 | four cylinders of radius 0.2 along z, one 0.1 inside each corner of the nut pocket |
| `JoinShapes.ScrewBox` | lasercut/join.py:148-156 | the shaft channel starts at the other panel's mid-plane, is screw length - plane thickness + tolerance long, 1.2 diameters less a kerf wide, centred on the slot, as thick as the tab panel |
| `JoinShapes.NutBox` | lasercut/join.py:157-163 | the nut pocket is nut height - kerf + 0.1 long, nut width - kerf + 0.1 wide, centred on the slot, and ends one nut height short of the channel's end |
| `JoinShapes.ScrewWayOnFace` | lasercut/join.py:148-167 | the shaft channel fused with the nut pocket (with its dog bones when asked) |
| `JoinShapes.ScrewWayOnPlane` | lasercut/join.py:139-145 | a cylinder along x through the other panel at the slot, of diameter 1.2 x screw diameter less the kerf |
| `JoinPlans.TabRow` | lasercut/join.py:252-256 | one plan per other panel, in order |
| `JoinPlans.TSlotRow` | lasercut/join.py:300-309 | one plan per other panel, in order |
| `JoinPlans.ContinuousRow` | lasercut/join.py:271-290 | even segments plan a tab for every other panel; odd segments plan nothing |
| `JoinPlans.TabRows` | lasercut/join.py:250-252 | one row per slot position, in order |
| `JoinPlans.TSlotRows` | lasercut/join.py:298-300 | one row per slot position, in order |
| `JoinPlans.ContinuousRows` | lasercut/join.py:269-271 | `tabs_number + 1` segments (none when that is negative) |
| `JoinPlans.NeedsTabPartIff` | lasercut/join.py:346-359 | a joint touches its tab panel exactly when some row has a plan |
| `JoinPlans.ContinuousTiling` | lasercut/join.py:268-291 | the `tabs_number + 1` equal segments tile [-y/2, y/2] in order |
| `JoinPlans.TabJoinCounts` | lasercut/join.py:249-265 | a tab joint gives the tab panel one tab per slot that met a panel, and the other panels one hole in all per such slot |
| `JoinPlans.TSlotJoinCounts` | lasercut/join.py:295-337 | a T-slot joint gives the tab panel two tabs and one screw way per slot that met a panel, and the other panels three cuts in all per such slot |
| `Join.MakeTabJoin` | lasercut/join.py:249-265 | the slot-position errors; without a tab panel, or with a tab whose `transform_matrix` was never set, AttributeError as soon as a plan would be tried; otherwise the tab panel and the other panels receive exactly the first-hit hand-outs of the rows, and nothing else changes |
| `Join.MakeTSlotTabJoin` | lasercut/join.py:295-337 | the nut lookup error, then the slot-position errors; otherwise as above with the T-slot plans |
| `Join.SegmentCenters` | lasercut/join.py:269-274 | the running `y_pos` loop gives the centre of each of the `tabs_number + 1` segments, mirrored under `y_invert` |
| `Join.MakeContinuousTabJoins` | lasercut/join.py:268-292 | AttributeError for a tab whose `y_length` was never set, ZeroDivisionError for `tabs_number = -1`, AttributeError at the first plan without a tab panel or `transform_matrix`; otherwise the continuous rows are applied (first and last segment unkerfed on the outside) |
| `Join.JoinTab` | lasercut/join.py:354-361 | dispatch on the tab type; an unknown type raises ValueError "Unknown tab type"; each joint's errors, AttributeError included, are passed on |
| `Join.LastMatch` | lasercut/join.py:349-351 | the tab panel is the last part whose object has the tab's name |
| `Join.OthersElementsProps` | lasercut/join.py:349-353 | the other elements carry the other parts' properties |
| `Join.OthersMembers` | lasercut/join.py:349-353 | the other panels are parts without the tab's name |
| `Join.OthersDistinct` | lasercut/join.py:349-353 | the other panels are distinct |
| `Join.OthersPrefix` | lasercut/join.py:349-353 | the other panels of a prefix are a prefix of the other panels |
| `Join.OthersIndex` | lasercut/join.py:349-353 | a part without the tab's name sits at its position among the other panels |
| `Join.FirstErrorPrefix` | lasercut/join.py:346-361 | once a joint has raised, later tabs do not change the outcome |
| `Join.SplitParts` | lasercut/join.py:347-353 | the tab panel is the last part with the tab's name (none if no part has it); the other panels are the rest, in order |
| `Join.MakeTabsJoins` | lasercut/join.py:340-362 | the first joint error is raised (an unset `y_length` or `transform_matrix`, or a missing tab panel, as AttributeError); otherwise one fresh element per part, in order, whose lists are exactly what the joints hand it, tab by tab |
| `Join.ApplyTab` | lasercut/join.py:346-361 | one tab of the loop: its error, or each part gains exactly what that joint hands it |
| `Join.JoinStep` | lasercut/join.py:346-361 | one more tab extends the errors and the hand-outs of the tabs before it |
| `CrossPart.CrossBox` | lasercut/crosspart.py:50-66 | the notch block is `length` along x and `width` along y, both centred, and hangs `height` down from z = 0 |
| `CrossPart.DogBoneRadius` | lasercut/crosspart.py:276 | the radius is `min(width, height) * 2 / 30`: at most a fifteenth of each, equal to one of them |
| `CrossPart.Nodes` | lasercut/crosspart.py:136-172 | an unknown node type raises ValueError "Not implemented"; otherwise 0, 2 or 4 nodes (none, single, dual short), each on one of the two walls and bulging inward, a quarter of the depth high (half for single long), placed symmetrically about mid-depth |
| `CrossPart.MakeNodes` | lasercut/crosspart.py:136-221 | the shape is unchanged for NODE_NO and raises "Not implemented" for an unknown type; otherwise it is cut by each node in turn |
| `CrossPart.DogBones` | lasercut/crosspart.py:40-94 | two cylinders of the given radius run through the notch, one at each wall a half-radius in, both at the top corners when `up` and both at the bottom corners otherwise |
| `CrossPart.FirstNotch` | lasercut/crosspart.py:271-286 | the first panel's notch is the second panel's slot width along x and the first panel's thickness along y, `height` deep, lowered when `invert_y`, and boned exactly when the first panel asks for dog bones |
| `CrossPart.SecondNotch` | lasercut/crosspart.py:288-302 | the second panel's notch is its own thickness along x and the first panel's slot width along y, `height` deep, lowered unless `invert_y`, and boned exactly when the second panel asks for dog bones |
| `CrossPart.NotchesStack` | lasercut/crosspart.py:278-301 | exactly one of the two notches is lowered; the upper spans [-h, 0] and the lower [-2h, -h], so together they fill the crossing |
| `CrossPart.CrossCuts` | lasercut/crosspart.py:269-307 | `remove_intersections` fails exactly when one panel's node type is unknown |
| `CrossPart.BuildNotch` | lasercut/crosspart.py:272-302 | building one block step by step gives the notch of `NotchOf` carried onto the reference face, or its error |
| `CrossPart.RemoveIntersections` | lasercut/crosspart.py:269-307 | each panel gets exactly its notch appended to `toRemove`, and nothing on error; additions are untouched |
| `CrossPart.Classify` | lasercut/crosspart.py:337-383 | a configuration is accepted exactly when no face lies in both shapes and no shape holds both faces, with `invert_y` = face 1 inside shape 1 or face 2 inside shape 2; "a part is included in the other" exactly when one shape holds both faces and the other none; otherwise "Not managed" |
| `CrossPart.RetrieveFaceAxis` | lasercut/crosspart.py:251-266 | z is the smallest group's first normal; the medium group's first face gives x when inside the first shape, y otherwise, and the third axis is at right angles to both |
| `CrossPart.CrossOrthogonal` | lasercut/crosspart.py:259-263 | a cross product is at right angles to both of its factors |
| `CrossPart.CrossPair` | lasercut/crosspart.py:323-331 | a pair is skipped exactly when the common volume is at most 0.001; an overlap whose faces do not fall in three groups raises "… : intersection is not rectangular box" |
| `CrossPart.CrossStep` | lasercut/crosspart.py:322-383 | one pass of the loop body appends exactly the pair's two notches to the two panels, or raises its error |
| `CrossPart.CombinationsVisitEachPairOnce` | lasercut/crosspart.py:322 | `itertools.combinations` visits every pair a < b < n exactly once, in lexicographic order |
| `CrossPart.CrossFold` | lasercut/crosspart.py:322-383 | the fold over the pairs keeps one removal list per panel |
| `CrossPart.CrossPairAt` | lasercut/crosspart.py:322-383 | one pass of the pair loop advances the fold by one pair, or stops with the fold's error; no additions change |
| `CrossPart.NewElements` | lasercut/crosspart.py:320 | one fresh element per part, in order, with empty lists |
| `CrossPart.MakeCrossParts` | lasercut/crosspart.py:319-385 | the result is one distinct element per part, without additions, whose removal lists are the fold over all pairs; it fails exactly when the fold does, with the same error |
| `CrossPart.CrossFoldPerPanel` | lasercut/crosspart.py:306-307 | each panel ends with its share of the cuts, in pair order: the first notch of each cut pair it opens and the second of each it closes |
| `CrossPart.FirstFailure` | lasercut/crosspart.py:322-383 | the position of the first pair that fails, no further than the end |
| `CrossPart.FirstFailureIs` | lasercut/crosspart.py:322-383 | that pair fails and every earlier pair succeeds |
| `CrossPart.CrossFoldFails` | lasercut/crosspart.py:322-383 | the loop fails exactly when some pair fails, and raises the first failing pair's error |
| `CrossPart.UntouchedPanel` | lasercut/crosspart.py:322-385 | a panel that no overlapping pair involves gets no cut |
| `Hinges.GetHingesXPositions` | lasercut/makehinges.py:273-280 | a single link divides by zero; otherwise the list holds `i * x_length / (nb - 1)` for each i in `range(nb)` |
| `Hinges.XPositionsSpan` | lasercut/makehinges.py:273-280 | for two links or more the positions run evenly from 0 to `x_length`, `x_length / (nb - 1)` apart |
| `Hinges.YPairs` | lasercut/makehinges.py:290-296 | the loop appends two values per iteration |
| `Hinges.GetHingesYPositions` | lasercut/makehinges.py:283-298 | the loop builds the column's position list: 0 first for an odd count, then pairs ±(i + 1)d, or ±(i + ½)d for an even count |
| `Hinges.PairAppended` | lasercut/makehinges.py:291-296 | appending one iteration's two values appends its pair |
| `Hinges.YPairsAt` | lasercut/makehinges.py:290-296 | values 2j and 2j + 1 of the list come from iteration j |
| `Hinges.GridCoefficient` | lasercut/makehinges.py:283-298 | a grid point is its offset from the centre times the spacing |
| `Hinges.GridAtOdd` | lasercut/makehinges.py:288-292 | every value of an odd column is a point of the centred grid |
| `Hinges.HalfStep` | lasercut/makehinges.py:295-296 | the even column's values are the half-step grid points |
| `Hinges.EvenColumn` | lasercut/makehinges.py:293-296 | an even column is its pairs alone |
| `Hinges.EvenIndex` | lasercut/makehinges.py:293-296 | where the values of iteration j sit on the grid of an even column |
| `Hinges.GridAtEvenRight` | lasercut/makehinges.py:295 | the first value of iteration j is grid point h + j |
| `Hinges.GridAtEvenLeft` | lasercut/makehinges.py:296 | the second value of iteration j is grid point h - 1 - j |
| `Hinges.GridAtEven` | lasercut/makehinges.py:293-296 | every value of an even column is a point of the centred grid |
| `Hinges.GridAt` | lasercut/makehinges.py:283-298 | a column of n values maps each value to a point of the n-point grid |
| `Hinges.ListAt` | lasercut/makehinges.py:283-298 | every grid point is some value of the column |
| `Hinges.YPositionsGrid` | lasercut/makehinges.py:283-298 | a column holds exactly the n points spaced `hole_length + hole_space` apart and centred on 0, each once |
| `Hinges.GridMirror` | lasercut/makehinges.py:283-298 | the grid is symmetric about 0 |
| `Hinges.SymmetricAt` | lasercut/makehinges.py:283-298 | the mirror image of each value is also in the column |
| `Hinges.YPositionsSymmetric` | lasercut/makehinges.py:283-298 | a column is symmetric about 0 |
| `Hinges.YPositionsZero` | lasercut/makehinges.py:288-296 | with a non-zero spacing, a column contains 0 exactly when its count is odd |
| `Hinges.CreateHoleHinge` | lasercut/makehinges.py:301-313 | raises "Hinge clearance is less than kerf diameter" exactly when clearance < kerf; otherwise the slit is `max(10e-3, clearance - kerf)` wide, `hinge_length - kerf` long in all and twice the thickness high, centred, and a plain box exactly when clearance < 2 kerf |
| `Hinges.HoleBudget` | lasercut/makehinges.py:345-346 | n slits and n + 1 gaps fill the strip's width exactly |
| `Hinges.Column` | lasercut/makehinges.py:359-363 | one slit per position of the column |
| `Hinges.SlitCountStep` | lasercut/makehinges.py:352-364 | one more column adds n slits when even and n + 1 when odd |
| `Hinges.SlitsStep` | lasercut/makehinges.py:352-364 | one more column appends its slits |
| `Hinges.SlitsCount` | lasercut/makehinges.py:352-364 | the slit list has as many slits as the alternating columns hold |
| `Hinges.SlitCountMono` | lasercut/makehinges.py:352-364 | more columns never hold fewer slits |
| `Hinges.SlitAt` | lasercut/makehinges.py:352-364 | slit j of column c is placed at that column's x and at position j of its list (n positions for even c, n + 1 for odd), after the slits of the earlier columns |
| `Hinges.LayoutCounts` | lasercut/makehinges.py:338-349 | a layout has `nb_link` columns and n and n + 1 slit positions, with the hole length `y_length * ratio / n` |
| `Hinges.CutOfLayoutShape` | lasercut/makehinges.py:351-368 | a successful cut fuses all the slits (at least one), each of the size `create_hole_hinge` promises, carried onto the face's frame with no shift along its normal (see "## Left out") |
| `Hinges.AddColumn` | lasercut/makehinges.py:359-363 | the inner loop appends the slits of one column, or stops at the slit's error |
| `Hinges.LayColumns` | lasercut/makehinges.py:351-364 | the column loop gives the whole slit list, or the slit's error when there is a slit to make |
| `Hinges.GetLayout` | lasercut/makehinges.py:338-349 | the first half of `make_hinges`, with its error cases (no arc length, one link, no extrusion vector, a zero count) |
| `Hinges.CutLayout` | lasercut/makehinges.py:351-368 | the second half: the fused slits carried onto the face's frame with no shift along its normal (see "## Left out"), AttributeError when there are none |
| `Hinges.MakeHinges` | lasercut/makehinges.py:337-368 | `make_hinges` is the layout followed by the cut |
| `Hinges.ExtremeBound` | lasercut/makehinges.py:159-182 | the extreme length bounds every edge and is attained |
| `Hinges.WithLengthMembers` | lasercut/makehinges.py:159-182 | the edges kept are exactly those of the given length |
| `Hinges.WithLengthNone` | lasercut/makehinges.py:166-167 | no edge of that length leaves an empty list |
| `Hinges.ExtremeEdgesAre` | lasercut/makehinges.py:159-182 | the list returned is not empty and holds exactly the edges of minimum (maximum) length, in input order |
| `Hinges.ExtremeStep` | lasercut/makehinges.py:163-167 | one loop step: an equal edge is appended, a shorter (longer) one restarts the list |
| `Hinges.ExtremeEdges` | lasercut/makehinges.py:159-182 | the loops of `get_thickness_edge` and `get_width_edge` compute the extreme-length edges; an edgeless face raises IndexError |
| `Hinges.CoplanarEdges` | lasercut/makehinges.py:107-120 | the two edges returned are thickness edges of the two faces; too few thickness edges raise IndexError |
| `Hinges.GetCoplanarEdge` | lasercut/makehinges.py:107-120 | the steps of `get_coplanar_edge` compute `CoplanarEdges` |
| `Hinges.ClosestCase` | lasercut/makehinges.py:124-140 | the first of the four endpoint pairs at the smallest distance |
| `Hinges.SegmentsOf` | lasercut/makehinges.py:142-156 | each segment keeps its edge's two endpoints, and the two B ends are the closest endpoint pair |
| `Hinges.GetSegmentFromEdge` | lasercut/makehinges.py:123-156 | the case analysis of `get_segment_from_edge` computes `SegmentsOf` |
| `Hinges.DoIntersection` | lasercut/makehinges.py:186-202 | "Not coplanar" exactly when the triple product is not ≈ 0; division by zero for parallel segments; "Wrong scale" when s < 10e-6; otherwise A + s·(B − A) |
| `Hinges.Ceil` | lasercut/makehinges.py:209 | `math.ceil`: the least integer at least x |
| `Hinges.EstimateMinLink` | lasercut/makehinges.py:206-209 | the least whole number of links at least `rad_angle / (pi/4 - acos(tmp))`; a missing thickness is a TypeError; a cosine outside [-1, 1] raises "math domain error" |
| `Hinges.CompleteHinges` | lasercut/makehinges.py:32-79 | the computation of `complete_hinges_properties`: coplanar edges, segments, intersection, the arc test, then the bend's geometry |
| `Hinges.ArcReversed` | lasercut/makehinges.py:57-75 | `reversed_angle` fails exactly when the forward bend fails; it replaces the angle by 2π minus it, flips the rotation vector and mirrors the middle segment through the intersection, and keeps segments, radii and thickness |
| `Hinges.FirstSameNormal` | lasercut/makehinges.py:381-386 | the first face with the reference normal and area |
| `Hinges.FindSameNormalFace` | lasercut/makehinges.py:378-390 | the loop finds that face, or raises "Unable to find face with same normal" |
| `Hinges.SameNormalFaceFirst` | lasercut/makehinges.py:378-390 | it fails exactly when no face matches; otherwise it returns the first match |
| `Hinges.FlatConnection` | lasercut/makehinges.py:262-270 | the box is the arc length along x from the face, the strip width along y and the thickness along z, centred in y and z, placed on the face's frame with no shift along its normal (see "## Left out"); missing fields raise |
| `Hinges.StepTurn` | lasercut/makehinges.py:241-246 | the angle is added to the running sum; the first rotation vector is kept; the second object is turned by minus the sum |
| `Hinges.ChainStep` | lasercut/makehinges.py:232-249 | one pass adds two pieces and one cut, the angle, and a warning when `nb_link < min_links_nb` |
| `Hinges.ChainAfter` | lasercut/makehinges.py:241-249 | the end of one pass keeps the same shape |
| `Hinges.ChainTotals` | lasercut/makehinges.py:227-249 | after i hinges: 2i more pieces, i more cuts, the summed angles and the first rotation vector |
| `Hinges.ChainTurns` | lasercut/makehinges.py:241-247 | each hinge's second object is turned by minus the running sum of the angles |
| `Hinges.LinkStepShaped` | lasercut/makehinges.py:232-249 | the workbench's loop body has that shape |
| `Hinges.LinkedPartShape` | lasercut/makehinges.py:212-259 | a linked part fuses 1 + 2·len(hinges) pieces and cuts one slit pattern per hinge; hinge j is turned by minus the sum of the first j + 1 angles about the first rotation vector; the clearance warning is given exactly when clearance < 2 kerf |
| `Hinges.ChainShape` | lasercut/makehinges.py:227-249 | the whole loop from the first object |
| `Hinges.LinkedPartErrors` | lasercut/makehinges.py:213-217 | raises "No hinge defined" for an empty list, and "Laser beam diameter is greater than clearance width" |
| `Hinges.ChainNext` | lasercut/makehinges.py:232-249 | the loop state one hinge on |
| `Hinges.ChainFail` | lasercut/makehinges.py:232-249 | a failure stops the loop |
| `Hinges.ChainWarnings` | lasercut/makehinges.py:233-234 | the loop only adds min-link warnings |
| `Hinges.LinkParts` | lasercut/makehinges.py:236-239 | the flat strip, the slits and the next face, in source order |
| `Hinges.LinkHinge` | lasercut/makehinges.py:232-249 | one pass of the loop computes `ChainStep` |
| `Hinges.HingeSolidsFail` | lasercut/makehinges.py:255-257 | a failing solid stops the fuse |
| `Hinges.FuseHingeSolids` | lasercut/makehinges.py:255-257 | the first hinge's solid fused with each later one, in order |
| `Hinges.CreateLinkedPart` | lasercut/makehinges.py:212-259 | `create_linked_part` computes `LinkedPartOf` with the workbench's loop body |
| `HingesProperty.CheckRefs` | lasercut/hingesproperties.py:46-49 | passes exactly when both objects and both faces are given and true; otherwise "Must defined freecad face/object", or KeyError for a keyword not passed at all |
| `HingesProperty.HingeName` | lasercut/hingesproperties.py:53-54 | the given name, otherwise "label1 -> label2" |
| `HingesProperty.HingesProperties.constructor` | lasercut/hingesproperties.py:40-68 | the four references, the bend and the minimum link count start unset, and `nb_link` is 5 |
| `HingesProperty.HingesProperties.View` | lasercut/hingesproperties.py:33-68 | what `create_linked_part` reads: the angle, arc length and thickness exactly when the bend is known, the rotation and extrusion exactly when they were kept |
| `HingesProperty.HingesProperties.CompleteHingesProperties` | lasercut/makehinges.py:65-86 | the hinge holds the bend geometry of the two faces; segments, extrusion and rotation vector only when `storeAll`; on error nothing changes |
| `HingesProperty.HingesProperties.ComputeMinLink` | lasercut/hingesproperties.py:74-76 | `min_links_nb` is `estimate_min_link(rad_angle, thickness, c)` and `nb_link` one more; on error nothing changes |
| `HingesProperty.HingesProperties.RecomputeInit` | lasercut/hingesproperties.py:78-84 | stores the objects and faces, keeps the whole geometry and builds the bent solid from it; on a geometry error the bend and solid are unchanged |
| `HingesProperty.NewHingesProperties` | lasercut/hingesproperties.py:40-72 | a new hinge with unset references, its bend (nothing kept), `min_links_nb` at clearance 0.20 and `nb_link` one more; or the first error construction meets |
| `HingesProperty.ConstructionOk` | lasercut/hingesproperties.py:40-76 | a hinge is built only from true objects and faces on both sides and an explicit `reversed_angle`; its minimum link count is the ceiling of the bend angle over `pi/4 - acos(...)` at clearance 0.20 |
| `HingesProperty.ConstructionErrors` | lasercut/hingesproperties.py:46-72 | the reference check fails first; without `reversed_angle` construction fails with the geometry's error or on the missing attribute |
| `HingesProperty.MinLinkRespected` | lasercut/hingesproperties.py:76 | a hinge left by `compute_min_link` never triggers the min-link warning of `create_linked_part` |
| `HingesProperty.UnboundHingeNotLinked` | lasercut/hingesproperties.py:42-45 | a hinge without its objects and faces cannot be linked |
| `HingesProperty.NewGlobalLiving` | lasercut/hingesproperties.py:95-131 | each attribute is the keyword when passed, else its default: thickness from the biggest face (5.0 when that raises ValueError), laser = thickness / 15, clearance = 3 x laser, dog bone off, solid on, type "Alternate", 2 holes, occupancy 0.8, names "%s_flat" and "%s_solid"; KeyError when a default needs the missing object |
| `BoxProperty.NewBoxProperties` | lasercut/boxproperties.py:44-68 | every dimension not passed gets its default: 90 x 50 x 30, thickness 3, outside measure, length priority, zero outside lengths, radius and shifts |
| `BoxProperty.NewTopBottomProperties` | lasercut/boxproperties.py:79-92 | defaults: outside position, no height shift, zero outside lengths, "Normal" top, cover tolerance 3 |
| `Boxes.ZPanel` | lasercut/makebox.py:237-248 | a horizontal panel `length` by `width`, centred on the z axis, from height z up by the thickness |
| `Boxes.FrontPanels` | lasercut/makebox.py:252-268 | the front panel is centred in x and z, starts at y = spacing / 2 and is one thickness deep; the panel behind is it moved back by spacing + thickness, its mirror image in y |
| `Boxes.TwiceHalfFrontPanel` | lasercut/makebox.py:271-288 | the two halves span [-length/2, 0] and [0, length/2], with the front panel's other extents |
| `Boxes.SidePanels` | lasercut/makebox.py:291-307 | the left panel is centred in y and z, starts at x = spacing / 2 and is one thickness wide; the right one is it moved by -(spacing + thickness), its mirror image in x |
| `Boxes.OutsideFrame` | lasercut/makebox.py:52-73 | the four priorities each give lengths and spacings; any other priority has none |
| `Boxes.Overhang` | lasercut/makebox.py:75-85 | the overhang is the largest of 0 and the outside values of the outside covers |
| `Boxes.OutsideLayout` | lasercut/makebox.py:44-120 | "Length/Width priority not defined" for an unknown priority, "Top type not implemented" for a non-normal top; otherwise the side height loses a thickness per outside cover and the lengths and spacings lose the covers' overhang |
| `Boxes.InsideFrame` | lasercut/makebox.py:153-176 | the spacings are the requested inner width and length for each known priority |
| `Boxes.InsideLayout` | lasercut/makebox.py:145-212 | the same two errors; otherwise the side height gains a thickness and a height shift per inside cover, and the panels are shifted by half of those (both halves use the bottom's shift) |
| `Boxes.PanelsShape` | lasercut/makebox.py:97-142 | six named panels, seven when the front one is halved; behind and right panels are front and left moved back; the halves meet at x = 0; all side panels span the same heights |
| `Boxes.OutsideWithinMeasure` | lasercut/makebox.py:44-142 | with the default priority, no shift and flush outside covers, every panel lies inside the requested outside box |
| `Boxes.InsideCoversInterior` | lasercut/makebox.py:178-212 | with both covers inside, they lie exactly the requested height apart, centred on 0 exactly when their height shifts agree |
| `Boxes.OutsidePriorityFrame` | lasercut/makebox.py:52-73 | the priority table computes `OutsideFrame` |
| `Boxes.OutsideCapsOf` | lasercut/makebox.py:75-93 | the cover code computes the height, shift and overhangs |
| `Boxes.MakeBoxOutsideMeasure` | lasercut/makebox.py:44-142 | the part list gains the panels of `OutsideLayout`, or the error is raised |
| `Boxes.MakeBoxInsideMeasure` | lasercut/makebox.py:145-234 | the part list gains the panels of `InsideLayout`, or the error is raised |
| `Boxes.AppendPanels` | lasercut/makebox.py:122-142 | the named panels are appended in order: the face (or its two halves), behind, left, right, bottom, top |
| `Boxes.MakeBox` | lasercut/makebox.py:33-41 | `make_box` picks the outside or the inside measuring; it fails exactly for an unknown priority or a non-normal top |
| `RoundedBox.ChunkStartMonotone` | lasercut/makeroundedbox.py:91-102 | chunk starts never go down, and go strictly up when there are at least as many elements as chunks |
| `RoundedBox.PositionBelow` | lasercut/makeroundedbox.py:94-100 | the running position `last` is below the length exactly for the first `num` chunks, so the loop makes `num` chunks |
| `RoundedBox.PositionFloor` | lasercut/makeroundedbox.py:99 | `int(last)` before chunk k is k·n/num in integers |
| `RoundedBox.PositionStep` | lasercut/makeroundedbox.py:100 | adding the average chunk length moves `last` to the next chunk's position |
| `RoundedBox.ChunkIt` | lasercut/makeroundedbox.py:91-102 | the loop returns exactly the chunks of the reference definition: none for no chunk or an empty sequence, otherwise `num` slices |
| `RoundedBox.ChunksPrefix` | lasercut/makeroundedbox.py:91-102 | the first k chunks put together are the prefix of the sequence up to chunk k's start |
| `RoundedBox.ChunksCover` | lasercut/makeroundedbox.py:91-102 | for 1 ≤ num ≤ length there are `num` non-empty chunks, chunk k running from k·n/num to (k+1)·n/num, which together are the sequence |
| `RoundedBox.ChunksConcat` | lasercut/makeroundedbox.py:91-102 | the chunks put together give back the sequence |
| `RoundedBox.ChunksTooMany` | lasercut/makeroundedbox.py:91-102 | with more chunks than elements the first chunk is empty |
| `RoundedBox.NatToString` | lasercut/makeroundedbox.py:121 | `"%d"` writes a number with at least one character, one exactly below 10, ending in its last digit |
| `RoundedBox.NatToStringInjective` | lasercut/makeroundedbox.py:121 | different numbers are written differently |
| `RoundedBox.Contours` | lasercut/makeroundedbox.py:69-86 | a division by zero exactly when there is no face; otherwise one segment pair per face |
| `RoundedBox.FaceAt` | lasercut/makeroundedbox.py:74-83 | one loop iteration builds face k's two segments, rotated by k times the angle between faces and moved to the inscribed radius |
| `RoundedBox.CreateContours` | lasercut/makeroundedbox.py:69-86 | the loop returns the reference contours |
| `RoundedBox.FirstFaceOnInscribedCircle` | lasercut/makeroundedbox.py:74-83 | when rotation by 0 is the identity, face 0's segments run from radius + thickness to the inscribed radius, at ±side/2 |
| `RoundedBox.Firsts` | lasercut/makeroundedbox.py:111-112 | the first index of every chunk; an index error exactly when some chunk is empty |
| `RoundedBox.Range` | lasercut/makeroundedbox.py:111 | `range(n)`: n elements, element i being i |
| `RoundedBox.CutIndexes` | lasercut/makeroundedbox.py:110-112 | the first loop of `create_sides` computes the reference first indexes, failing on an empty chunk |
| `RoundedBox.FaceParts` | lasercut/makeroundedbox.py:115-137 | one face gives one panel named `side_face_i`, or, when cut, two halves split at the segment midpoints named `_a` and `_b` |
| `RoundedBox.CreateSides` | lasercut/makeroundedbox.py:105-140 | the loops return the reference side parts, faces in order |
| `RoundedBox.SidesCount` | lasercut/makeroundedbox.py:114-138 | the first i faces give i parts plus one per cut face among them |
| `RoundedBox.CutCountAgrees` | lasercut/makeroundedbox.py:117 | the count of cut faces depends only on which indexes are in the cut list |
| `RoundedBox.CutCountIncreasing` | lasercut/makeroundedbox.py:110-117 | a strictly increasing cut list below i has every element counted |
| `RoundedBox.CutCountNone` | lasercut/makeroundedbox.py:117 | with no cut index no face is cut |
| `RoundedBox.SidesOfCut` | lasercut/makeroundedbox.py:105-140 | with 1 ≤ nb_cut ≤ nb_face, `create_sides` succeeds with nb_face + nb_cut parts |
| `RoundedBox.CutsOfChunks` | lasercut/makeroundedbox.py:110-112 | the faces cut are the nb_cut chunk starts k·nb_face/nb_cut |
| `RoundedBox.StartsIncrease` | lasercut/makeroundedbox.py:91-102 | with at least as many elements as chunks, chunk starts strictly increase |
| `RoundedBox.SidesTooManyCuts` | lasercut/makeroundedbox.py:105-112 | more cuts than faces makes `create_sides` fail with an index error on the empty first chunk |
| `RoundedBox.SidesNames` | lasercut/makeroundedbox.py:121-137 | the side parts are named `side_face_i`, or `side_face_i_a` and `side_face_i_b` for a cut face, in face order |
| `RoundedBox.SideFaceNames` | lasercut/makeroundedbox.py:121-137 | one face's parts carry that face's names |
| `RoundedBox.PartNamesAppend` | lasercut/makeroundedbox.py:121-137 | the names of two part lists joined are their names joined |
| `RoundedBox.NameBelow` | lasercut/makeroundedbox.py:121-137 | the names of the first i faces' parts belong to faces below i |
| `RoundedBox.NamesDistinct` | lasercut/makeroundedbox.py:121-137 | no two side names are the same |
| `RoundedBox.SideNamesDistinct` | lasercut/makeroundedbox.py:105-140 | every side part returned has its own name |
| `RoundedBox.NameOwner` | lasercut/makeroundedbox.py:121-137 | a side name belongs to exactly one face |
| `RoundedBox.NamesDiffer` | lasercut/makeroundedbox.py:121-137 | the names of different faces' parts differ, since a number is never followed by a digit |
| `RoundedBox.DigitsOnly` | lasercut/makeroundedbox.py:121 | `"%d"` of a natural is made of digits only |
| `RoundedBox.PlaneFrame` | lasercut/makeroundedbox.py:200-205 | an inside plate keeps the box's radius and side; an outside plate grows the radius by `radius_outside` and the side in the same proportion, a division by zero for a zero inradius |
| `RoundedBox.ScaledSide` | lasercut/makeroundedbox.py:205 | the scaled side keeps the ratio side/radius |
| `RoundedBox.CreatePlanePart` | lasercut/makeroundedbox.py:199-218 | returns the reference plate: frame, contours, then the kernel's inner or outer contour extrusion, with every error passed on |
| `RoundedBox.CreatePlates` | lasercut/makeroundedbox.py:45-60 | the bottom then the top plate, raised as their positions say, or the first error |
| `RoundedBox.MakeRoundedBox` | lasercut/makeroundedbox.py:36-66 | returns the reference part list: the two checks, the plates and the sides, errors passed on |
| `RoundedBox.RoundedBoxShape` | lasercut/makeroundedbox.py:36-66 | the side-length check comes first, then the cut-count check; on success there are 2 + nb_face + nb_cut parts, bottom then top plate at their heights |
| `RoundedBoxProperty.ForcedSide` | lasercut/roundedboxproperties.py:57 | the forced side is a whole number within one of three quarters of the maximum, and below a positive maximum |
| `RoundedBoxProperty.CappedCut` | lasercut/roundedboxproperties.py:59-60 | the number of cuts is kept when at most the number of faces, otherwise becomes it |
| `RoundedBoxProperty.RoundedBoxProperties.constructor` | lasercut/roundedboxproperties.py:34-48 | defaults of 5 faces, radius 50, height 30 and thickness 3; `cut` reset to 0 unless `cut_nb` was passed; both side lengths 0 |
| `RoundedBoxProperty.RoundedBoxProperties.Dims` | lasercut/roundedboxproperties.py:30-48 | the attributes `make_rounded_box` reads, field for field |
| `RoundedBoxProperty.RoundedBoxProperties.ComputeInformation` | lasercut/roundedboxproperties.py:51-60 | new maximum side; the side forced when asked or too long; cuts capped; division by zero with no face and nothing changed; attribute error with no `cut` |
| `RoundedBoxProperty.NewRoundedBoxProperties` | lasercut/roundedboxproperties.py:34-49 | fails exactly with no face or no `cut`; otherwise the defaults, the forced side and at most as many cuts as faces |
| `RoundedBoxProperty.NewTopBottomRoundedProperties` | lasercut/roundedboxproperties.py:69-76 | a plate is inside, unshifted and not grown unless the keywords say otherwise |
| `PropertyList.PyIndex` | panel/propertieslist.py:19-26 | Python's list index: valid exactly in [-n, n), a negative index counting from the end, the same position modulo n |
| `PropertyList.Without` | panel/propertieslist.py:25-26 | `list.pop(i)` leaves one element less, the earlier ones in place, the later ones moved down by one, and the same elements but the one removed |
| `PropertyList.WithoutRoundTrip` | panel/propertieslist.py:25-26 | putting the popped element back where it was gives the list back |
| `PropertyList.PropertiesList.constructor` | panel/propertieslist.py:13-14 | a new list is empty |
| `PropertyList.PropertiesList.Append` | panel/propertieslist.py:16-17 | the element goes at the end and nothing else changes |
| `PropertyList.PropertiesList.GetItem` | panel/propertieslist.py:19-20 | the element at a Python index, an IndexError exactly outside [-n, n) |
| `PropertyList.PropertiesList.Length` | panel/propertieslist.py:22-23 | the number of elements |
| `PropertyList.PropertiesList.Pop` | panel/propertieslist.py:25-26 | removes exactly the element at the Python index; an IndexError leaves the list as it was |
| `PropertyList.AppendThenGet` | panel/propertieslist.py:16-20 | after an append the new element is at index -1 and at the old length, and earlier elements keep their indexes |
| `PropertyList.FirstWith` | panel/partmat.py:135-138 | the position of the first element with that name, or none when no element has it |
| `PropertyList.RemoveFirst` | panel/partmat.py:135-140 | `remove` pops the first element of that name, or leaves the list alone when there is none |
| `PropertyList.DistinctAppend` | panel/partmat.py:100-108 | appending a name not yet in the list keeps the names distinct |
| `PropertyList.DistinctRemove` | panel/partmat.py:128-140 | removing keeps names distinct and leaves no element of the removed name |
| `PartPanel.Lookup` | panel/partmat.py:156-166 | `get` finds the first part of that name, or none exactly when no part has it |
| `PartPanel.LinkedNames` | panel/partmat.py:142-148 | `get_linked_parts` returns the names of exactly the parts linked to the name |
| `PartPanel.Override` | panel/partmat.py:176-179 | a link's copy has the source's material and thickness but the link's names |
| `PartPanel.Resolved` | panel/partmat.py:173-183 | a plain part is copied; a link resolves exactly when its source is in the list, otherwise an AttributeError; names are kept |
| `PartPanel.ResolvedErrorStays` | panel/partmat.py:171-187 | once a link fails, the rest of the pass does not change the outcome |
| `PartPanel.ResolvedUpToShape` | panel/partmat.py:171-187 | the first i entries resolve exactly when each does, entry by entry |
| `PartPanel.ResolvedAllShape` | panel/partmat.py:171-187 | `get_parts_properties` fails exactly when some link names no part; otherwise it keeps length, order and names, copies plain parts and overrides links |
| `PartPanel.ResolvedFirstError` | panel/partmat.py:171-187 | a failing pass fails with an AttributeError |
| `PartPanel.ResolvedKeepsInvariant` | panel/partmat.py:171-187 | with resolvable links the pass succeeds and keeps names distinct and links resolvable, so it can be repeated |
| `PartPanel.LookupAppend` | panel/partmat.py:100-108 | a name found before an append is found after it |
| `PartPanel.AppendKeepsLinks` | panel/partmat.py:110-126 | appending a part whose link is in the list keeps every link resolvable |
| `PartPanel.NoLinkTo` | panel/partmat.py:128-133 | when `get_linked_parts` is empty no part links to the name |
| `PartPanel.LookupWithout` | panel/partmat.py:135-140 | removing one name keeps every other name found |
| `PartPanel.RemoveKeepsLinks` | panel/partmat.py:128-140 | removing a part nobody links to keeps every link resolvable |
| `PartPanel.LinkedNamesAsWritten` | panel/partmat.py:142-148 | `get_linked_parts` as written raises an AttributeError exactly when some part is plain (no `link_name` set); otherwise it gives the linked names |
| `PartPanel.RemoveAsWritten` | panel/partmat.py:128-140 | `remove` as written raises an AttributeError on any list holding a plain part; on a list of links only it behaves as `PartsList.Remove` |
| `PartPanel.GetAsWritten` | panel/partmat.py:156-166 | `get` as written raises an AttributeError exactly when the part found is plain; otherwise it is the lookup |
| `PartPanel.ResolvedAsWritten` | panel/partmat.py:173-183 | an entry of `get_parts_properties` as written raises for a plain part and for a link to a plain part; otherwise it is the corrected entry |
| `PartPanel.ResolvedUpToAsWrittenFails` | panel/partmat.py:171-187 | the as-written pass fails, with an AttributeError, as soon as one entry fails |
| `PartPanel.AsWrittenErrorKind` | panel/partmat.py:171-187 | every failure of the as-written pass is an AttributeError |
| `PartPanel.PlainPartBreaksPartsList` | panel/partmat.py:100-108 | one part that `append` created makes `remove`, `get_parts_properties` and `get` of it raise as written, while the corrected pass keeps that part as it is |
| `PartPanel.PartsList.constructor` | panel/partmat.py:95-98 | the panel shares the list it is given |
| `PartPanel.PartsList.Exist` | panel/partmat.py:150-154 | true exactly when some part has that name |
| `PartPanel.PartsList.Get` | panel/partmat.py:156-166 | the loop finds the first part of that name |
| `PartPanel.PartsList.GetLinkedParts` | panel/partmat.py:142-148 | the loop collects the names linked to the name, in list order |
| `PartPanel.PartsList.Append` | panel/partmat.py:100-108 | a taken name is refused with its message and no change; otherwise a laser-cut part for the object goes at the end; distinct names and resolvable links are kept |
| `PartPanel.PartsList.AppendLink` | panel/partmat.py:110-126 | refuses a taken name, a missing source and a thickness not within tolerance of the source's, each with its message and no change; otherwise appends the link; invariants kept |
| `PartPanel.PartsList.Remove` | panel/partmat.py:128-140 | fails with its message exactly while some part links to the name; otherwise pops the first part of that name; invariants kept |
| `PartPanel.PartsList.GetPartsProperties` | panel/partmat.py:171-187 | returns the resolved list and stores it; on failure the list is unchanged; with resolvable links it succeeds and keeps the invariants |
| `TabPanel.Lookup` | panel/tab.py:146-229 | `get` finds the first tab of that name, none when there is none, and "Unknown type of tab" when a non-link tab has no widget type |
| `TabPanel.Override` | panel/tab.py:245-255 | a link's copy has the source's joint settings with the link's names, face, frame, thickness and length; AttributeError exactly when the link's `transform_matrix`, `thickness` or `y_length` was never set |
| `TabPanel.Resolved` | panel/tab.py:243-259 | a plain tab is copied; a link resolves exactly when its source is found and its own face geometry is set; a missing source or unset geometry is an AttributeError; identity kept |
| `TabPanel.ResolvedErrorStays` | panel/tab.py:241-263 | once an entry fails, the rest of the pass does not change the outcome |
| `TabPanel.ResolvedUpToShape` | panel/tab.py:241-263 | the first i entries resolve exactly when each does, entry by entry |
| `TabPanel.ResolvedAllShape` | panel/tab.py:241-263 | `get_tabs_properties` fails exactly when some entry does (a missing source, a link with unset geometry, a source without widget type); otherwise it keeps length, order and identities, copies plain tabs and overrides each link with the first tab of its link name |
| `TabPanel.ResolvedKeepsNames` | panel/tab.py:241-263 | resolving keeps tab names distinct |
| `TabPanel.RemoveLeavesDanglingLink` | panel/tab.py:196-236 | since no entry counts as linked, removing a linked-to tab succeeds and the next resolution fails |
| `TabPanel.TabsList.constructor` | panel/tab.py:133-136 | the panel shares the list it is given |
| `TabPanel.TabsList.Exist` | panel/tab.py:210-214 | true exactly when some tab has that name |
| `TabPanel.TabsList.Get` | panel/tab.py:216-229 | the loop returns the reference lookup, errors included |
| `TabPanel.TabsList.GetLinkedTabs` | panel/tab.py:231-236 | always empty, since the entries are never `TabLink` widgets |
| `TabPanel.TabsList.Append` | panel/tab.py:163-176 | a taken tab name is refused with its message and no change; otherwise the tab goes at the end; distinct names kept |
| `TabPanel.TabsList.AppendLink` | panel/tab.py:178-194 | refuses a missing source and a taken name with their messages and no change; otherwise appends an untyped link entry naming the source |
| `TabPanel.TabsList.Remove` | panel/tab.py:196-208 | always succeeds and pops the first tab of that name, if any |
| `TabPanel.TabsList.GetTabsProperties` | panel/tab.py:241-263 | returns the resolved list, AttributeError for a link with unset face geometry included, and stores it; on failure the list is unchanged; distinct names kept |
| `ExportPanel.SqrtFrom` | ExportPanel.py:89 | the integer square root, searched upwards from a candidate |
| `ExportPanel.PerLine` | ExportPanel.py:89 | `int(sqrt(n))`: the largest p with p² ≤ n, at least 1 for a non-empty list |
| `ExportPanel.ExportList` | ExportPanel.py:82-116 | one new part per part, in order, each moved to where the loop's cursor puts it |
| `ExportPanel.PlacedCorner` | ExportPanel.py:95-98 | a part keeps its size and has its lower corner moved to the cursor, at height 30 |
| `ExportPanel.RowStart` | ExportPanel.py:105-107 | every per-line-th part starts a row at x = 0, the first at the origin |
| `ExportPanel.AdvanceMax` | ExportPanel.py:102-103 | `max_line_y` never drops and reaches the new part's top |
| `ExportPanel.MaxLineIsTop` | ExportPanel.py:102-103 | `max_line_y` is at least the top of every part placed so far |
| `ExportPanel.MaxLineAttained` | ExportPanel.py:86-103 | `max_line_y` is 0 or the top of some part placed |
| `ExportPanel.AdvanceNewRow` | ExportPanel.py:105-107 | a row ends by moving y to `max_line_y` plus the margin |
| `ExportPanel.NewRowAbove` | ExportPanel.py:102-107 | a new row starts the margin above everything placed before it |
| `ExportPanel.RowsGoUp` | ExportPanel.py:105-107 | y never decreases |
| `ExportPanel.SameRowApart` | ExportPanel.py:97 | in a row, each part starts the margin right of the previous ones, at the same height |
| `ExportPanel.LaterRowApart` | ExportPanel.py:102-107 | a part in a later row lies the margin above an earlier part |
| `ExportPanel.PlacedApart` | ExportPanel.py:82-116 | no two laid-out parts overlap: a later one is right of or above an earlier one by the margin |
| `Techdraw.Template.constructor` | LasercutterTechdrawExport/LasercutterTechdrawExport.py:192-197 | a template holds the width and height it is given |
| `Techdraw.SelectedToTechdraw` | LasercutterTechdrawExport/LasercutterTechdrawExport.py:183-213 | one view per part, in order, each centred on its slot, and a template grown to the reference width and height |
| `Techdraw.CentredOnPart` | LasercutterTechdrawExport/LasercutterTechdrawExport.py:211-212 | each view is centred on its part's box, which sits on y = 0 |
| `Techdraw.BeamBetweenViews` | LasercutterTechdrawExport/LasercutterTechdrawExport.py:185-213 | views are one beam width apart, the first one beam width from the edge |
| `Techdraw.ViewsInOrder` | LasercutterTechdrawExport/LasercutterTechdrawExport.py:213 | with non-negative sizes a later view starts right of an earlier one's end plus the beam |
| `Techdraw.WidthCovers` | LasercutterTechdrawExport/LasercutterTechdrawExport.py:195-197 | the template width never shrinks and ends wide enough for every view plus a beam |
| `Techdraw.HeightCovers` | LasercutterTechdrawExport/LasercutterTechdrawExport.py:191-193 | the template height never shrinks and ends tall enough for every view plus a beam |
| `Techdraw.WidthTight` | LasercutterTechdrawExport/LasercutterTechdrawExport.py:195-197 | the final width is the starting width or the right edge of some view plus the beam |
| `Techdraw.GetBiggestFace` | LasercutterTechdrawExport/LasercutterTechdrawExport.py:216-224 | the first face of strictly greatest area, none exactly when no face has a positive area |
| `Techdraw.RotateBiggestSideUp` | LasercutterTechdrawExport/LasercutterTechdrawExport.py:235-248 | the angle kept is the first 22.5° step of least width over the 9 steps; the part ends turned by 360° plus it |

## Left out

- The FreeCAD kernel is not computed. This covers `fuse`, `cut`, `common`, `extrude`, `Part.makeBox`, cylinders, arcs, wires, faces, `translate`/`rotate`, placements, `BoundBox`, `normalAt`, `CenterOfMass` and `Part.__sortEdges__`. A solid is a term recording how it was built. `check_intersect`, `is_inside`, `check_limit_z` and the common-volume test are boolean function parameters (`Solids.Probe`), as are the edge lengths, normals and areas the code reads off shapes.
- Floating-point arithmetic, square roots and trigonometry are not modelled. Reals are exact. `sqrt`, `normalize`, `acos` (in `estimate_min_link`), `sin`/`cos` (in `create_contours` and the rounded box's maximum side) and `round` are parameters or inputs. Length comparisons are made on squared lengths, which take the same branches.
- `RoundedBox.CreatePlanePart`: the plate's arcs and contours are one kernel parameter (`Plate`). This covers `retrieve_segments_arc`, `get_contours_with_arc` and `create_shape`.
- `RoundedBoxProperty.RoundedBoxProperties.ComputeInformation`: the maximum side length (cosine, sine and `round`) is an input function (`SideBound`).
- `HingesProperty.HingesProperties.RecomputeInit` takes the solid of `create_solid_corner` (lasercut/makehinges.py:91-104) as a kernel parameter. That solid is a kernel construction.
- `HingesProperty.HingesProperties.CompleteHingesProperties` and `Hinges.DoIntersection` keep the messages "Not an arc" and "Not coplanar" without the numbers the source formats into them.
- `Hinges.CreateLinkedPart` returns its console messages as `Warning` values instead of printing them. This covers clearance below twice the kerf and a link count below the minimum.
- `Material.MostCommon` returns the first value of maximal multiplicity in list order. Python's `Counter.most_common` breaks ties by its own insertion order, which is not modelled.
- `RoundedBox.ChunkIt` requires `num >= 0` for a non-empty sequence. With a negative `num`, `chunkIt`'s loop never ends.
- `RoundedBox.MakeRoundedBox` requires `Finishes`: no negative number of cuts with faces present. That is the case where `chunkIt` never ends.
- `Join.MakeTabJoin` requires the other panels to be distinct objects that do not include the tab's panel. `make_tabs_joins` builds them that way, and aliasing among them is not modelled.
- `Join.MakeTSlotTabJoin` requires the same distinct other panels, for the same reason.
- `Join.MakeContinuousTabJoins` requires the same distinct other panels, for the same reason.
- `Join.JoinTab` requires the same distinct other panels, for the same reason.
- `Techdraw.RotateBiggestSideUp` gives the part's width after a turn as an input function of the total angle. The turns' centres (the bounding-box corner, then the origin) and `rotate_face_up` are placement only and are not modelled.
- `Techdraw.SelectedToTechdraw` does not model the document objects. This covers the view lookup and creation, `addView`, the view's line width, scale, direction and source, and the label renaming. `make_offset_parts` (the selection, the `Part::Offset` objects offset by half the beam width, and their clones) is document work too; its parts reach the model only as their bounding-box sizes.
- `ExportPanel.ExportList` gives each part as the bounding box of its shape after `transform_shape`. `addObject`, `recompute` and `Draft.makeShape2DView` are document side effects.
- `crosspart.py`'s `get_transformation_matrix_from_vectors` and the node and dog-bone cylinder constructors are kernel geometry. Nodes and dog bones are solid terms carrying their dimensions and positions.
- `TabPanel.TabsList.Append` and `TabPanel.TabsList.AppendLink` take the `TabProperties(...)` call as a parameter (`MakeTab`). `panel/tab.py` passes no `freecad_object`, so the constructor in `lasercut/tabproperties.py` would raise "Must defined freecad face/object" (tabproperties.py:42-43) on every call. `TabProperties.TYPE_NOT_DEFINED` (tab.py:186) is not defined, and the `tab_name` read at tab.py:170 is never set. That call belongs to another revision, so its outcome, tab name included, is an input.
- Several names the core uses are not defined in this revision's `lasercut/helper.py` and `lasercut/material.py`: `helper.MaterialElement`, `helper.sort_area_shape_faces` and `MaterialProperties.NODE_*` (crosspart.py:138-156, 320, 328); `Segment`, `compare_value` and `assemble_list_element` (imported at makehinges.py:29, `compare_value` also at partmat.py:29); `helper.rotate_vector_z` (makeroundedbox.py:79). In their place the model uses join.py's `MaterialElement` and `assemble_list_element` (`Elements.MaterialElement`, `Elements.AssembleListElement`), the `Material.NodeType` datatype, the `sortedFaces` parameter of `CrossPart.CrossKernel`, the `Hinges.Segment` datatype, `Helper.CompareValue` (a strict tolerance test whose tolerance is a parameter), and the `RoundedBox.Rotation` parameter.
- `Hinges.FlatConnection`, `Hinges.CutLayout` and `Hinges.MakeHinges` (with `Hinges.CutOfLayout` and `Hinges.CutOfLayoutShape`) place their solid with `ToFace(face)`. The calls `transform(box, referentiel_face)` at makehinges.py:268 and `transform(hinges_to_remove, referentiel_face)` at makehinges.py:367 pass two arguments. The `transform` of `lasercut/helper.py` (helper.py:71) requires a third, `x_origin`, so as written both calls raise TypeError. The model reads them as a placement on the face's own frame with no shift along the normal: `x_origin` 0 and the default matrix `get_matrix_transform(face)`. CrossPart is not affected, because crosspart.py:244 defines its own three-argument `transform`.
- `TabPanel.Resolved` reads an entry whose `link_name` is None as not linked. As for parts (see "## Findings"), `append` at tab.py:165-168 passes no `link_name`; the entries here come from the `MakeTab` parameter, which sets it.
- `PartPanel.LinkedNames` follows the corrected reading of a plain part's `link_name` as None (see "## Findings"). As written, partmat.py:146 raises an AttributeError on a plain part; `PartPanel.LinkedNamesAsWritten` models that.
- `PartPanel.Resolved` follows the corrected reading. As written, partmat.py:174 raises on a plain part; `PartPanel.ResolvedAsWritten` models that.
- `PartPanel.ResolvedAllShape` states the corrected pass. As written, `get_parts_properties` fails on every list holding a plain part (`PartPanel.PlainPartBreaksPartsList`).
- `PartPanel.ResolvedKeepsInvariant` states the corrected pass. As written, its success claim holds only for lists of links (`PartPanel.PlainPartBreaksPartsList`).
- `PartPanel.AppendKeepsLinks` and `PartPanel.RemoveKeepsLinks` state the corrected list operations. As written, a list holding a plain part cannot be resolved or removed from.
- `PartPanel.PartsList.Get` follows the corrected reading. As written, partmat.py:160 raises on a plain part; `PartPanel.GetAsWritten` models that.
- `PartPanel.PartsList.GetLinkedParts` follows the corrected reading (`PartPanel.LinkedNamesAsWritten` models the code as written).
- `PartPanel.PartsList.AppendLink` follows the corrected reading. As written, its `get` of a plain source raises (`PartPanel.GetAsWritten`).
- `PartPanel.PartsList.Remove` follows the corrected reading (`PartPanel.RemoveAsWritten` models the code as written).
- `PartPanel.PartsList.GetPartsProperties` follows the corrected reading (`PartPanel.ResolvedAsWritten` models one entry as written).
- The widget classes of `panel/tab.py` and `panel/partmat.py` are not modelled, and neither are the Techdraw and export command classes. `get` returns its entry without the widget; building the widget is modelled only where it can raise ("Unknown type of tab").
- `panel/propertieslist.py`'s `__getstate__`/`__setstate__` (JSON and `eval` persistence) are not modelled.
- `lasercut/flextab.py` is not part of this model. No tab type reaches it, and it calls helpers absent from `lasercut/helper.py`.
- The GUI panels, `InitGui.py`, `MakeBoxPanel.py` and `MakeRoundedBoxPanel.py` are not modelled. The commented-out code in `lasercut/join.py` is not modelled either.

## Behaviour worth knowing

- A continuous joint divides the face into `tabs_number + 1` segments and puts a tab on the even ones (lasercut/join.py:269). See `JoinPlans.SegmentLength` and `Join.SegmentCenters`.
- `make_box` emits six panels, or seven when the round priority splits the face panel in two (lasercut/makebox.py:271-307). See `Boxes.MakeBox`.
- A tab cannot be protected from removal by the tabs that link to it. `TabsList.get_linked_tabs` only counts `TabLink` widgets, and the list holds `TabProperties`, so it always returns `[]` (panel/tab.py:231-236). `TabPanel.RemoveLeavesDanglingLink` shows the removal that then succeeds and the link that no longer resolves.

## Findings

| source | as written | input that shows it | evidently intended | confidence | as-written member | corrected member |
|---|---|---|---|---|---|---|
| panel/partmat.py:142-187 | `get_linked_parts`, `get` and `get_parts_properties` read `part.link_name`, which `append` (partmat.py:104-106) never sets, so it raises an AttributeError | a list holding one part that `append` created: `remove(n)` for any `n`, `get_parts_properties()`, and `get` of that part (so `append_link` from it) raise | a plain part has `link_name` None, as the `Part` widget sets on itself (partmat.py:39) and as `if not material.link_name` expects | high; not executed | `PartPanel.PlainPartBreaksPartsList` | `PartPanel.PartsList.Remove` |
