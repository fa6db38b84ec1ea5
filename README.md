# Exact-geometry model of the box and cross generators

The modelled program draws two footprints with matplotlib:

- a width x depth x height **box** filled with spheres of one radius;
- a plus-shaped **cross**: a central block with four arms of equal width and length.

With the input prompts and the drawing calls removed, what is left is exact geometry. This model covers the following parts:

- **The grid sphere packer.** Each axis is cut into `max(1, int(extent / diameter))` equal cells. One centre is put at the centroid of every cell, enumerated with i outermost, then j, then k. It appears inline in the box scenario and as the per-rectangle packer of the cross. Both are modelled as imperative methods (`SpherePacker.PackBox`, `SpherePacker.PackRectangle`) whose triple loops are proved to produce the centres of a recursive specification (`SpherePacker.Centres`).
- **The cross decomposition.** The cross is split into five prisms, placed around the centre of its bounding box: central, left, right, top, bottom. The packing of the whole cross concatenates the five per-prism packings (`CrossDecomposition.PackCross`).
- **The contour tracer.** It builds the 21-point base loop of the cross outline, the same loop lifted to the building height, and the 3 x 21 wireframe segments (`ContourTracer`). Its signed area and simplicity are proved (`ContourSimplicity`).
- **The hollow-wall generator.** It builds the eight outer and eight inner corners of a prism and the sixteen wall faces, four per side. It also builds the five floor tiles and the whole hollow-wall structure of a cross (`WallExtruder`).
- **The volumes and statistics** (`Volumes`). These are the volume of a box and of a cross, the volume of a sphere and the fill rate. The value of pi is a parameter of which only `pi > 0` is used.
- **The scenarios** (`BoxScenario`, `CrossScenario`). These check the inputs, pack, compute the two warnings and the statistics, and trace the twelve-edge box outline and the cross outline.

Python's lists, which the source grows with `append` and `extend`, are `seq` values reassigned by the methods. Python's floats are modelled as exact reals, and `int()` as truncation toward zero.

The hollow-wall plan should refuse a wall thickness that leaves some prism without an inner rectangle. The outline should be a polygon without repeated points. Where the code does otherwise, the model follows the code and adds the intended behaviour beside it:

- **The wall thickness.** The code checks only the five dimensions, so any thickness is accepted (see "## Findings"). `WallExtruder.CreatePlanAsWritten` builds the plan as the code does. `WallExtruder.CreatePlan` applies the corrected check (`WallExtruder.ValidatePlan`) and so refuses a thickness the code accepts.
- **The outline.** The code's loop has 21 points, and points 1 and 2 are the same point (`ContourTracer.ContourShape`). `ContourSimplicity.WithoutRepeat` drops the repeat before simplicity is stated.
- **The direction of the outline.** A comment in `plan_3d_contour.py:76` says the outline is traced clockwise. The points as listed give a positive shoelace area, so with x to the right and y up the loop actually runs counter-clockwise (`ContourTracer.ContourSignedArea`).

## Model

| member | source | states |
|---|---|---|
| Geometry.BaseRectangleArea | plan_3d.py:115-116 | the base rectangle of a prism, listed counter-clockwise, has signed area width · depth |
| SpherePacker.Trunc | app.py:36-38 | `int()` of a float truncates toward zero: for x >= 0 the result n satisfies n <= x < n + 1, and for x < 0 it satisfies n - 1 < x <= n |
| SpherePacker.CellCount | plan_croix_avec_spheres.py:149-151 | the per-axis count `max(1, int(extent / diameter))` is at least 1 |
| SpherePacker.CellCountFits | app.py:34-38 | when the extent holds one diameter, n diameters fit and n + 1 do not; otherwise the count is 1 |
| SpherePacker.CellCountMaximal | app.py:34-38 | the count is maximal: extent / n >= diameter, but extent / (n + 1) < diameter |
| SpherePacker.GridFor | plan_croix_avec_spheres.py:149-151 | the three per-axis counts of a prism are all at least 1 |
| SpherePacker.SlabAt | plan_croix_avec_spheres.py:157-162 | within slab i, column j holds the centres of cells (i, j, 0..nz-1) at offsets j·nz + k |
| SpherePacker.SlabLength | plan_croix_avec_spheres.py:157-162 | the first m columns of a slab hold m·nz centres |
| SpherePacker.RowsLength | plan_croix_avec_spheres.py:156-162 | the first m slabs hold m·ny·nz centres |
| SpherePacker.RowsAt | plan_croix_avec_spheres.py:156-162 | the first m slabs hold m·ny·nz centres, and position i·ny·nz + j·nz + k holds the centre of cell (i, j, k) |
| SpherePacker.CentresAt | plan_croix_avec_spheres.py:156-162 | the packing of a prism holds nx·ny·nz centres, and position i·ny·nz + j·nz + k holds the centre of cell (i, j, k): i is the outer index and k the inner one |
| SpherePacker.CellOffset | plan_croix_avec_spheres.py:159-161 | by definition, the centroid of cell i of an axis cut into n equal cells lies (i + 0.5)·extent/n from the start of the axis |
| SpherePacker.CellCentre | plan_croix_avec_spheres.py:159-161 | by definition, the centre of cell (i, j, k) is offset from the prism's corner in x and y and from 0 in z |
| SpherePacker.Centres | plan_croix_avec_spheres.py:149-162 | by definition, the packing lists the cell centres on the grid of `GridFor`, slab i = 0..nx-1 outermost, column j next and cell k innermost; `SpherePacker.CentresAt` states its contents |
| SpherePacker.CellCentreFormula | plan_croix_avec_spheres.py:159-161 | the centre of cell (i, j, k) is (x_start + (i + 0.5)·width/nx, y_start + (j + 0.5)·depth/ny, (k + 0.5)·height/nz); z has no origin offset |
| SpherePacker.CentresLength | plan_croix_avec_spheres.py:149-153 | the packing holds exactly nx·ny·nz >= 1 centres |
| SpherePacker.OffsetInside | plan_croix_avec_spheres.py:159-161 | along one axis, a cell centroid lies strictly between the two faces |
| SpherePacker.CellCentreInside | plan_croix_avec_spheres.py:156-162 | the centre of every cell lies strictly inside the prism |
| SpherePacker.RowsInside | plan_croix_avec_spheres.py:156-162 | every centre of the first m slabs lies strictly inside the prism |
| SpherePacker.SlabInside | plan_croix_avec_spheres.py:157-162 | every centre of the first m columns of a slab lies strictly inside the prism |
| SpherePacker.CentresInside | plan_croix_avec_spheres.py:156-162 | every centre lies strictly inside: x_start < x < x_start + width, y_start < y < y_start + depth, 0 < z < height |
| SpherePacker.AxisSpacing | plan_croix_avec_spheres.py:149-151 | when the extent holds one diameter: neighbouring centroids are a cell apart, the cell is at least a diameter, and every centroid is at least a radius from both faces |
| SpherePacker.CellClearance | plan_croix_avec_spheres.py:159-161 | a centroid of an axis whose cells are at least a diameter wide is at least a radius from both faces |
| SpherePacker.PrefixStep | plan_croix_avec_spheres.py:158-162 | one pass of the k loop appends the centre of cell (i, j, k) to the centres enumerated so far |
| SpherePacker.PrefixNextColumn | plan_croix_avec_spheres.py:157-162 | when the k loop ends, the enumeration moves on to column j + 1 |
| SpherePacker.PrefixNextSlab | plan_croix_avec_spheres.py:156-162 | when the j loop ends, the enumeration moves on to slab i + 1 |
| SpherePacker.PrefixStart | plan_croix_avec_spheres.py:146 | the enumeration starts empty, and after nx slabs it is the whole packing |
| SpherePacker.PackRectangle | plan_croix_avec_spheres.py:142-164 | the triple loop returns exactly the packing of the rectangle with corner (x_start, y_start) |
| SpherePacker.PackBox | app.py:32-75 | the triple loop fills the three coordinate lists with the x, y and z of the packing of the box at the origin, in enumeration order |
| SpherePacker.ProjectedStep | app.py:69-75 | appending the centre of cell (i, j, k) to the three lists keeps them equal to the coordinate lists of the enumeration |
| SpherePacker.ProjectionsAppend | app.py:73-75 | appending a point appends its x, y and z to the three coordinate lists |
| SpherePacker.CellNarrowIff | app.py:41-45 | the cell on one axis is narrower than a diameter exactly when the extent is |
| SpherePacker.OverlapWarning | app.py:41-45 | by definition, the warning fires when some axis's cell, extent / count, is narrower than a diameter; `SpherePacker.OverlapWarningIff` characterises it |
| SpherePacker.OverlapWarningIff | app.py:41-46 | the overlap warning fires exactly when some extent is below one diameter |
| Volumes.BoxVolume | app.py:96 | the box volume is positive, and it is the volume of the prism at the origin |
| Volumes.CrossVolume | plan_croix_avec_spheres.py:281-291 | the cross volume is central block + 4 arms, lc·Lc·h + 4·lb·wb·h, and it exceeds the central block alone |
| Volumes.SphereVolume | app.py:97 | 3·V = 4·pi·r³, and V > 0 for r > 0 |
| Volumes.FillRate | app.py:99 | rate · container volume = count · sphere volume · 100 |
| Volumes.MakeStats | plan_croix_avec_spheres.py:61-64 | the statistics block: total sphere volume = count · sphere volume, fill rate · container volume = total · 100, 3 · sphere volume = 4·pi·r³ |
| Volumes.FillRateStrictlyIncreasing | app.py:96-99 | for a fixed radius and container, more spheres give a strictly higher fill rate |
| Volumes.CrossVolumeExample | plan_croix_avec_spheres.py:281-291 | a 4 x 4 central block with 2 x 3 arms, 5 high, has volume 200 |
| CrossDecomposition.TotalWidth | plan_croix_avec_spheres.py:84 | by definition, the bounding box is lc + 2·lb wide |
| CrossDecomposition.TotalDepth | plan_croix_avec_spheres.py:85 | by definition, the bounding box is Lc + 2·lb deep |
| CrossDecomposition.CentreX | plan_croix_avec_spheres.py:88 | by definition, the centre's x is half the total width |
| CrossDecomposition.CentreY | plan_croix_avec_spheres.py:89 | by definition, the centre's y is half the total depth |
| CrossDecomposition.Central | plan_croix_avec_spheres.py:93-100 | by definition, the central block is lc x Lc, centred on the bounding box's centre |
| CrossDecomposition.LeftArm | plan_croix_avec_spheres.py:102-109 | by definition, the left arm is lb x wb, left of the central block and centred on its y centre line |
| CrossDecomposition.RightArm | plan_croix_avec_spheres.py:111-118 | by definition, the right arm is lb x wb, right of the central block and centred on its y centre line |
| CrossDecomposition.TopArm | plan_croix_avec_spheres.py:120-127 | by definition, the top arm is wb x lb, above the central block and centred on its x centre line |
| CrossDecomposition.BottomArm | plan_croix_avec_spheres.py:129-136 | by definition, the bottom arm is wb x lb, below the central block and centred on its x centre line |
| CrossDecomposition.CrossCentres | plan_croix_avec_spheres.py:93-136 | by definition, the packing of the cross is the five prisms' packings concatenated, central, left, right, top, bottom; `CrossDecomposition.PackCross` and `CrossDecomposition.CrossCount` state what it holds |
| CrossDecomposition.Parts | plan_croix_avec_spheres.py:93-133 | the decomposition has five prisms, in the order central, left, right, top, bottom |
| CrossDecomposition.PartsPlacement | plan_croix_avec_spheres.py:84-133 | the left arm starts at x = 0, the right arm ends at the total width, the bottom arm starts at y = 0 and the top arm ends at the total depth; the arms touch the central block, are centred on its centre lines and share its height |
| CrossDecomposition.PartsVolume | plan_croix_avec_spheres.py:281-291 | the five prisms' volumes add up to the cross volume |
| CrossDecomposition.PartsDisjointIff | plan_croix_avec_spheres.py:93-133 | the five prisms' interiors are pairwise disjoint exactly unless the arms are wider than the central block in both directions |
| CrossDecomposition.CrossCount | plan_croix_avec_spheres.py:93-138 | the cross packing holds the sum of the five per-prism counts nx·ny·nz |
| CrossDecomposition.ProjectionsConcat | plan_croix_avec_spheres.py:99-101 | the coordinate lists of a concatenation are the concatenations of the coordinate lists |
| CrossDecomposition.PackCross | plan_croix_avec_spheres.py:75-140 | the three lists are the x, y and z of the five packings concatenated in the order central, left, right, top, bottom, so they have equal lengths |
| CrossDecomposition.PartsCentresAll | plan_croix_avec_spheres.py:93-136 | the five packings in the order of Parts make up the whole cross packing |
| CrossDecomposition.PartsAround | plan_croix_avec_spheres.py:84-133 | the corners the packer computes from the centre (largeur_totale/2, longueur_totale/2) are those of the five prisms |
| CrossDecomposition.PackedPart | plan_croix_avec_spheres.py:93-136 | the packing of part n extends the packing of the parts before it |
| CrossDecomposition.ExtendCoordinates | plan_croix_avec_spheres.py:99-101 | the three `extend` calls extend the coordinate lists by those of the appended centres |
| CrossDecomposition.CrossCentresInside | plan_croix_avec_spheres.py:93-136 | every centre of the cross packing lies strictly inside one of the five prisms |
| ContourTracer.ContourBase | plan_3d_contour.py:82-125 | the base loop lists 21 points |
| ContourTracer.CrossOutline | plan_croix_avec_spheres.py:170-222 | the filled cross traces the same 21 points as the outline-only plan, around the centre of the bounding box; the loop starts at (0, centre_y - armWidth/2, 0) and lies at z = 0 |
| ContourTracer.ContourTop | plan_3d_contour.py:128 | the top loop has the base loop's length, and each entry has the same x and y as its base point with z = height |
| ContourTracer.Wireframe | plan_3d_contour.py:131-151 | the wireframe of an n-point loop has 3n segments |
| ContourTracer.XIndex | plan_3d_contour.py:86-125 | every base point sits on one of six x levels |
| ContourTracer.YIndex | plan_3d_contour.py:86-125 | every base point sits on one of six y levels |
| ContourTracer.ContourLevels | plan_3d_contour.py:86-125 | every base point is (X[XIndex(i)], Y[YIndex(i)], 0) on the outline's levels |
| ContourTracer.ContourAxisParallel | plan_3d_contour.py:86-133 | every edge of the loop, including the closing one from point 20 back to point 0, shares its x or its y |
| ContourTracer.ContourShape | plan_3d_contour.py:60-92 | all base points are at z = 0, points 1 and 2 coincide, and for a cross the loop starts at (0, centre_y - armWidth/2, 0) |
| ContourTracer.WireframeLayout | plan_3d_contour.py:131-151 | segment i joins base[i] to base[(i + 1) mod n], segment n + i does the same on the top loop, and segment 2n + i rises vertically from base[i] to top[i] at full height |
| ContourTracer.CrossWireframe | plan_3d_contour.py:128-151 | the cross wireframe has 63 segments: 42 axis-parallel ones at z = 0 and z = height, and 21 vertical ones from 0 up to the height |
| ContourTracer.LevelShoelace | plan_3d_contour.py:86-125 | on the levels, the 21 shoelace terms add up to twice the central block plus four arms |
| ContourTracer.Shoelace21 | plan_3d_contour.py:131-133 | the shoelace sum of a 21-point loop is its three runs of seven edges |
| ContourTracer.LevelEdgeCross | plan_3d_contour.py:131-133 | the shoelace term of one edge, written on its levels |
| ContourTracer.LevelRun0 | plan_3d_contour.py:88-99 | the first seven edge terms, written on the levels |
| ContourTracer.LevelRun1 | plan_3d_contour.py:99-113 | the middle seven edge terms, written on the levels |
| ContourTracer.LevelRun2 | plan_3d_contour.py:113-124 | the last seven edge terms, including the closing edge, written on the levels |
| ContourTracer.LevelLoopShoelace | plan_3d_contour.py:86-125 | the shoelace sum of any loop laid out on the outline's level pattern |
| ContourTracer.ContourSignedArea | plan_3d_contour.py:76-125 | the signed area of the base loop is lc·Lc + 4·wb·lb, which is positive: the loop runs counter-clockwise |
| ContourSimplicity.WithoutRepeat | plan_3d_contour.py:88-92 | dropping the repeated point 2 leaves n - 1 points, in order |
| ContourSimplicity.OnSegmentBounds | plan_3d_contour.py:131-133 | a point of an edge lies in the edge's bounding box |
| ContourSimplicity.TemplateChecks | plan_3d_contour.py:86-125 | the 20 vertices on the integer level grid pass the distinctness, unit-step and corner checks |
| ContourSimplicity.VerticesOkSound | plan_3d_contour.py:86-125 | the range check implies the check of every vertex in the range |
| ContourSimplicity.TemplateSound | plan_3d_contour.py:86-125 | on the level grid, the 20 vertices are pairwise distinct, every edge is one unit step, and consecutive edges turn a corner |
| ContourSimplicity.SamePointSameVertex | plan_3d_contour.py:86-125 | two template vertices on the same grid point are the same vertex |
| ContourSimplicity.UnitStepsMeet | plan_3d_contour.py:131-133 | two unit grid edges whose bounding boxes meet share an endpoint |
| ContourSimplicity.LevelsIncreasing | plan_3d_contour.py:86-125 | the x levels are strictly increasing when wb < lc, and the y levels when wb < Lc |
| ContourSimplicity.LevelOrder | plan_3d_contour.py:86-125 | on strictly increasing levels, index order is coordinate order |
| ContourSimplicity.PolygonLevels | plan_3d_contour.py:86-125 | the 20-point polygon sits vertex by vertex on the level grid |
| ContourSimplicity.ContourSimple | plan_3d_contour.py:86-125 | with wb < lc and wb < Lc, the base loop without its repeated point is a simple closed polygon: its vertices are distinct, non-adjacent edges never meet, and adjacent edges meet only at their shared vertex |
| ContourSimplicity.PolygonDistinct | plan_3d_contour.py:86-125 | a polygon on the template has pairwise distinct vertices |
| ContourSimplicity.PolygonApart | plan_3d_contour.py:131-133 | non-adjacent edges share no point |
| ContourSimplicity.PolygonCorners | plan_3d_contour.py:131-133 | consecutive edges share only their common vertex |
| ContourSimplicity.AxisOverlap | plan_3d_contour.py:131-133 | a coordinate inside two level intervals makes their index intervals overlap |
| ContourSimplicity.MeetingEdges | plan_3d_contour.py:131-133 | two edges that share a point are the same edge or consecutive ones |
| ContourSimplicity.NextInjective | plan_3d_contour.py:131-133 | two vertices with the same successor around the 20-point loop are the same vertex |
| ContourSimplicity.CornerEdges | plan_3d_contour.py:131-133 | at a corner, the two edges meet only at the corner vertex |
| ContourSimplicity.ContourDegenerateAtEquality | plan_3d_contour.py:92-96 | when wb = lc, points 3 and 4 coincide, so the strict conditions are needed |
| WallExtruder.OuterVertices | plan_3d.py:115-118 | the eight outer corners: the base rectangle, then the same at z = height |
| WallExtruder.InnerVertices | plan_3d.py:121-130 | the eight inner corners |
| WallExtruder.InnerOffset | plan_3d.py:115-130 | each inner corner is the matching outer corner moved by +t or -t (inwards) along x and along y, at the same z |
| WallExtruder.InnerNonDegenerate | plan_3d.py:20-22 | the inner rectangle has positive extents exactly when 2t < min(width, depth) |
| WallExtruder.WallFaces | plan_3d.py:133-157 | the wall has exactly 16 faces |
| WallExtruder.BuildWallFaces | plan_3d.py:110-157 | the sixteen appends produce the faces front, back, left, right; per side the outer panel, inner panel, bottom rim and top rim |
| WallExtruder.WallFacesCorners | plan_3d.py:133-157 | each face has 4 corners: per side, the outer panel joins its four outer corners, the inner panel its four inner ones, and each rim joins the outer and inner corners at its height |
| WallExtruder.FrontCorners | plan_3d.py:136-139 | the corners of the four front faces |
| WallExtruder.BackCorners | plan_3d.py:142-145 | the corners of the four back faces |
| WallExtruder.LeftCorners | plan_3d.py:148-151 | the corners of the four left faces |
| WallExtruder.RightCorners | plan_3d.py:154-157 | the corners of the four right faces |
| WallExtruder.WallFacesPlanes | plan_3d.py:133-157 | per side: the first face lies in the side's outer plane, the second in its inner plane, and the third and fourth lie at z = 0 and z = height, each corner in the outer or the inner plane |
| WallExtruder.FrontPlanes | plan_3d.py:136-139 | the planes of the four front faces (y = y and y = y + t) |
| WallExtruder.BackPlanes | plan_3d.py:142-145 | the planes of the four back faces (y = y + depth and y = y + depth - t) |
| WallExtruder.LeftPlanes | plan_3d.py:148-151 | the planes of the four left faces (x = x and x = x + t) |
| WallExtruder.RightPlanes | plan_3d.py:154-157 | the planes of the four right faces (x = x + width and x = x + width - t) |
| WallExtruder.FloorQuads | plan_3d.py:163-208 | there are five floor tiles |
| WallExtruder.BuildFloor | plan_3d.py:163-208 | the appends produce the tiles central, left, right, top, bottom |
| WallExtruder.FloorMatchesParts | plan_3d.py:75-104 | the floor tiles are exactly the base rectangles of the five wall prisms, in the same order, all at z = 0 |
| WallExtruder.FloorArea | plan_3d.py:168-208 | the five tiles' signed areas add up to lc·Lc + 4·wb·lb |
| WallExtruder.TileArea | plan_3d.py:168-173 | an axis-parallel tile listed counter-clockwise has signed area width · depth |
| WallExtruder.BuildCrossStructure | plan_3d.py:56-108 | the structure holds the walls of exactly the five prisms that the packer fills, in the same order, and the floor around the same centre |
| WallExtruder.FloorUnderWalls | plan_3d.py:107-108 | each floor tile is the base of its prism's outer walls |
| WallExtruder.ValidatePlanAsWritten | plan_3d.py:20-24 | the check as written accepts exactly the inputs with five positive dimensions, whatever the thickness |
| WallExtruder.AsWrittenAcceptsThickWalls | plan_3d.py:20-24 | a 1.5 wall on 2-wide arms passes the check as written, although the left arm's inner rectangle then has depth -1 |
| WallExtruder.ValidatePlan | plan_3d.py:20-24 | InvalidDimension exactly when a dimension is not positive; otherwise InvalidWallThickness exactly when t <= 0 or 2t >= the smallest extent |
| WallExtruder.ValidatePlanSound | plan_3d.py:20-24 | the corrected check accepts exactly the plans whose five prisms all have a hollow inside, and accepts nothing the check as written rejects |
| WallExtruder.CreatePlanAsWritten | plan_3d.py:6-36 | as the code does: refuses only a non-positive dimension, and otherwise builds the walls of the five prisms with the given thickness, hollow or not, and the floor |
| WallExtruder.CreatePlan | plan_3d.py:6-36 | with the corrected check in place of line 22: refused inputs give that check's error, including InvalidWallThickness for a thickness the code accepts; accepted ones give the walls of the five prisms, all hollow, and the floor |
| BoxScenario.Container | app.py:69-71 | by definition, the box spans the origin to (width, depth, height) |
| BoxScenario.DiameterWarning | app.py:22-23 | by definition, the first warning fires when the diameter exceeds the smallest extent; `BoxScenario.WarningsAgree` relates it to the second |
| BoxScenario.ValidateBox | app.py:18-20 | the box input is accepted exactly when all four values are positive |
| BoxScenario.WarningsAgree | app.py:22-23 | the diameter warning and the overlap warning always agree |
| BoxScenario.RunBox | app.py:5-105 | refuses non-positive inputs, and otherwise returns the three coordinate lists of the packing, the two warnings, the statistics and the twelve-edge outline |
| BoxScenario.BoxVertices | app.py:115-118 | the box outline has 8 corners |
| BoxScenario.BoxEdges | app.py:121-125 | the box outline has 12 edges, each between two of the corners |
| BoxScenario.BoxOutline | app.py:127-130 | the outline draws 12 segments |
| BoxScenario.BoxOutlineIsWireframe | app.py:115-130 | the corners are those of the outer walls of the same box, and the outline is the wireframe of the base rectangle lifted to full height |
| BoxScenario.BoxDegrees | app.py:121-125 | every corner lies on exactly three edges |
| BoxScenario.BottomDegrees | app.py:121-125 | each of the four bottom corners lies on exactly three edges |
| BoxScenario.TopDegrees | app.py:121-125 | each of the four top corners lies on exactly three edges |
| BoxScenario.BoxEdgesAxisParallel | app.py:115-125 | each edge joins two corners that differ in exactly one coordinate |
| BoxScenario.CubeExample | app.py:36-96 | a 10 x 10 x 10 box with r = 1 holds 125 centres, the first at (1, 1, 1) and the last at (9, 9, 9), and has volume 1000 |
| BoxScenario.CubeFirst | app.py:64-75 | in that box the first centre is (1, 1, 1) |
| BoxScenario.CubeLast | app.py:64-75 | in that box the last centre is (9, 9, 9) |
| BoxScenario.CubeGrid | app.py:36-38 | that box is cut into 5 x 5 x 5 cells |
| CrossScenario.ValidateCrossInput | plan_croix_avec_spheres.py:21-23 | the filled cross is accepted exactly when the five dimensions and the radius are positive |
| CrossScenario.RunCross | plan_croix_avec_spheres.py:5-70 | refuses non-positive inputs, and otherwise returns the coordinate lists of the cross packing and the statistics over the cross volume |
| CrossScenario.StatsVolumeIsPartsVolume | plan_croix_avec_spheres.py:61 | the volume the statistics divide by is that of the five packed prisms |
| CrossScenario.VolumeIsOutlineArea | plan_croix_avec_spheres.py:281-291 | the cross volume is the area enclosed by the traced outline times the height |
| CrossScenario.ValidateOutline | plan_3d_contour.py:21-23 | the outline plan is accepted exactly when the five dimensions are positive |
| CrossScenario.CreateOutline | plan_3d_contour.py:55-151 | a valid cross gives the cross outline, its lift to the height and their wireframe: loops of 21 points and 63 segments, starting at (0, centre_y - wb/2, 0), with positive signed area lc·Lc + 4·wb·lb |

## Left out

- Reading the inputs: `input()`, `float()`, the `ValueError` branches, the menus and the `ImportError` guards are interactive I/O. The inputs are parameters and the refusals are `Err` results.
- Output: the `print` calls, with their rounding to one or two decimals, are not modelled. The values they print are returned instead.
- Rendering: all matplotlib calls are left out. They consume the modelled geometry and compute nothing the model needs. These include `plot3D`, `plot_surface`, `Poly3DCollection`, the colours, the axis limits from `max_dim` and the view angle.
- `dessiner_spheres` is left out because it builds a trigonometric mesh of every sphere for display.
- Floating point: coordinates are exact reals, so IEEE-754 rounding is not modelled.
- The value of pi is a parameter, of which only pi > 0 is used, so the numeric fill percentage is not computed.
- The outline traced by `dessiner_contour_croix_3d` in `plan_croix_avec_spheres.py:166-248` is the same literal as in `plan_3d_contour.py`. It is modelled once, by `ContourTracer.ContourBase` and `ContourTracer.CrossOutline`.
- ContourSimplicity.ContourSimple: simplicity is proved only for arms strictly narrower than the central block on both axes (wb < lc and wb < Lc). At equality two vertices coincide (`ContourSimplicity.ContourDegenerateAtEquality`), so the polygon is not simple. The signed area (`ContourTracer.ContourSignedArea`) holds for every input.
- SpherePacker.PackRectangle: the number of centres it prints is not part of its contract. The count nx·ny·nz is stated about the packing by `SpherePacker.CentresLength`.

## Findings

| source | as written | input that shows it | evidently intended | confidence | as-written member | corrected member |
|---|---|---|---|---|---|---|
| plan_3d.py:22 | the positivity check lists the five dimensions but not `epaisseur_mur`, so any wall thickness is accepted | central block 4 x 4, arms 2 wide and 3 long, height 5, wall 1.5: accepted, the left arm's inner rectangle has depth 2 - 2·1.5 = -1 | reject a thickness that is not positive or not below half of every prism extent (InvalidWallThickness) | not executed | WallExtruder.AsWrittenAcceptsThickWalls | WallExtruder.CreatePlan |
