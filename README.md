# circloO helper, modelled in Dafny

circloO helper is a Python toolkit that writes level files for the game
circloO. A level file is a header followed by object blocks. Each block is
one line of space-separated attributes (a tag such as `c` or `b`, then the
numbers the object needs). Modifier lines may follow it, and a connection
object (a rope, a hinge) is preceded by two `> id` lines naming the objects
it ties together. When the level enumerates its objects, each block ends
with a `< n` footer giving its index.

This project models the core of the toolkit:

- the `Object` class, with its serialisation (`to_str`), its parser (`parse`)
  and its position accessors (`object.dfy`, `positions.dfy`);
- the catalogue of object factories in `objects.py`, including collectables
  with their modifiers and sounds (`catalogue.dfy`);
- the `Level` container, which numbers its objects and renumbers them on
  insert and remove (`level.dfy`);
- `ObjectGroup`, which moves a group of objects together (`groups.dfy`);
- the image pipeline: pixel builders, downsampling, and the greedy
  decomposition that merges runs of pixels into rectangles, first along rows
  and then down columns (`builders.dfy`, `grid.dfy`, `runs.dfy`);
- the video pipeline's merge of equal frames over time (`frames.dfy`);
- the point plotters that join points with lines or ropes (`plotters.dfy`).

Supporting modules:

- `text.dfy` models the Python string operations the source relies on: `str`
  and `int` on integers, `str.split()`, `str.splitlines()` and `join`.
- `wrappers.dfy` holds `Option` and `Result`.

A Python exception is modelled as an `Err` carrying one of `IndexError`,
`TypeError`, `ValueError`, `ConnectionError` or `PositionError`.

An attribute is either an integer or a string (`Attr = I(int) | S(string)`),
and it is rendered as a decimal number or written verbatim. Every numeric
argument of a factory is therefore an integer; "## Left out" lists what
this leaves out.

Objects are mutable in the source, so `Object`, `Level` and `ObjectGroup`
are classes whose methods update their fields. Each method's `ensures` ties
the new state to a specification function, and the lemmas prove the
properties of those functions. Numpy image arrays are `array3<int>` and are
updated in place. The same operations are also described by functions on
sequence values (`Image`), and those functions carry the lemmas.

## Model

| member | source | states |
|---|---|---|
| LevelObject.Object.constructor | circloo_helper/object.py:2-23 | the new object holds exactly the given attributes, modifiers, connections, id and kind, with no position count |
| LevelObject.Object.SetId | circloo_helper/object.py:26-27 | sets the id and leaves every other field as it was |
| LevelObject.Object.IncrementId | circloo_helper/object.py:32-33 | the id grows by exactly n |
| LevelObject.Object.SetAttributes | circloo_helper/object.py:37-38 | the attribute list is replaced by the given one |
| LevelObject.Object.SetConnections | circloo_helper/object.py:40-44 | succeeds iff exactly two endpoints are given, and only then replaces the connections; otherwise ConnectionError, and nothing changes |
| LevelObject.Object.AddModifier | circloo_helper/object.py:46-47 | appends one modifier line at the end |
| LevelObject.TagOf | circloo_helper/object.py:49-52 | the tag is the first attribute, or "/ word" when the first attribute is "/"; IndexError on an empty list, TypeError when the word after "/" is not a string |
| LevelObject.ToInt | circloo_helper/object.py:58-59 | `int()` on an attribute: an integer is returned as is; failure is a ValueError |
| LevelObject.ReadPairs | circloo_helper/object.py:54-73 | reading n positions yields exactly n pairs when it succeeds |
| Positions.ReadPairsAll | circloo_helper/object.py:61-73 | when each of the first n pairs reads successfully, get_position returns exactly those pairs, in order |
| LevelObject.Object.SetPosition | circloo_helper/object.py:75-106 | the new attributes are those of SetPositions on the old attributes, including the writes made before a raise; the exception is SetPositions' own, except that set_position's own exception becomes TypeError when the object cannot be formatted into its message (`{self}` calls to_str, object.py:118-123, 129-130) |
| Positions.SetPositionsFrame | circloo_helper/object.py:75-106 | set_position keeps the attribute count, and every attribute it changes becomes the requested coordinate for that slot |
| Positions.SetPositionsSucceeds | circloo_helper/object.py:82-106 | set_position succeeds iff the object has a nonzero position count and every requested position k satisfies k == 1 or k <= count, and its slot exists |
| Positions.SetPositionsWithoutCount | circloo_helper/object.py:82-86 | with no position count, or a count of 0, nothing is written; the exception is set_position's own, or TypeError when the object's connections cannot be written into the message |
| Positions.WriteOptionalSucceeds | circloo_helper/object.py:88-106 | an optional position is written without error iff it is absent, or its index is within the count and its slot exists |
| Positions.SetPositionsIdempotent | circloo_helper/object.py:75-106 | calling set_position twice with the same arguments gives the same attributes and error as calling it once |
| Positions.SetThenGet | circloo_helper/object.py:54-106 | after setting all n positions of an object, get_position returns exactly the requested pairs |
| LevelObject.Object.Copy | circloo_helper/object.py:110-113 | a fresh object with equal attributes, modifiers, connections, id and position count, whose kind is the plain base Object |
| LevelObject.Object.EndpointIds | circloo_helper/object.py:119-123 | succeeds iff there are no connections, or the first two are objects; then gives their ids; otherwise TypeError |
| LevelObject.Object.ToStr | circloo_helper/object.py:115-127 | succeeds iff the endpoint ids can be read; the text is the joined connection lines, attribute line, modifier lines and optional `< id` footer |
| LevelObject.SerializeAsLines | circloo_helper/object.py:115-127 | the line-list view equals the source's concatenation `connstr + primary + secondary + line` |
| LevelObject.SerializedLinesSplit | circloo_helper/object.py:134 | `splitlines` on a serialised block gives back its lines |
| LevelObject.TokensOfLine | circloo_helper/object.py:116 | `split()` on the attribute line gives back the rendered attributes |
| LevelObject.Parse | circloo_helper/object.py:133-154 | the parsed object agrees with the functional parser ParseGroup: same attributes, modifiers and resolved connections, or the same error; the object is fresh |
| LevelObject.ParseLinked | circloo_helper/object.py:140-146 | for a block whose first line is `>`, the result agrees with ParseLines: the attributes come from line 2, and the two ids resolve through object_at |
| LevelObject.ParseUnconnected | circloo_helper/object.py:148-152 | parsing a serialised unconnected block gives back its attributes (as reparsed tokens) and modifiers; the footer is dropped |
| LevelObject.ParseConnected | circloo_helper/object.py:140-146 | parsing a serialised connected block gives back the attributes, the modifiers and the two objects named by the `>` lines |
| Text.IntRoundTrip | circloo_helper/object.py:141 | `int(str(n)) == n` for every integer n |
| Text.IntToStringInjective | circloo_helper/object.py:121 | distinct ids are written as distinct text |
| Text.SplitJoin | circloo_helper/object.py:116 | `split()` undoes `' '.join` on nonempty tokens with no whitespace |
| Text.SplitLinesJoin | circloo_helper/object.py:134 | `splitlines()` undoes `'\n'.join` on lines with no line break |
| Catalogue.Make | circloo_helper/objects.py:4-612 | the object each factory builds has the factory's attribute layout, modifiers and connection endpoints, id -1, no position count and its subclass as kind |
| Catalogue.IntValues | circloo_helper/objects.py:4-465 | apart from the springy rectangle, slider and special connection, every attribute after the tag is an integer |
| Catalogue.GeneratorFrames | circloo_helper/objects.py:251-332 | a generator's last three attributes are 60 × disappear_after, 60 × wait_between and 60 × init_delay |
| Catalogue.DampingTwice | circloo_helper/objects.py:167-183 | a moveable rectangle and a rectangle generator write damping at both positions 6 and 8 |
| Catalogue.BooleansAsBits | circloo_helper/objects.py:377-431 | the boolean flags of PortalRope and Hinge are written as 1 or 0 |
| Catalogue.Ends | circloo_helper/objects.py:351-466 | a connection factory has exactly two endpoints, and any other factory has none |
| Catalogue.OptionsDistinct | circloo_helper/objects.py:4-250 | the optional modifier lines of one factory are pairwise distinct |
| Catalogue.ModifierIffCondition | circloo_helper/objects.py:4-250 | an optional modifier line appears iff its flag is set |
| Catalogue.SelectedOrder | circloo_helper/objects.py:4-250 | selected modifier lines keep the order in which the source appends them |
| Catalogue.ModifiersSingleLine | circloo_helper/objects.py:4-612 | no modifier line contains a line break, so the serialised block splits back into its lines |
| Catalogue.InitModifiers | circloo_helper/objects.py:485-497 | appends exactly the selected segment, zoom and trigger lines to the modifiers |
| Catalogue.SetSound | circloo_helper/objects.py:499-514 | appends exactly one `sfx` line built from the group, note, volume, pitch and play arguments |
| Catalogue.SoundLineTokens | circloo_helper/objects.py:499-514 | the sfx line has no line break and splits into five tokens: sfx, the sound name, volume, pitch and play |
| Catalogue.Mute | circloo_helper/objects.py:516-517 | appends exactly the line `sfx 'none'` |
| Catalogue.LettersIdentify | circloo_helper/objects.py:468-612 | two collectables have the same quoted letters iff they are the same subclass with the same collect_from_object flag |
| Catalogue.IndexIdentifies | circloo_helper/objects.py:468-612 | the index into the letter table is an injective code of (subclass, collect_from_object) |
| Catalogue.LayoutTokenizable | circloo_helper/objects.py:4-612 | a layout re-splits into its own attributes iff the factory is not an Arc, Glue, Pulley or collectable, and its free-text values have no spaces |
| Catalogue.SlashTagSurvives | circloo_helper/objects.py:76-414 | for the "/ word" tags of Arc, Glue and Pulley, get_tag after a reparse returns the same tag |
| Catalogue.CollectableTagSplits | circloo_helper/objects.py:468-483 | a collectable's two-word tag splits into `ic` and the quoted letters when reparsed, so get_tag then answers `ic` |
| Catalogue.FactoryRoundTrip | circloo_helper/objects.py:4-612 | a serialised unconnected factory object parses back to its attributes and modifiers |
| Catalogue.ConnectedRoundTrip | circloo_helper/objects.py:351-466 | a serialised connection parses back to its attributes, its modifiers and the two objects it joins |
| LevelFile.Level.constructor | circloo_helper/level.py:7-34 | a new level holds no objects and keeps the given header settings |
| LevelFile.Level.Add | circloo_helper/level.py:38-42 | appends a fresh copy of the object, whose id is its index, and keeps the numbering |
| LevelFile.Level.Insert | circloo_helper/level.py:44-52 | inserts a copy at Python's clamped index and renumbers as the loop does, including for negative lines; IndexError iff the line is below -n-2 |
| LevelFile.InsertIndex | circloo_helper/level.py:46 | the position `list.insert` uses: the line itself when in range, line + n when negative, clamped to 0..n |
| LevelFile.InsertedNumbering | circloo_helper/level.py:44-52 | inserting at a line from 0 to n keeps the ids equal to the indices 0..n |
| LevelFile.Level.Replace | circloo_helper/level.py:54-61 | for a line in -n..n-1, returns the old object and puts a copy with id line at that index; otherwise IndexError and no change |
| LevelFile.Level.Remove | circloo_helper/level.py:63-72 | pops the object at the wrapped index and renumbers as the loop does; IndexError iff the line is out of range or equals -n |
| LevelFile.RemovedNumbering | circloo_helper/level.py:63-72 | removing a line from 0 to n-1 keeps the ids equal to the indices 0..n-2 |
| LevelFile.FixedInsertKeepsNumbering | circloo_helper/level.py:44-52 | renumbering from the clamped insert index keeps the ids equal to the indices for every line |
| LevelFile.FixedRemoveKeepsNumbering | circloo_helper/level.py:63-72 | renumbering from the wrapped index keeps the ids equal to the indices for every valid line |
| LevelFile.InsertNegativeMisnumbers | circloo_helper/level.py:44-52 | insert(-1) on ids [0, 1, 2] leaves [1, 2, 0, 3] |
| LevelFile.RemoveNegativeMisnumbers | circloo_helper/level.py:63-72 | remove(-1) on ids [0, 1, 2] leaves [-1, -1] |
| LevelFile.Level.ObjectAt | circloo_helper/level.py:74-76 | Python indexing: the object at the wrapped index iff the line is in -n..n-1, otherwise IndexError |
| LevelFile.Level.GetLen | circloo_helper/level.py:78-80 | the number of objects |
| LevelFile.HeaderOptionalLines | circloo_helper/level.py:84-103 | the header has 11 fixed lines, plus `recommend_sfx` iff it is requested and a `music` line iff a track is set |
| LevelFile.BaseHeaderNoBreak | circloo_helper/level.py:84-97 | no fixed header line contains a line break |
| LevelFile.HeaderSplitsIntoLines | circloo_helper/level.py:84-103 | the header text splits back into exactly its lines |
| LevelFile.Level.MakeHeader | circloo_helper/level.py:84-103 | the header is its lines joined by line breaks |
| LevelFile.Level.ToStr | circloo_helper/level.py:105-113 | the header followed by every object's enumerated text; TypeError as soon as one object's connections cannot be written |
| LevelFile.TextsOk | circloo_helper/level.py:105-113 | the level text exists iff every object's to_str succeeds |
| LevelFile.TextsValues | circloo_helper/level.py:105-113 | the k-th block of the level text is the k-th object's enumerated text |
| LevelFile.FootersAreIndices | circloo_helper/level.py:105-113 | in a correctly numbered level, the footer of block i is `< i` |
| Groups.NewGroup | circloo_helper/object_groups.py:7-12 | a group succeeds iff the first member's position and every member's offsets can be read; it keeps the members, the primary position and the offsets |
| Groups.ObjectGroup.Empty | circloo_helper/object_groups.py:7-11 | a group with the given members and primary position, and no offsets yet |
| Groups.ObjectGroup.FindPositionOffset | circloo_helper/object_groups.py:18-36 | appends the member's offsets when they can be read, and reports the error otherwise |
| Groups.ObjectGroup.FindPositionOffsets | circloo_helper/object_groups.py:14-16 | the offsets become AllOffsets of the members, or the first error |
| Groups.PlainOffset | circloo_helper/object_groups.py:21-34 | a non-rectangle's offset is its position minus the primary position |
| Groups.CreatedShape | circloo_helper/object_groups.py:7-36 | a created group has one offset list per member, as long as that member's position count |
| Groups.OffsetPairsValues | circloo_helper/object_groups.py:20-36 | the k-th offset of a member is the offset computed from its k-th position |
| Groups.NoCountNoGroup | circloo_helper/object_groups.py:19-20 | a member with no position count makes the group fail |
| Groups.ObjectGroup.Add | circloo_helper/object_groups.py:38-46 | adds the objects, nested lists included, one by one, computing each offset, and stops at the first error, keeping what was added before it |
| Groups.ObjectGroup.AddAll | circloo_helper/object_groups.py:48-51 | adds every item of a list in order, with the same stop-at-first-error rule |
| Groups.GrowOk | circloo_helper/object_groups.py:38-51 | when no error occurs, every added object contributes exactly its own offsets, after the old ones |
| Groups.GrowOther | circloo_helper/object_groups.py:38-46 | an item that is neither an object nor a list makes add fail |
| Groups.ObjectGroup.MovePrimary | circloo_helper/object_groups.py:59-70 | the first member's positions are all set to the target |
| Groups.ObjectGroup.MoveMember | circloo_helper/object_groups.py:72-100 | member k is moved to the target plus its offsets |
| Groups.ObjectGroup.SetPosition | circloo_helper/object_groups.py:53-100 | every member's attributes become Moved of the old members, and the error is that of the first member that fails |
| Groups.PrimaryPlaced | circloo_helper/object_groups.py:60-70 | after a move, every position of the first member reads back as the target |
| Groups.MemberPlaced | circloo_helper/object_groups.py:83-100 | after a move, position j of member k reads back as the target plus offset j |
| Groups.UnplacedUntouched | circloo_helper/object_groups.py:79-81 | a member whose position count is 0 or less is left as it was |
| Groups.MoveStops | circloo_helper/object_groups.py:53-100 | members before the first failure are moved, later ones are untouched, and that failure is the error |
| Groups.MoveIdempotent | circloo_helper/object_groups.py:53-100 | moving a group twice to the same position changes nothing more than moving it once |
| Groups.ObjectGroup.Copy | circloo_helper/object_groups.py:108-112 | a fresh group of distinct fresh plain copies, one per member in order, each with its original's attributes, position count, modifiers, connections and id; the offsets are recomputed without the rectangle correction |
| Groups.ObjectGroup.Duplicate | circloo_helper/object_groups.py:114-118 | the error is that of building the copy or of moving it; otherwise a fresh group of distinct fresh copies with the originals' modifiers, connections, ids and position counts, the copy's primary and offsets, and attributes moved to the target; the original group is not changed |
| Groups.CopyMovesRectangles | circloo_helper/object_groups.py:108-118 | a rectangle's offset changes from (5, 5) to (10, 10) when the group is copied, so the duplicate lands elsewhere |
| Groups.ObjectGroup.CopyKeepingKinds | circloo_helper/object_groups.py:108-112 | a fresh group of distinct fresh copies keeping every member's kind, attributes, position count, modifiers, connections and id; it has exactly the original's offsets |
| Groups.ObjectGroup.DuplicateKeepingKinds | circloo_helper/object_groups.py:114-118 | duplicating with the kinds kept gives distinct fresh copies with the originals' modifiers, connections, ids and position counts, moved as set_position on the original would move them |
| Runs.RunLengthsEncode | circloo_helper/image_converter.py:140-152 | the row pass writes each maximal run of 1s as its length in the run's first cell and 0 in the others; other cells are kept |
| Runs.RunLengthsSum | circloo_helper/image_converter.py:140-152 | the row pass keeps the sum of the row |
| Runs.StackedIsExpected | circloo_helper/image_converter.py:154-185 | the column pass leaves zero cells alone, clears a cell equal to the one above it, and gives each run head the run's height in channel 1 |
| Runs.StackedCells | circloo_helper/image_converter.py:154-185 | each cell after the column pass is kept, cleared, or a run head of height at least 1 with its other channels kept |
| Runs.StackedArea | circloo_helper/image_converter.py:154-185 | the column pass keeps the total width × height over the column |
| Grid.HorizontalRows | circloo_helper/image_converter.py:140-152 | the row pass encodes channel 0 of each row and keeps the other channels |
| Grid.DecomposedHeights | circloo_helper/image_converter.py:154-185 | every nonzero cell of the decomposition has height at least 1 |
| Grid.DecomposedTotal | circloo_helper/image_converter.py:137-186 | the rectangles cover exactly as many pixels as the binary image has set |
| Grid.HorizontalTotal | circloo_helper/image_converter.py:140-152 | the row pass keeps the number of set pixels |
| Grid.VerticalTotal | circloo_helper/image_converter.py:154-185 | the column pass keeps the covered area |
| Grid.GreedyDecomposition | circloo_helper/image_converter.py:137-186 | updates the array in place into the decomposition of its old contents and returns it (image_converter/image_converter.py:168-217 is the same code) |
| Grid.GreedyVideo | circloo_helper/video_converter.py:149-202 | the three-channel array built from a binary frame, decomposed as above |
| Grid.Downsample | circloo_helper/image_converter.py:73-76 | `image[::f, ::f]` fails (ValueError) iff f is 0 |
| Grid.DownsamplePicks | circloo_helper/image_converter.py:73-76 | the downsampled image keeps every f-th row and column (counted from the end when f < 0), and its size is the ceiling of size / f |
| Grid.SliceLength | image_converter/image_converter.py:76-79 | a stepped slice has ceil(n / step) elements |
| Grid.SliceAt | image_converter/image_converter.py:76-79 | element k of a stepped slice is element k·step of the input |
| Frames.GreedyTime | circloo_helper/video_converter.py:205-244 | updates every cell of every frame in place as GreedyTimeCell does on that cell's timeline; IndexError on an empty list |
| Frames.ChannelsKeptOrCleared | circloo_helper/video_converter.py:216-238 | every frame keeps its (w, h), or it is cleared after an equal full frame that then shows for 2 frames |
| Frames.TotalIsShownFrames | circloo_helper/video_converter.py:205-244 | the frame counts in channel 2 add up to the number of frames where something is shown |
| Frames.ContinuingIsDead | circloo_helper/video_converter.py:229-232 | the branch that continues a merge never fires |
| Frames.SplitsRun | circloo_helper/video_converter.py:216-238 | three equal full frames become [shown for 2, blank, shown for 1] |
| Frames.FixedCollapses | circloo_helper/video_converter.py:216-238 | with the continuing branch comparing against the run's first frame, each run of equal full frames shows from its first frame for the run's length |
| Frames.FixedRun | circloo_helper/video_converter.py:229-232 | with that branch fixed, three equal full frames become [shown for 3, blank, blank] |
| Builders.HitsExactly | circloo_helper/pixel_builder.py:16-21 | the scanned cells are exactly those whose value passes the test, in row-major order |
| Builders.BuildRectangles | circloo_helper/pixel_builder.py:4-23 | one rectangle per pixel equal to 1, in row-major order |
| Builders.BuildRectanglesCells | circloo_helper/pixel_builder.py:4-23 | each rectangle is a size × size square at (2·size·column + start_x, 2·size·row + start_y), and every 1 pixel has one |
| Builders.BuildText | pixel_builder.py:4-36 | the text is the joined object lines, with numbered footers when line_nums is set |
| Builders.BuildTextLines | pixel_builder.py:4-36 | one object line per 1 pixel, in row-major order; with line_nums, footers count from start_line; without it, there are no footers |
| Builders.ReducedBuild | circloo_helper/image_converter.py:115-134 | one rectangle per cell with a positive width, in row-major order |
| Builders.ReducedBuildCells | circloo_helper/image_converter.py:115-134 | each rectangle has width size·w and height size·h, and its corner sits on the cell's grid point |
| Builders.ReducedText | image_converter/image_converter.py:141-165 | the text is the joined listing of the positive cells, with footers iff start_line >= 0 |
| Builders.ListingNumbered | image_converter/image_converter.py:141-165 | the loop's listing is the cell lines numbered from 0 |
| Builders.ReducedTextNumbered | image_converter/image_converter.py:141-165 | with numbering on, cell k's line is followed by the footer `< k`, whatever start_line is |
| Builders.ReducedTextPlain | image_converter/image_converter.py:141-165 | with numbering off, the text is the cell lines alone |
| Builders.FixedReducedTextNumbered | image_converter/image_converter.py:141-165 | with the counter starting at start_line, cell k's footer is `< start_line + k` |
| Plotters.SpanIsPath | circloo_helper/plotters.py:42-46 | the point pairs form a path through the points, closed back to the first point when close is set |
| Plotters.PolylineIsPath | circloo_helper/plotters.py:42-48 | n-1 lines (plus one when closed) of the given thickness, line k starting at point k, each starting where the previous one ends |
| Plotters.LinePlotter | circloo_helper/plotters.py:42-48 | the lines of Polyline; IndexError iff close is set and there are no points |
| Plotters.RopesArePath | circloo_helper/plotters.py:51-60 | after the two placeholders, one rope per segment, tied to both placeholder lines, with offsets following the points |
| Plotters.RopePlotter | circloo_helper/plotters.py:51-60 | two distinct fresh Line(0, 0, 0, 0) placeholders, then the ropes of the path; IndexError iff close is set and there are no points |
| Plotters.PlotPoints | circloo_helper/plotters.py:63-77 | "line" and "rope" dispatch to the two plotters; any other mode gives None |
| Plotters.AdjustPoints | circloo_helper/plotters.py:80-83 | each point becomes (scale·x + start_x, scale·y + start_y), in place |
| Plotters.AdjustedIdentity | circloo_helper/plotters.py:80-83 | adjusting by (0, 0, 1) changes nothing |
| Plotters.AdjustedTwice | circloo_helper/plotters.py:80-83 | two adjustments compose into one, with scale s2·s1 and offsets s2·x1 + x2 and s2·y1 + y2 |

## Left out
- LevelFile.Level.constructor: segments, grav_scale, grav_dir and color are integers. level.py:8-12 also accepts floats, which make_header prints as Python writes them (level.py:93-96); float text is not modelled.
- Plotters.AdjustPoints: scale and offsets are integers. plot_image may pass floats (plotters.py:86, 103), which are not modelled.
- Text.ParseInt: accepts an optional sign and ASCII digits only. int() also accepts underscores between digits (`1_000`) and non-ASCII decimal digits, which are not modelled.

- Builders.ReducedText: the source computes on a float64 array built by reduce_channels (image_converter/image_converter.py:124-138), so it prints `b 1501.0 1501.0 1.0 1.0 0`. The model uses integers and prints `b 1501 1501 1 1 0`. Python's float formatting is not modelled.
- Builders.ReducedText: it takes the image's contents as a value rather than the numpy array, because reduced_build only reads the array.
- Builders.ReducedBuild: the source reads a float32 array (circloo_helper/image_converter.py:110), so its rectangles carry floats. The model uses an `array3<int>`.
- Grid.GreedyDecomposition: the float arrays of the source are `array3<int>`; the counts it writes are the same integers.
- Grid.GreedyVideo: as for GreedyDecomposition, the float array is an `array3<int>`.
- Frames.GreedyTime: the float frames are `array3<int>`.
- Frames.GreedyTime: it requires every frame to have frame 0's shape, with three channels, and no array listed twice. The source indexes every frame at frame 0's cells: a smaller frame raises IndexError, and a repeated array is updated twice. Neither case is modelled.
- Groups.ObjectGroup.SetPosition: it requires the members to be distinct objects. In the source, a member listed twice is moved twice; with aliasing, the second move reads the first move's writes, and this is not modelled.
- Groups.NewGroup: the group keeps the members as a sequence value. The source keeps the caller's list itself (object_groups.py:9), so `add` also grows that list. The model does not capture this aliasing.
- Groups.ObjectGroup.Add: objects and lists are told apart by the `Item` datatype. Any other item is the `Other` case, which raises the same error the source does.
- LevelFile.Level.Insert: it requires the objects to be distinct (`Distinct`), an invariant that every Level method keeps. The source's list could hold one object twice only if it were edited from outside.
- LevelFile.Level.Remove: the same `Distinct` invariant as Insert.
- Plotters.LinePlotter: points are integer pairs, and the lines are returned as factory values. Catalogue.Make turns a factory value into an Object.
- Plotters.RopePlotter: the ropes are factory values. The two placeholder lines are real Objects, because the ropes must refer to them.
- Builders.BuildRectangles: the rectangles are returned as factory values.
- Catalogue.Make: every numeric argument is an integer, so the fractional defaults (damping .3, the float sizes) are written as integers. `str()` of a Python float is not modelled.
- Catalogue.SetSound: a string group is given directly; the source's formatting of non-string groups is not modelled.
- object_groups.py:102-106 (`ObjectGroup.__str__`) only concatenates the members' to_str and is not modelled.
- plotters.py:7-39 (get_all_edge_points) and plotters.py:86-107 (plot_image) read images through OpenCV. They are not modelled.
- video_converter.py: video_to_circloo, ordered_dither, binarize and reduced_build read video files or compute in floating point. They are not modelled.
- image_converter.py (both copies): image_to_circloo, floyd_steinberg, build and reduce_channels read image files or compute in floating point. They are not modelled.
- Level.to_file, text_to_file and push_to_android write files or call adb. They are not modelled.
- The random default colour of a level is taken as a parameter.

## Findings

| source | as written | input that shows it | evidently intended | confidence | as-written member | corrected member |
|---|---|---|---|---|---|---|
| circloo_helper/video_converter.py:229-232 | The continuing branch compares the next frame with `cur`, which was already cleared to 0 by the previous merge. So the branch never fires, and runs are merged only in pairs. | a cell with the same nonzero (w, h) in frames 0, 1 and 2 becomes [t = 2, blank, t = 1] | the whole run collapses into its first frame: [t = 3, blank, blank] | medium, not executed | Frames.ContinuingIsDead, Frames.SplitsRun | Frames.FixedTimeCell, Frames.FixedCollapses |
| circloo_helper/object_groups.py:108-118 | copy() builds members with Object.copy(), which returns a plain Object. The new group's offsets then miss the rectangle's (w, h) correction, so duplicate() places rectangles elsewhere. | members [circle at (0, 0) r 5, rectangle at (10, 10) 5 × 5]: the offsets become (10, 10) instead of (5, 5) | the copy has the original's offsets | medium, not executed | Groups.CopyMovesRectangles | Groups.ObjectGroup.CopyKeepingKinds, Groups.ObjectGroup.DuplicateKeepingKinds |
| image_converter/image_converter.py:146 | `cur_line = 0` numbers the footers from 0, whatever start_line is | start_line = 10 with two positive cells gives footers `< 0`, `< 1` | footers from start_line, as pixel_builder.py:20 does | low (the sibling `build` also starts at 0), not executed | Builders.ReducedTextNumbered | Builders.FixedReducedLines, Builders.FixedReducedTextNumbered |
| circloo_helper/level.py:44-52, 63-72 | A negative line goes straight into the renumbering loops, which then start at a negative index and renumber some objects twice. | insert(-1, o) on ids [0, 1, 2] gives [1, 2, 0, 3]; remove(-1) on [0, 1, 2] gives [-1, -1] | ids equal indices after either call | medium, not executed | LevelFile.InsertNegativeMisnumbers, LevelFile.RemoveNegativeMisnumbers | LevelFile.FixedInsertKeepsNumbering, LevelFile.FixedRemoveKeepsNumbering |
