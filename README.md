# IMVWebServer request core, in Dafny

IMVWebServer is a small HTTP render server. A GET on `/get` carries a
list of query parameters; the name of the first one picks a use case:

- `molecule`: a protein read from a PDB file;
- `model`: a triangle model read from an `.irt` file;
- anything else: a 3D bar chart.

The matching interpreter (`parsePDB`, `parseIRT`, `parseChart`) walks
the parameters into an info record, last value wins, and logs them as
`name=value&...`. The render function (`renderPDB`, `renderIRT`,
`renderChart`) then sets primitives in the GPU kernel, runs the
accumulation loop and writes a JPEG. `saveToJPeg` reads that file back
and answers with a `data:image/jpg;base64,` URL made by `base64_encode`.
The server keeps its state in globals:

- the kernel;
- the current use case and its value, which decide whether the kernel is
  destroyed and rebuilt or the scene is reused;
- the request log per caller address and the call counter;
- the round-robin protein index;
- the window size.

The modules follow the source:

- `Common`: shared values. These are float triples, parameters, and
  `atoi`/`atof` passed in as functions.
- `Fields`: the comma-list readers and `saturatefloat4`.
- `Scene`: scene and post-processing records, their defaults, and the
  post-processing, shadow and background rules.
- `Engine`: the kernel as the server sees it. It holds a map of slots to
  primitives, the number of active slots, and the trace of every adapter
  call.
- `Requests`: the three parameter walks. Each is a method with a loop,
  proved equal to a fold (`ChartOf`, `MoleculeOf`, `IrtOf`). Lemmas show
  the fold keeps the last value of every parameter.
- `Base64`: the encoder over an array, proved to produce the encoding of
  section 4 of RFC 4648. A decoder shows the encoding loses nothing.
- `Render`: the three render functions and `saveToJPeg`, as kernel
  calls. The chart layout is given as a list of primitives and a slot
  function.
- `WebServer`: `parseURL` and `onGet` over a `Server` class holding the
  globals.

Where the server's documentation and its code differ, the model follows
the code:

- `bkcolor` divides by 255 and only then clamps to [0, 255]. A colour is
  therefore not limited to [0, 1] (`Requests.BackgroundRange`).
- A chart gets random series only when a `values` parameter is present,
  ten per series for each such parameter. Its value is ignored.
- In a chart, `postprocessing` sets the chart type and not the
  post-processing type. In a model request it has no effect at all.
- The model-reuse test compares the *first* parameter with the stored
  model name, but `parseIRT` uses the *last* `model` parameter
  (`WebServer.ModelReuseReadsFirstName`).
- On a reused chart scene, the two side walls are written ten slots past
  where a fresh build puts them (`Render.ChartGap`). `gChartStartIndex`
  is only ever assigned its own value (`Render.BuildChart`).

## Model

| member | source | states |
|---|---|---|
| Fields.ReadFloats | IMVWebServer.cpp:194-215 | the vector keeps its old contents as a prefix and gains `atof` of every comma-closed field (an empty one gives `atof("")`), plus one for a non-empty trailing field; its length grows by the number of commas plus that one |
| Fields.ScanInverse | IMVWebServer.cpp:196-210 | the reader's character walk loses nothing: joining the closed fields with commas and appending the pending element gives the string back; no field holds a comma; there is one field per comma |
| Fields.ScanJoined | IMVWebServer.cpp:196-210 | the walk inverts joining: comma-free fields joined with commas are split back into exactly those fields |
| Fields.ScanNoSeparator | IMVWebServer.cpp:206-209 | comma-free text only extends the pending element |
| Fields.FieldValuesLength | IMVWebServer.cpp:198-214 | one number per comma, and one more exactly when the trailing field is non-empty |
| Fields.Converted | IMVWebServer.cpp:202 | one converted number per closed field |
| Fields.ReadFloat3 | IMVWebServer.cpp:217-245 | the result is x, y, z from the fields closed by the first, second and third comma; a non-empty trailing field overwrites z; missing fields stay 0 |
| Fields.ReadFloat3WithoutComma | IMVWebServer.cpp:222-243 | a comma-free string sets only z, and the empty string gives (0, 0, 0) |
| Fields.ReadFloat3OfFields | IMVWebServer.cpp:222-243 | on joined fields the first three land in x, y, z and a non-empty trailing field wins z, so "1,2" gives (1, 0, 2) |
| Fields.Saturate | IMVWebServer.cpp:184-192 | for min <= max, x, y and z end in [min, max]; a channel already in range is kept; w is never touched |
| Fields.SaturatedIdempotent | IMVWebServer.cpp:184-192 | saturating twice is saturating once, for any bounds (with min > max every channel ends at max) |
| Scene.EffectsParameters | IMVWebServer.cpp:687-690 | post-processing keeps its type; param1 is minus the camera-target depth; param2 is ten per iteration without effects and 5000 otherwise; param3 is 16 exactly under ambient occlusion, else 40 + 5 per iteration |
| Scene.LightingRules | IMVWebServer.cpp:693-699 | shadows are on exactly when the type is not 2; the background is black under type 2 and unchanged otherwise; nothing else changes |
| Engine.PlacedSlots | IMVWebServer.cpp:519-527 | `update ? addPrimitive : slot` then `setPrimitive`: when appending, the primitive goes to the first inactive slot and one more slot is active; when overwriting, the active count stays; every other slot keeps its content |
| Engine.PassesInOrder | IMVWebServer.cpp:702-711 | the render loop issues exactly n passes, none if n <= 0; pass i takes calls 5i to 5i + 4 and carries iteration i |
| Engine.Kernel.constructor | IMVWebServer.cpp:345 | a new kernel has no primitive and no call |
| Engine.Kernel.Log | IMVWebServer.cpp:346-348 | a call with an effect inside the kernel is appended to the trace and changes no slot |
| Engine.Kernel.AddPrimitive | IMVWebServer.cpp:915 | hands out the next slot and makes it active |
| Engine.Kernel.SetPrimitive | IMVWebServer.cpp:916 | writes exactly the given slot |
| Engine.Kernel.Load | IMVWebServer.cpp:1118 | a file reader appends its primitives after the active ones |
| Engine.Emit | IMVWebServer.cpp:519-527 | one primitive, appended when `update` and written at the given slot otherwise |
| Engine.RenderPasses | IMVWebServer.cpp:702-711 | the accumulation loop adds the passes of `PassesInOrder` and changes no primitive |
| Requests.MoleculeDefaults | IMVWebServer.cpp:963-972 | a molecule starts from the current protein, with a structure in [0, 4] and a scheme in [0, 2] drawn from `rand()` |
| Requests.SizeSquareOrder | IMVWebServer.cpp:806-816 | for codes 1 to 5 a larger code gives a strictly larger square, all in [1024, 4096]; any other code gives the fallback (512 or 768) |
| Requests.Capped | IMVWebServer.cpp:795-799 | quality is cut to the cap (100 for chart and model, 20 for molecule) and has no lower bound |
| Requests.ZeroUnlessWithin | IMVWebServer.cpp:1018-1019 | a value inside [lo, hi] is kept; one outside becomes 0 |
| Requests.BackgroundRange | IMVWebServer.cpp:784-788 | `bkcolor` channels end in [0, 255] with w kept; a channel read in [0, 65025] is only divided by 255 |
| Requests.Draw | IMVWebServer.cpp:757 | a drawn value lies in [10, 39] |
| Requests.AppendRandomSeries | IMVWebServer.cpp:753-759 | the nested loop gives series s the draws 10s to 10s + 9, after its old contents |
| Requests.RandomSeriesShape | IMVWebServer.cpp:753-759 | each of the five series grows by ten values in [10, 39] after its old contents |
| Requests.RandomSeries | IMVWebServer.cpp:753 | five series in, five series out |
| Requests.LastParam | IMVWebServer.cpp:733-830 | the parameter found is one of the list and carries one of the names asked for; none is found exactly when no parameter carries such a name |
| Requests.LastParamIsLast | IMVWebServer.cpp:733-830 | the parameter found is the last with such a name: no later parameter carries one |
| Requests.Entries | IMVWebServer.cpp:735-737 | one `name=value` entry per parameter, in order |
| Requests.QueryJoined | IMVWebServer.cpp:735-829 | the log string is the entries, each but the last followed by `&` |
| Requests.QuerySplits | IMVWebServer.cpp:735-829 | when no name or value holds `&`, the log string splits back into exactly the entries, one per parameter, in order |
| Requests.ViewFromLastStep | IMVWebServer.cpp:762-817 | the shared parameters (`distance`, `rotation`, `bkcolor`, `quality`, `size`) handled one at a time agree with the reference description: each field comes from the last parameter of its name, and `size` sets the scene and the window to the same square |
| Requests.ApplyViewParam | IMVWebServer.cpp:762-817 | the imperative branches for the shared parameters do what the fold step says |
| Requests.ChartStep | IMVWebServer.cpp:738-826 | a chart parameter keeps five series |
| Requests.ChartOf | IMVWebServer.cpp:733-830 | the chart walk keeps five series |
| Requests.RepeatedSeries | IMVWebServer.cpp:745-761 | repeated `values` parameters keep five series |
| Requests.ChartStepFields | IMVWebServer.cpp:738-826 | a chart parameter changes only the field its name selects; `values` ignores its value |
| Requests.ChartViewLastWins | IMVWebServer.cpp:733-830 | the chart keeps the last value of every shared parameter; the post-processing type stays at its start value |
| Requests.ChartTypeLastWins | IMVWebServer.cpp:738-826 | the chart type comes from the last `type` or `postprocessing` parameter, the latter reset to 0 outside [0, 2] |
| Requests.ChartValuesCount | IMVWebServer.cpp:745-761 | the series depend only on how many `values` parameters there are |
| Requests.RepeatedSeriesShape | IMVWebServer.cpp:753-759 | after m `values` parameters every series has 10m more values, each in [10, 39], after its old contents |
| Requests.ChartOfStep | IMVWebServer.cpp:733-830 | one more parameter moves the fold and the draw count by one step |
| Requests.ApplyChartParam | IMVWebServer.cpp:738-826 | the `if`/`else if` chain of `parseChart` is the fold step, and it makes fifty draws exactly for `values` |
| Requests.LogParam | IMVWebServer.cpp:735-829 | the log writes of one parameter extend the log to the next position of the walk |
| Requests.QueryStep | IMVWebServer.cpp:735-737 | the log before parameter j, extended by its entry, is the log of the first j + 1 parameters |
| Requests.ReadChart | IMVWebServer.cpp:724-830 | the `parseChart` loop produces the fold's info and window, and appends the parameter log to `requestStr` |
| Requests.MoleculeStepFields | IMVWebServer.cpp:985-1069 | a molecule parameter changes only the field its name selects |
| Requests.MoleculeViewLastWins | IMVWebServer.cpp:980-1073 | the molecule keeps the last value of every shared parameter |
| Requests.MoleculeEffectsLastWins | IMVWebServer.cpp:1061-1069 | the post-processing type is the last `postprocessing` value, 0 when outside [0, 2] |
| Requests.MoleculeLastWins | IMVWebServer.cpp:985-1028 | the molecule id is the last `molecule` value; structure and scheme are the last values, 0 when outside [0, 4] and [0, 2] |
| Requests.MoleculeRanges | IMVWebServer.cpp:1013-1069 | structure, scheme and post-processing type stay in range after any walk that starts in range, and quality is at most 20 once a `quality` parameter was given |
| Requests.ApplyMoleculeParam | IMVWebServer.cpp:985-1069 | the `if`/`else if` chain of `parsePDB` is the fold step |
| Requests.ReadMolecule | IMVWebServer.cpp:979-1073 | the `parsePDB` loop produces the fold's info and window, and appends the parameter log |
| Requests.IrtLastWins | IMVWebServer.cpp:1171-1250 | the model keeps the last `model` value and the last value of every shared parameter; `postprocessing` has no effect |
| Requests.ApplyIrtParam | IMVWebServer.cpp:1176-1246 | the `if`/`else if` chain of `parseIRT` is the fold step |
| Requests.ReadIrt | IMVWebServer.cpp:1162-1250 | the `parseIRT` loop produces the fold's info and window, and appends the parameter log |
| Base64.IndexOf | IMVWebServer.cpp:377-384 | every character of the alphabet has its position in the table |
| Base64.AlphabetInverse | IMVWebServer.cpp:377-384 | the 64 symbols are distinct; looking a symbol up gives its index back |
| Base64.TableIsAlphabet | IMVWebServer.cpp:377-384 | `encoding_table` is the alphabet of section 4 of RFC 4648, in order |
| Base64.Triple | IMVWebServer.cpp:403 | three octets make a 24-bit group |
| Base64.Bits | IMVWebServer.cpp:405-408 | a shift and mask give a six-bit index |
| Base64.Symbols | IMVWebServer.cpp:405-408 | k six-bit fields give k symbols |
| Base64.SymbolsOfGroup | IMVWebServer.cpp:405-408 | a group gives its four six-bit fields, most significant first |
| Base64.GroupRoundTrip | IMVWebServer.cpp:399-408 | the four symbols of a group read back as base-64 digits give the group, also with its zero-filled tail written as `=` |
| Base64.QuantumDecodes | IMVWebServer.cpp:405-408 | the four symbols of a group are all from the alphabet |
| Base64.DecodeEncode | IMVWebServer.cpp:388-418 | decoding the encoding gives every input byte back |
| Base64.Unpadded | IMVWebServer.cpp:397-410 | the first loop writes four symbols per started group |
| Base64.UnpaddedSymbols | IMVWebServer.cpp:397-410 | the first loop writes only alphabet symbols |
| Base64.UnpaddedAppend | IMVWebServer.cpp:397-410 | the groups before a multiple of three octets are encoded independently of what follows |
| Base64.Octets | IMVWebServer.cpp:399-403 | k octets come back from a group |
| Base64.EncodeShape | IMVWebServer.cpp:392-415 | the output has length 4 * ceil(n / 3); its last `mod_table[n % 3]` characters are `=` and every other one is from the alphabet |
| Base64.EncodeHasNoNul | IMVWebServer.cpp:416 | the encoding holds no NUL |
| Base64.EqualsAll | IMVWebServer.cpp:411-414 | the padding is made only of `=` |
| Base64.EncodeIsPaddedUnpadded | IMVWebServer.cpp:397-415 | the output is what the first loop writes, with its last `mod_table[n % 3]` symbols replaced by `=` |
| Base64.PaddedLastGroup | IMVWebServer.cpp:411-414 | a final group of one octet ends in "==", one of two octets in "=" |
| Base64.GroupStep | IMVWebServer.cpp:397-410 | one pass of the first loop encodes the group at the cursor, zero-filled past the end |
| Base64.EncodedLength | IMVWebServer.cpp:392 | 4 * ceil(n / 3) is the smallest multiple of four symbols that holds n octets |
| Base64.Advance | IMVWebServer.cpp:397-401 | the input cursor moves one group on and the output cursor four symbols, never past the buffer |
| Base64.NextOctet | IMVWebServer.cpp:399-401 | the next octet, or 0 past the end without moving the cursor |
| Base64.Base64Encode | IMVWebServer.cpp:388-418 | the buffer holds the RFC 4648 encoding of the input then a NUL, in a newly allocated buffer; `output_length` is 4 * ceil(n / 3) |
| Base64.EncodeGroups | IMVWebServer.cpp:397-410 | the first loop fills the output with the unpadded encoding and leaves the cells after it as they were |
| Base64.WriteQuantum | IMVWebServer.cpp:403-408 | four table lookups write the symbols of a group after what was already written; the cells after those four keep their contents |
| Base64.PadEnd | IMVWebServer.cpp:411-414 | the second loop turns the last `pad` symbols into `=` and leaves the rest alone |
| Render.SeriesColumns | IMVWebServer.cpp:569-661 | ten triangles per value of a series |
| Render.Columns | IMVWebServer.cpp:565-663 | ten triangles per value over all series |
| Render.ChartPrimitives | IMVWebServer.cpp:517-682 | a chart has 7 + 10n primitives for n values |
| Render.SeriesColumnsAt | IMVWebServer.cpp:574-660 | face f of value c of a series is at 10c + f |
| Render.ValueCountStep | IMVWebServer.cpp:660 | each series adds its length to the count of values |
| Render.ValueCountBound | IMVWebServer.cpp:565-663 | the values before and in a series are part of all the values |
| Render.ColumnsAt | IMVWebServer.cpp:565-663 | face f of value c of series s is at ten times the number of values before it, plus f |
| Render.ChartLayout | IMVWebServer.cpp:517-682 | ground, back wall and lamp first; then ten triangles per value, series after series, in the series' colour 20 + 5s; then the right and left side walls |
| Render.ChartEnds | IMVWebServer.cpp:517-556 | the first five and the last two primitives of the chart, with their kinds and materials |
| Render.FrameAround | IMVWebServer.cpp:517-682 | the fixed primitives and side walls sit around any list of columns |
| Render.EmittedStep | IMVWebServer.cpp:519-682 | setting one more primitive of the chart extends the kernel state by one step |
| Render.ChartSlotIncreasing | IMVWebServer.cpp:519-676 | on reuse, later primitives get higher slots, so no two share one |
| Render.EmittedOverwrite | IMVWebServer.cpp:519-682 | a reused chart appends nothing; its k-th primitive is at `ChartSlot(start, n, k)`; every other slot keeps its content; the calls are one `setPrimitive` per primitive |
| Render.EmittedAppend | IMVWebServer.cpp:519-682 | a new chart appends its primitives in order after the active slots and changes nothing before them |
| Render.ChartGap | IMVWebServer.cpp:574-676 | on reuse, the fixed primitives and columns sit at start to start + 4 + 10n with no hole; none falls in the next ten slots; the side walls land ten slots past where a build puts them |
| Render.Place | IMVWebServer.cpp:519-520 | one `addPrimitive`-or-slot and `setPrimitive` pair places the m-th primitive of the chart |
| Render.ColumnSlice | IMVWebServer.cpp:574-660 | the ten faces of one value follow one another in the chart |
| Render.PlaceFace | IMVWebServer.cpp:574-656 | one face of a column, at its place in the chart |
| Render.PlaceColumn | IMVWebServer.cpp:574-660 | the ten faces of a column, and on reuse `gNbPrimitives` ends at start + 14 + index |
| Render.PlaceSeries | IMVWebServer.cpp:565-663 | the columns of one series; `index` grows by ten per value |
| Render.PlaceFront | IMVWebServer.cpp:517-556 | ground, wall and lamp; the start index keeps the value it had |
| Render.PlaceWalls | IMVWebServer.cpp:665-682 | both side walls; on reuse `gNbPrimitives` ends at start + index + 16 |
| Render.BuildChart | IMVWebServer.cpp:517-682 | the kernel holds the whole chart, appended or overwritten; `gChartStartIndex` keeps its value |
| Render.FinishedTrace | IMVWebServer.cpp:684-711 | rendering changes no primitive; the trace goes on with box compaction, the rotation if any, then exactly n passes with the derived post-processing and lighting |
| Render.FinishedKeeps | IMVWebServer.cpp:684-711 | rendering changes no primitive and no active count, and only appends to the trace |
| Render.Finish | IMVWebServer.cpp:684-711 | compaction, optional rotation and the accumulation loop, as `Finished` describes |
| Render.CString | IMVWebServer.cpp:484-485 | streaming a `char*` takes the characters before the first NUL, all of them when there is none: the result is a NUL-free prefix, and when it is shorter than the input the next character is the NUL |
| Render.CStringTerminated | IMVWebServer.cpp:416-417 | a NUL-terminated encoding streams as exactly the encoding |
| Render.SavedDecodes | IMVWebServer.cpp:458-486 | the response gains the data-URL prefix and a base-64 body that decodes to the file's bytes |
| Render.SaveToJpeg | IMVWebServer.cpp:452-489 | the response is unchanged if the file cannot be opened; otherwise it gains the prefix, the encoding of the file and the CORS header |
| Render.ChartRenderedSlots | IMVWebServer.cpp:495-719 | a reused chart appends nothing and writes every primitive at its slot; a new one appends 7 + 10n primitives after the active slots |
| Render.RenderChart | IMVWebServer.cpp:495-719 | the kernel gets the chart and the render tail without rotation; the answer is `chart.jpg` |
| Render.MoleculeLampAppended | IMVWebServer.cpp:915-922 | the lamp always takes the first free slot, even on reuse; the atoms follow only when `update`; nothing active before changes |
| Render.RenderPdb | IMVWebServer.cpp:893-958 | the lamp, the atoms when `update`, then compaction, rotation and the passes; the answer is `<id>.jpg` |
| Render.ModelReuseGrows | IMVWebServer.cpp:1112-1121 | reusing a model scene grows it by exactly one primitive, the lamp; building it adds the lamp, the model and the floor, in that order |
| Render.RenderIrt | IMVWebServer.cpp:1090-1157 | lamp, model and floor, then the tail without rotation; the answer is `<model>.jpg` |
| WebServer.RebuildFirstOnly | IMVWebServer.cpp:1261-1294 | the rebuild decision and the next use case depend on the first parameter only |
| WebServer.RebuildSettles | IMVWebServer.cpp:1263-1294 | after a rebuild the use case and value are the request's; repeating a model or chart request reuses the scene, while a molecule rebuilds every time; a request without parameters leaves the use case and its value as they were |
| WebServer.ModelReuseReadsFirstName | IMVWebServer.cpp:1272-1283 | `model=a&model=b` right after `model=a` keeps the kernel but names the image after `b` |
| WebServer.InitializeKernel | IMVWebServer.cpp:343-349 | a new kernel with the scene info, buffers and palette set, and no primitive |
| WebServer.LogOfParams | IMVWebServer.cpp:1296-1299 | the log entry of a model or chart request splits back into one `name=value` per parameter, in order |
| WebServer.ProteinRoundRobin | IMVWebServer.cpp:1341-1342 | after k requests the protein index has moved k places round the list of fifteen |
| WebServer.ProteinCycle | IMVWebServer.cpp:1341-1342 | fifteen requests bring the protein index back |
| WebServer.Server.constructor | IMVWebServer.cpp:83-121 | the globals at start-up: no kernel, use case undefined, empty log, no call, first protein, 4096-square window |
| WebServer.Server.ParsePdb | IMVWebServer.cpp:960-1088 | the molecule info is the fold from the current protein; the kernel is rendered; the log entry starts with the caller and URL and is stored; one call is counted |
| WebServer.Server.ParseIrt | IMVWebServer.cpp:1159-1254 | the model info is the fold; the kernel is rendered; the parameter log is appended |
| WebServer.Server.ParseChart | IMVWebServer.cpp:721-837 | the chart info is the fold; the kernel is rendered from `gChartStartIndex`; the parameter log is appended |
| WebServer.Server.ServeMolecule | IMVWebServer.cpp:1263-1271 | a non-random new kernel every time; the use case becomes the molecule |
| WebServer.Server.ServeModel | IMVWebServer.cpp:1272-1283 | a new kernel exactly when the rebuild rule says so, otherwise the same one |
| WebServer.Server.ServeChart | IMVWebServer.cpp:1284-1294 | a new kernel exactly when no chart is loaded, otherwise the same one |
| WebServer.Server.Serve | IMVWebServer.cpp:1261-1295 | the first parameter picks the interpreter, and the outcome is that interpreter's |
| WebServer.Server.ParseUrl | IMVWebServer.cpp:1256-1300 | the use case follows the rebuild rule; the kernel is new exactly on a rebuild; the log is upserted under the caller; the counter grows by 1, or 2 for a molecule; no parameters change nothing else |
| WebServer.Server.OnGet | IMVWebServer.cpp:1303-1360 | for `get`, `parseURL` then the next protein: the use case, log and call count of `parseURL`, a new kernel exactly on a rebuild, the chart start index kept, and for a routed request the kernel, window and response of the chosen interpreter rendering the protein current before the request; with no parameters no kernel, window or response change; for any other URL no global changes |

## Left out

- Memory failures: the `malloc`/`new` results and null checks (the `image != nullptr` tests) are not modelled; allocation always succeeds.
- `loadPDB`: the network download and disk cache are not part of this model. A molecule request only records which file the PDB reader loads.
- The PDB and IRT readers are external libraries. How many primitives they add is a parameter (`atoms`, `models`); their content and sizes are not modelled.
- `createMaterials`: the palette is recorded as one call with its `random` flag, not its colours.
- Float coordinate math and single-precision rounding are not modelled. Coordinates are kept as the inputs they are computed from; numbers are reals.
- `compactBoxes`, `rotatePrimitives`, `render_begin`/`render_end`: recorded as calls. Their effect inside the kernel, including `gNbBoxes`, is not modelled.
- `jo_write_jpg` and the `fopen`/`ftell`/`fread` round trip: the file's bytes are a parameter (`disk`); a short read is not modelled.
- `convertToBMP` is dead code and not part of this model.
- WebServer.Server.OnGet: the status page for other URLs, the commented-out HTML and the `catch` branch are not modelled; the response is left empty there.
- The Lacewing event loop, `main`, `LOG_INFO` and `GetTickCount` are I/O and timing; not modelled.
- `atoi` and `atof` are parameters (`Libc`), and `rand()` is a parameter indexed by draw number; their values are arbitrary.
- `gNbPrimitives` is only written, as the slot of the primitive just placed, and never read across requests; it is the `nbPrimitives` result of the render methods rather than a field of `Server`.
- The image buffer and its size (width * height * depth) are not modelled.
- `destroyKernel`: modelled by dropping the reference; deallocation is not modelled.
- Scene.EffectsParameters: the source computes `40 + iterations*5` in 32-bit `int` (`iterations*10.f` is a float); the model uses unbounded integers, so overflow is not modelled. Quality has no lower bound, so for `iterations` below about -429 million the source's product overflows (signed overflow, undefined in C++; in practice it wraps, and it can then equal 16). The "16 exactly under type 2" fact holds for the unbounded values only.
- Base64.Base64Encode: the `int i, j` cursors and the `size_t` output length computed through `double` are modelled as unbounded integers; inputs of 2^31 bytes or more, where the cursors would overflow, are not modelled.
- WebServer.Server.ParseUrl: `gNbCalls` is a 32-bit `int` in the source and an unbounded integer here; its wrap-around after 2^31 - 1 calls is not modelled.
- `atoi` results are taken as unbounded integers; their 32-bit range is not modelled.
