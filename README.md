# Phenix index → LoadData, modelled in Dafny

This project models the core of the Phenix-to-CellProfiler converter: the
code that reads a Phenix `index.idx.xml` file and writes a CellProfiler
LoadData table, together with the companion step that appends illumination
columns to such a table. The same conversion appears twice in the
repository, once in `pe2loaddata_39.py` (`write_csv`) and once in
`scripts/commands.py` (`convert_to_dataframe`, `pe2_load_data`,
`append_illum_cols`); `append_illum_cols_39.py` holds the stand-alone
illumination writer.

The model follows the program's structure:

- `Elements` — the element handlers `PEContentHandler`, `Well`, `Wells`,
  `Plate`, `Plates`, `Images` and `Root` as one closed variant (`Role`), with
  `get_class_for_name` (`ClassForName`), `characters` (`AddText`) and
  `onEndElement` (`Fold`).
- `Documents` — `DocContentHandler`: the tree is an arena of elements and
  the chain of open elements a stack of indices whose top is
  `current_element`. `Step` specifies one SAX event; the class
  `DocContentHandler` updates its fields in place and is proved to agree with
  `Step`; `Parse` feeds it a whole event stream as `xml.sax.parse` does.
- `Hierarchy` — `doc.root.images.images`, `doc.root.plates.plates` and
  `doc.root.wells.wells` as lookup tables.
- `Naming` — `well_name`, `channel_name`, the `"%02d-%02d"` field key of an
  image, and the site `str(int(field[:2]))`.
- `LoadData` — the row joiner as accumulator-style specification functions
  (header, grouping of images by field and channel, the channel loop with its
  `break`, the metadata loop, the plate/well/field loops) and the properties
  proved about them.
- `Writer` — the same loops as imperative methods over local maps and lists,
  each proved to compute its specification function.
- `Listing` — `readlines()`, the basename of each listed path mapped to
  `/cromwell_root/data`, and the removal of spaces from channel keys.
- `Illumination` — the illumination `write_csv` of both files.
- `Pipeline` — `pe2_load_data` end to end: parse, take the sections, build
  the paths and the channel map, join.
- `Text`, `Ordering`, `Lists`, `Results` — the Python built-ins the core
  relies on (`str.strip`, `int()`, `str()`, `"%02d"`, `str.replace`, string
  order, `sorted`, list concatenation and repetition) and `Option`/`Result`.

Every operation that can raise in the source returns a `Result` whose error
names the cause (`ParseError`, `StructureError`, `JoinError`). Because
`JoinRows` proves every emitted row as wide as the header,
`pd.DataFrame(all_rows, columns=header)` never rejects the rows.

Every failure while grouping a well's images (unknown image id, missing or
non-integer `FieldID`/`PlaneID`, missing `ChannelName`, unknown channel) stops
the conversion, as `scripts/commands.py` does by raising `RuntimeError`; so
does a configured metadata key missing from the last channel's image
(`KeyError`). `pe2loaddata_39.py` instead prints the error, opens an
interactive debugger (`IPython.embed`) and, once it returns, goes on with the
next image; the model follows `scripts/commands.py`. Skipped fields are only logged at debug level
(`scripts/commands.py:233`), and the model returns the table alone.

## Model

| member | source | states |
|---|---|---|
| Text.Strip | pe2loaddata_39.py:41 | `str.strip()` with Python's whitespace set; what it keeps and drops is stated by TrimStartShape, TrimEndShape, StripSlice, StripDrops and StripKeeps |
| Text.TrimStartShape | pe2loaddata_39.py:41 | the left trim of `str.strip` drops only whitespace and stops at the first non-space character |
| Text.TrimEndShape | pe2loaddata_39.py:41 | the right trim drops only whitespace and stops at the last non-space character |
| Text.StripSlice | pe2loaddata_39.py:41 | `s.strip()` is a contiguous slice of `s` whose ends are not whitespace |
| Text.StripDrops | pe2loaddata_39.py:41 | everything `strip` removes is whitespace |
| Text.StripKeeps | pe2loaddata_39.py:41 | a string without whitespace at its ends is unchanged by `strip` |
| Text.RemoveAll | pe2loaddata_39.py:76 | `str.replace(pat, "")` never grows the string, leaves it unchanged when `pat` does not occur, and removes every occurrence of a one-character pattern |
| Text.RemoveAllKeeps | pe2loaddata_39.py:76 | for any pattern, what `str.replace(pat, "")` leaves is a subsequence of the string, shorter by a whole number of copies of the pattern |
| Text.ParseInt | scripts/commands.py:211 | `int(s)`: surrounding whitespace, an optional sign, ASCII digits with single underscores between them, otherwise None (ValueError); ParseIntToString and ParseIntPad2 prove it reads back what IntToString and Pad2 write |
| Text.IntToString | scripts/commands.py:239 | `str(n)` for an integer, a minus then the decimal digits; ParseIntToString proves `int(str(n)) == n` |
| Text.Pad2 | scripts/commands.py:211 | `"%02d" % n`: at least two characters; Pad2TwoDigits, ParseIntPad2, Pad2Head and Pad2PairInjective state its digits, its read-back and its injectivity |
| Text.ParseIntToString | scripts/commands.py:239 | `int(str(n)) == n` for every integer |
| Text.ParseIntPad2 | pe2loaddata_39.py:66 | `int("%02d" % n) == n` for every integer |
| Text.Pad2TwoDigits | pe2loaddata_39.py:66 | for 0 <= n < 100, `"%02d" % n` is the tens digit followed by the units digit |
| Ordering.BelowAntisymmetric | pe2loaddata_39.py:301 | string order: two strings each at most the other are equal |
| Ordering.BelowTransitive | pe2loaddata_39.py:301 | string order is transitive |
| Ordering.BelowTotal | pe2loaddata_39.py:301 | any two strings are comparable |
| Ordering.SortedSet | pe2loaddata_39.py:294 | `sorted(keys)` holds exactly the keys, each once, in strictly increasing order |
| Ordering.Sort | append_illum_cols_39.py:82 | `sorted(list)` is ordered and a permutation of its input |
| Ordering.SortedUnique | append_illum_cols_39.py:82 | two ordered permutations of the same values are equal |
| Ordering.SortPermutation | append_illum_cols_39.py:82 | `sorted` depends only on the multiset of its input |
| Lists.Interleave | pe2loaddata_39.py:291-297 | the flattened pairs put the i-th first element at 2i and the i-th second element at 2i+1 |
| Lists.InterleaveUnique | pe2loaddata_39.py:291-297 | any list with that layout is the interleaving |
| Lists.Repeat | append_illum_cols_39.py:88 | `[x] * n` has max(n, 0) entries, all `x` |
| Elements.Create | pe2loaddata_39.py:30-35 | the constructor: the tag, the parent, empty content, `metadata = dict(attrs)` and the fresh fields of its class; StartOpensChild states it for every opened element |
| Elements.AddText | pe2loaddata_39.py:40-41 | `content += text.strip()`; TextAppends states that only the current element's content changes, by exactly the stripped text |
| Elements.ClassForName | pe2loaddata_39.py:100-171 | Root makes Plates/Wells/Images, Wells makes Well, Plates makes Plate and has no class for any other child, everything else is generic; never a Root |
| Elements.Fold | pe2loaddata_39.py:84-161 | folding a closed child fails exactly when the parent's class needs the child's missing `id`; it never changes the parent's tag, parent, content or class |
| Elements.FoldMetadata | pe2loaddata_39.py:47-48 | unless the class intercepts the tag, exactly `metadata[tag]` changes, to the child's content, overwriting any earlier value |
| Elements.FoldIdList | pe2loaddata_39.py:84-115 | `Well.image_ids` and `Plate.well_ids` grow by exactly the child's id, at the end, for the tag the class collects, and otherwise not at all |
| Elements.FoldIndexes | pe2loaddata_39.py:95-161 | Wells and Images index the child by id, Plates by `Name` (None when absent), Root keeps the section of that tag; a later duplicate key replaces the earlier entry |
| Elements.FoldRefsBelow | pe2loaddata_39.py:84-161 | a fold only adds references to the closed child |
| Documents.Step | pe2loaddata_39.py:178-193 | one SAX event as DocContentHandler handles it; StepDepth, StepKeepsValid, StepExtendsIdLists and StepKeepsTyped state what it does to the depth, the tree shape, the id lists and the classes |
| Documents.OnStart | pe2loaddata_39.py:178-183 | `startElement`: the first start creates the Root, later ones a child of the class `get_class_for_name` picks (`onStartElement`, lines 37-38); StartOpensChild states it |
| Documents.OnChars | pe2loaddata_39.py:185-186 | `characters`: the text goes to the current element, an error when there is none; TextAppends states it |
| Documents.OnEnd | pe2loaddata_39.py:188-190 | `endElement`: the current element folds into its parent (the element-side `endElement` and `onEndElement`, lines 43-48), which becomes current; EndReturnsToParent states it |
| Documents.StepDepth | pe2loaddata_39.py:178-190 | a handled event changes the depth by +1 (start), -1 (end) or 0 |
| Documents.StepKeepsValid | pe2loaddata_39.py:178-190 | every handled event keeps the tree well formed (root first, parents earlier, stack a parent chain from the root) |
| Documents.PushKeepsValid | pe2loaddata_39.py:182-183 | opening a child of the current element keeps the tree well formed |
| Documents.RunFrom | scripts/commands.py:302 | the events handled one by one, stopping at the first failure, and every state reached is well formed; RunFromStep, RunDepth, RunExtendsIdLists and RunKeepsTyped state the rest |
| Documents.Run | scripts/commands.py:301-302 | `xml.sax.parse` into a fresh DocContentHandler; DocumentDepth and ExtractAfterRun state what the finished tree looks like |
| Documents.RunFromStep | pe2loaddata_39.py:178-190 | a run is its first event's step followed by the rest of the run, and stops at the first failing event |
| Documents.RunDepth | pe2loaddata_39.py:178-190 | over any successful run, depth plus ends equals starting depth plus starts |
| Documents.DocumentDepth | pe2loaddata_39.py:178-190 | from `startDocument`, the depth after any successful prefix is #starts - #ends |
| Documents.StartOpensChild | pe2loaddata_39.py:178-183 | the first start creates the Root and makes it current; each later start adds a child of the current element and makes it current, leaving every built element unchanged |
| Documents.TextAppends | pe2loaddata_39.py:185-186 | a text event succeeds exactly when there is a current element, and only appends the stripped text to that element's content |
| Documents.EndReturnsToParent | pe2loaddata_39.py:188-193 | an end event makes the parent current and changes only the parent; closing the root changes nothing but the stack |
| Documents.StepExtendsIdLists | pe2loaddata_39.py:84-115 | a single event only extends id lists at the end |
| Documents.ExtendTrans | pe2loaddata_39.py:84-115 | extending id lists twice extends them |
| Documents.RunExtendsIdLists | pe2loaddata_39.py:84-115 | over a whole run every element's id list only grows at the end, so ids stay in document order |
| Documents.StepKeepsTyped | pe2loaddata_39.py:95-171 | an event whose end tag names the element it closes keeps every element of the class its parent chose for its tag, and every Wells and Plates index pointing only at Well and Plate elements |
| Documents.RunKeepsTyped | pe2loaddata_39.py:95-190 | the same over a whole well-formed run: `wells` holds only Well elements and `plates` only Plate elements |
| Documents.DocContentHandler.constructor | pe2loaddata_39.py:175-176 | `startDocument`: no root, nothing open |
| Documents.DocContentHandler.StartElement | pe2loaddata_39.py:178-183 | updates the fields in place exactly as `Step` specifies for a start, keeping the tree well formed, and leaves them untouched on failure |
| Documents.DocContentHandler.Characters | pe2loaddata_39.py:185-186 | the same for a text event |
| Documents.DocContentHandler.EndElement | pe2loaddata_39.py:188-190 | the same for an end event |
| Documents.Parse | scripts/commands.py:301-302 | driving a fresh handler over an event stream gives exactly `Run` of the stream |
| Hierarchy.Tables | pe2loaddata_39.py:270-272 | fails with NotAWell exactly when the Wells index holds an element of another class, otherwise with NotAPlate exactly when the Plates index does, and succeeds otherwise; the tables then have exactly the indexed keys, each read from the indexed element (metadata, `well_ids`, metadata and `image_ids`) |
| Hierarchy.Extract | pe2loaddata_39.py:270-272 | no root fails with NoRoot, a missing section fails naming the first one missing in the order Images, Plates, Wells, success requires all three sections, and with all three present the result is their tables |
| Hierarchy.ExtractAfterRun | pe2loaddata_39.py:95-131 | on a tree built from a well-formed event stream, the tables never fail for an index entry of the wrong class: only a missing root or section stops them |
| Naming.CodePoint | pe2loaddata_39.py:66 | `chr(n)` is the character with code n, and fails exactly outside the code space or on a surrogate |
| Naming.WellName | pe2loaddata_39.py:57-66 | `well_name`: the Row-th capital letter and Col in `"%02d"`, None when Row or Col is missing or not an integer; WellNameShape, WellNameTwoDigits and WellNameExamples state it |
| Naming.WellNameShape | pe2loaddata_39.py:57-66 | for integer Row in 1..26 the well name starts with the Row-th capital letter and the rest reads back as Col |
| Naming.WellNameTwoDigits | pe2loaddata_39.py:57-66 | for Col below 100 the well name is the row letter and exactly two column digits |
| Naming.WellNameExamples | pe2loaddata_39.py:57-66 | Row 2, Col 2 gives "B02"; Row 1, Col 10 gives "A10" |
| Naming.Without | pe2loaddata_39.py:76 | a reference removal of one character: it leaves none of it and keeps the count of every other character |
| Naming.RemoveCharIsWithout | pe2loaddata_39.py:76 | `replace(c, "")` for a single character equals that reference |
| Naming.ChannelName | pe2loaddata_39.py:68-76 | defined exactly when the image has `ChannelName`, and then holds no space |
| Naming.ChannelNameKeeps | pe2loaddata_39.py:68-76 | the channel name is ChannelName with exactly its spaces removed, every other character kept in order |
| Naming.PlaneId | pe2loaddata_39.py:313 | `int(image.metadata.get("PlaneID", 1))`, 1 when absent; FieldKeyInjective uses it as the plane part of the key |
| Naming.FieldKey | pe2loaddata_39.py:313 | `"%02d-%02d" % (FieldID, PlaneID)`, None when FieldID is missing or either is not an integer; FieldKeyInjective and FieldKeyParses state it |
| Naming.Pad2PairInjective | pe2loaddata_39.py:313 | `"%02d-%02d" % (f, p)` is one-to-one: equal keys come from equal field and plane numbers |
| Naming.FieldKeyInjective | pe2loaddata_39.py:313-319 | two images share a `field_id` exactly when their integer `FieldID`s and their planes (`PlaneID`, default 1) are equal, so `fields` groups images by field and plane |
| Naming.Pad2Head | pe2loaddata_39.py:340 | the first two characters of `"%02d" % f` are two digits, or a minus and a digit |
| Naming.FieldKeySite | pe2loaddata_39.py:340 | `int(field[:2])` succeeds on every such key and reads the FieldID's first two characters |
| Naming.FieldKeyParses | pe2loaddata_39.py:340 | every field key an image can have yields a site |
| Naming.Site | pe2loaddata_39.py:340 | `str(int(field[:2]))`; FieldKeySite, SiteIsField, SiteTruncatesWide and SiteTruncatesNegative state what it gives for a field key |
| Naming.SiteIsField | pe2loaddata_39.py:340 | for FieldID in -9..99 the site is `str(FieldID)`, the plane stripped |
| Naming.SiteTruncatesWide | pe2loaddata_39.py:340 | FieldID 123 is written as site "12" |
| Naming.SiteTruncatesNegative | pe2loaddata_39.py:340 | FieldID -12 is written as site "-1" |
| LoadData.Columns | pe2loaddata_39.py:290-299 | `FileName_<label>`, `PathName_<label>` per channel, then the three fixed Metadata columns, then `Metadata_<suffix>` per metadata key, position by position |
| LoadData.Header | pe2loaddata_39.py:290-299 | the same layout for the sorted channel and metadata keys |
| LoadData.HeaderWidth | pe2loaddata_39.py:290-299 | the header has 2·\|channels\| + 3 + \|metadata\| columns |
| LoadData.AddImage | pe2loaddata_39.py:307-319 | an image is filed exactly when it is indexed, has a field key and a configured channel; it then replaces any image with the same field and channel and touches nothing else; an unknown channel error names a channel not configured |
| LoadData.GroupFrom | scripts/commands.py:205-222 | grouping fails only for the four grouping causes, and an unknown-channel failure names a channel not in the configuration |
| LoadData.GroupOk | scripts/commands.py:205-222 | grouping succeeds if and only if every image of the well can be filed |
| LoadData.GroupLastWins | pe2loaddata_39.py:316-319 | after grouping, each (field, channel) holds the last image of the well with that pair, or what it held before |
| LoadData.GroupIsLastImages | pe2loaddata_39.py:316-319 | from no groups, the filed images are exactly the last image per field and channel |
| LoadData.ChannelPairsFrom | pe2loaddata_39.py:326-336 | the channel loop yields pairs if and only if every channel resolves, and then the URL and directory of each channel in order |
| LoadData.MetaValuesFrom | pe2loaddata_39.py:341-342 | the metadata loop succeeds if and only if the image has every key, giving the values in key order, and otherwise names a missing key |
| LoadData.FieldRow | scripts/commands.py:224-242 | no row exactly when there is no channel or some channel does not resolve (never a partial row); otherwise the full row laid out as the header, metadata from the last channel's image, or the missing metadata key |
| LoadData.FieldRowsFrom | scripts/commands.py:224-242 | the loop over sorted field keys appending each complete field's row; FieldRowsCount, FieldRowsExtend, FieldRowsShift and FieldRowsSites state it, and Writer.FieldRows is proved equal to it |
| LoadData.WellRowsFrom | scripts/commands.py:202-242 | one well: look it up, name it, group its images, then its fields; WellRowsCount, WellRowsExtend, WellRowsShift, WellRowsOk and WellRowsSites state it |
| LoadData.PlateRowsFrom | scripts/commands.py:200-242 | one plate's wells in `well_ids` order; PlateRowsCount, PlateRowsExtend, PlateRowsShift, PlateRowsOk and PlateRowsSites state it |
| LoadData.AllRowsFrom | scripts/commands.py:199-242 | the plates in sorted order; AllRowsCount, AllRowsSorted, AllRowsShift, AllRowsOk and AllRowsSites state it |
| LoadData.FieldRowsCount | scripts/commands.py:224-237 | a well yields exactly one row per field whose channels all resolve; the others are skipped and processing continues |
| LoadData.PlateOrder | pe2loaddata_39.py:301 | `sorted(plates)` lists every plate key once in strictly increasing name order, and fails exactly when a plate without a Name sits beside another plate |
| LoadData.Join | scripts/commands.py:188-245 | a successful table has the configured header |
| LoadData.Width | scripts/commands.py:239 | a row is as wide as the header, which leaves room for the plate column and the two after it |
| LoadData.ExtendsTrans | scripts/commands.py:242 | appending rows twice appends rows |
| LoadData.FieldRowExtends | scripts/commands.py:224-242 | a field adds at most one row, as wide as the header, with the plate in the plate column |
| LoadData.LayoutWidth | scripts/commands.py:239 | a laid-out row is as wide as the header and holds the plate in the plate column |
| LoadData.AppendExtends | scripts/commands.py:242 | `all_rows.append(row)` of such a row only extends the rows |
| LoadData.FieldRowsExtend | scripts/commands.py:224-242 | the field loop only appends full-width rows of this plate |
| LoadData.WellRowsExtend | scripts/commands.py:201-242 | so does the work for one well |
| LoadData.PlateRowsExtend | scripts/commands.py:201-242 | so does the well loop of one plate |
| LoadData.AllRowsSorted | scripts/commands.py:199-242 | the plate loop keeps every row full-width and the plate column in sorted order |
| LoadData.JoinRows | scripts/commands.py:188-245 | every row of the table is as wide as the header, and rows come in sorted plate order |
| LoadData.GroupKeysParse | pe2loaddata_39.py:313 | every field key grouping files yields a site |
| LoadData.FieldRowsSites | pe2loaddata_39.py:340 | the field loop never fails on `int(field[:2])` for such keys |
| LoadData.GroupedRowsSites | pe2loaddata_39.py:340 | nor on the keys of a grouped well |
| LoadData.WellRowsSites | pe2loaddata_39.py:340 | no well fails on the site |
| LoadData.PlateRowsSites | pe2loaddata_39.py:340 | no plate fails on the site |
| LoadData.AllRowsSites | pe2loaddata_39.py:340 | the plate loop never fails on the site |
| LoadData.WellRowsCount | scripts/commands.py:224-242 | one well appends exactly one row per complete field |
| LoadData.PlateRowsCount | scripts/commands.py:198-242 | a plate appends one row per complete field of each well it lists |
| LoadData.AllRowsCount | scripts/commands.py:197-242 | the plate loop appends one row per complete field of each well of each plate |
| LoadData.JoinCount | scripts/commands.py:186-245 | the table has exactly one row per complete field of every well a plate lists |
| LoadData.FieldRowsShift | scripts/commands.py:224-242 | the field loop keeps the rows emitted before it, and what it appends or the error it raises does not depend on them |
| LoadData.WellRowsShift | scripts/commands.py:198-242 | the same for the work of one well |
| LoadData.PlateRowsShift | scripts/commands.py:198-242 | the same for the well loop of one plate |
| LoadData.AllRowsShift | scripts/commands.py:197-242 | the same for the plate loop |
| LoadData.TableSplits | scripts/commands.py:197-242 | the table is the first plate's rows followed by the other plates' rows, and a plate's rows are its first well's rows followed by the rows of its other wells, in `well_ids` order |
| LoadData.WellRowsOk | scripts/commands.py:199-220 | a well that yields rows is indexed and named, and every one of its images is indexed, has a field key and has a configured channel |
| LoadData.PlateRowsOk | scripts/commands.py:198-220 | the same for every well a plate lists |
| LoadData.AllRowsOk | scripts/commands.py:197-220 | the same for every well of every plate in the loop |
| LoadData.JoinWellsOk | scripts/commands.py:197-220 | a successful conversion met no unknown well or image, no bad field id and no channel outside the configuration (the `assert channel in channels` of every image) |
| LoadData.JoinSites | pe2loaddata_39.py:340 | the whole conversion never fails on the site |
| Writer.GroupImages | scripts/commands.py:205-222 | the image loop filling `fields` in place computes exactly the grouping specification, including its first error |
| Writer.BuildRow | scripts/commands.py:226-242 | the channel loop with its `break`, then plate, well, site and the metadata loop, compute exactly `FieldRow` |
| Writer.FieldRows | scripts/commands.py:224-242 | the field loop over sorted field keys computes exactly the field-rows specification |
| Writer.WellRows | scripts/commands.py:202-222 | one well: lookup, well name, grouping, then its fields, as specified |
| Writer.PlateRows | scripts/commands.py:201-242 | the well loop of a plate in `well_ids` order, as specified |
| Writer.ConvertToDataFrame | scripts/commands.py:188-245 | `convert_to_dataframe` computes exactly `Join` |
| Listing.Lines | scripts/commands.py:310 | `readlines()` over newline-translated text; LinesJoin, LinesShape, LineNewlines and LinesCount state it |
| Listing.FileName | scripts/commands.py:311 | the last part of `os.path.split(line)` with trailing newlines stripped; FileNameOf, AfterSlash, AfterLastSlashShape and TrimTrailing state it |
| Listing.Paths | scripts/commands.py:308-312 | every listed file name mapped to `/cromwell_root/data`; BuildPaths is proved equal to it and states its keys |
| Listing.LineLength | scripts/commands.py:310 | the first line runs up to and including the first newline, or to the end |
| Listing.LinesJoin | scripts/commands.py:310 | `readlines()` loses nothing: its lines concatenated are the text |
| Listing.LinesShape | scripts/commands.py:310 | each line is non-empty, holds no inner newline, and every line but the last ends with one |
| Listing.LineNewlines | scripts/commands.py:310 | a line holds one newline when it ends with one and none otherwise |
| Listing.LinesCount | append_illum_cols_39.py:67 | the number of lines is the number of newlines, plus one for an unterminated last line |
| Listing.AfterLastSlash | scripts/commands.py:311 | the tail is no longer than the path |
| Listing.AfterLastSlashShape | scripts/commands.py:311 | the tail `os.path.split` returns is the suffix after the last '/', and holds no '/' |
| Listing.TrimTrailing | scripts/commands.py:311 | `rstrip(c)` is a prefix, drops only `c`, and does not end with `c` |
| Listing.FileNameOf | scripts/commands.py:311 | a line of directory, file name and newline names exactly that file, whatever the directory |
| Listing.AfterSlash | scripts/commands.py:311 | after a directory ending in '/', a part without '/' is the whole tail |
| Listing.BuildPaths | scripts/commands.py:308-312 | the keys are exactly the file names the lines name, each mapped to `/cromwell_root/data` |
| Listing.ChannelKey | scripts/commands.py:315 | a normalised channel key holds no space |
| Listing.NormalizeChannels | scripts/commands.py:315 | no key of the normalised channel map holds a space |
| Listing.NormalizedKeys | scripts/commands.py:315 | the keys are exactly the configured keys with spaces removed |
| Listing.NormalizedLastWins | scripts/commands.py:315 | where several keys collapse to one, the label of the last such pair wins |
| Illumination.Suffix | append_illum_cols_39.py:82 | `channel.replace("Orig", "")`; Text.RemoveAllKeeps and SuffixSinglePass state it |
| Illumination.IllumHeader | append_illum_cols_39.py:82 | the `FileName_Illum<X>`, `PathName_Illum<X>` header for the sorted labels; HeaderLayout states it |
| Illumination.IllumRow | append_illum_cols_39.py:86-87 | the row of illumination files and the directory; RowLayout states it |
| Illumination.WriteCsv | append_illum_cols_39.py:81-88 | the header, then the row `nrows` times; WriteCsvRows and DefaultPlate state it |
| Illumination.WriteCsvForPlate | scripts/commands.py:380-393 | the same, the file names prefixed with `<plate_id>_` unless the id is "plate_id"; WriteCsvForPlateRows, DefaultPlate, OtherPlate and LabelOrderIrrelevant state it |
| Illumination.RowCount | append_illum_cols_39.py:67 | the input's line count minus the header line; RowCountLines states it |
| Illumination.Suffixes | append_illum_cols_39.py:82 | one suffix per channel label |
| Illumination.HeaderLayout | append_illum_cols_39.py:82 | the header has 2·\|channels\| columns, `FileName_Illum<X>` and `PathName_Illum<X>` for the i-th sorted label at 2i and 2i+1, X the label without "Orig" |
| Illumination.RowLayout | append_illum_cols_39.py:86-87 | the row is as wide as the header and holds the illumination file of the i-th sorted label and the directory at 2i and 2i+1 |
| Illumination.WriteCsvRows | append_illum_cols_39.py:82-88 | one header, then exactly max(nrows, 0) rows, all identical |
| Illumination.WriteCsvForPlateRows | scripts/commands.py:380-393 | the same for the plate-aware writer |
| Illumination.DefaultPlate | scripts/commands.py:386-388 | with plate id "plate_id" both writers write the same table, files named `Illum<X><ext>` |
| Illumination.OtherPlate | scripts/commands.py:389-391 | with any other plate id each file is `<plate_id>_Illum<X><ext>` |
| Illumination.LabelOrderIrrelevant | scripts/commands.py:381-391 | the table depends only on which labels are configured, not on their order |
| Illumination.RowCountLines | append_illum_cols_39.py:67 | nrows is the line count of the input minus the header line |
| Illumination.SuffixSinglePass | append_illum_cols_39.py:82 | `replace("Orig", "")` is one left-to-right pass: "OOrigrig" becomes "Orig" |
| Pipeline.Convert | scripts/commands.py:293-318 | parse, take the sections, list the paths, normalise the channel keys and join, stopping at the first failure; ConvertShape and Pe2LoadData state it |
| Pipeline.ConvertShape | scripts/commands.py:293-318 | a successful conversion has the configured header, space-free channel keys, rows as wide as the header and sorted plates |
| Pipeline.Pe2LoadData | scripts/commands.py:293-318 | parsing, section lookup, path listing, channel normalisation and the join, run in turn, compute exactly `Convert` |

## Left out

- The XML parser: the input is the SAX event stream it would deliver; a malformed document is one `SyntaxError` event, which fails the run.
- `csv.writer`, the pandas DataFrame and `to_csv`: the output is the header and the row sequence; CSV quoting and line endings are not modelled.
- Path discovery in `pe2loaddata_39.py` `main` (`os.walk` for `.tiff` files, or `os.listdir` mapped to `/data`): it reads the file system; `write_csv` takes `paths` as a given map.
- The command-line interfaces (argparse, click), `check_file_arg`/`check_dir_arg` and the YAML `load_config`: the configuration is an input, its keys and values taken to be strings (so `str(k)` is the key itself; a non-string label, which makes `"_".join` raise, is not modelled).
- Logging, `tempfile`, `shutil` and the `paste` shell-out that glues the illumination columns to the input table.
- `IPython.embed` in `pe2loaddata_39.py`: an interactive debugger; the model treats each such path as a failure, as `scripts/commands.py` does with `RuntimeError`.
- `pe2loaddata_39.py` logs a parse exception and continues with the partly built tree; the pipeline follows `scripts/commands.py`, where the exception stops the run.
- Documents.Step: after the root closes, a further end or text event makes the source recurse until Python's recursion limit; the model reports it as `NoCurrentElement`.
- Text.ParseInt: accepts the ASCII digits only; `int()` also accepts the other Unicode decimal digits.
- Text.TrimStart, Text.TrimEnd: their own contracts state only the length bound; what they keep and drop is stated in TrimStartShape, TrimEndShape, StripSlice and StripDrops.
- Naming.CodePoint: `chr` of a surrogate succeeds in Python but cannot be written out; the model reports it as a bad well name.
- Hierarchy.Tables: a Wells or Plates index whose entry is not a Well or a Plate is reported as a structure error; Python would raise later when reading `image_ids` or `well_ids`. ExtractAfterRun proves such entries do not arise from an event stream whose end tags name the elements they close, which the XML parser guarantees.
- LoadData.Join: its own contract states only the header. The rows are described by separate lemmas: their width and plate order (JoinRows), their number, one per complete field of every listed well (JoinCount), their grouping plate by plate and well by well (TableSplits), the wells and images they came from (JoinWellsOk, GroupIsLastImages) and the site (JoinSites). No lemma states the converse, that the table succeeds whenever every well and image is good.
- LoadData.JoinError `BadSite` (a field key whose first two characters are not an integer) never arises; JoinSites proves it.
- `convert_to_dataframe`'s nested loops are split into one method per loop (`GroupImages`, `BuildRow`, `FieldRows`, `WellRows`, `PlateRows`, `ConvertToDataFrame`).
- `channels.values()` of the illumination writer is a sequence of labels in configuration order.
- Listing.BuildPaths: the model is exact on the listing text after Python's newline translation; on raw text it splits at '\n' only, so a line ending in "\r\n" or '\r' keeps the '\r' in its key.
- Illumination.RowCount: counts lines split at '\n' only; Python's text mode also splits at '\r' and "\r\n".
