# LAMMPS text dump reader and writer (gblearn/lammps.py)

A Dafny model of the LAMMPS dump-file component of gblearn:

- `Timestep._read` is the line-driven parser. It runs over one file
  cursor, with a stack of pending casts, the current section, the
  `result` dict, the extra column keys and the `timeskip` / `laststep`
  flags.
- `Timestep.__init__` turns the raw dict into columns, or into the empty
  timestep that ends a dump.
- `Timestep.__len__` and `Timestep.__eq__` are modelled as written.
- `Timestep.dump` is the writer.
- `Dump` reads every timestep of one shared file into a dict keyed by
  timestep index. It also provides length, membership, lookup, equality
  and a bulk write.

How the source is represented:

- A file is a sequence of lines. A cursor position is a line index, which
  plays the part of `f.tell()` / `f.seek()`. A shared file (`openf` given)
  and a private one (`openf is None`) differ only in a flag and in where
  the cursor starts.
- Python dicts are insertion-ordered association lists (module `Dicts`).
- The objects stored in `result` are the datatype `Raw.Obj`. The
  exceptions the source raises are `Raw.Error`. Every operation that can
  raise returns a `Result`.
- The parser's loop is a pure transition, `Reader.Step`, iterated by
  `Reader.Run`. The imperative `while` loop `Reader.ReadStep` is proved to
  compute the same outcome.
- The writer's output is the function `Writer.StepText`, which the method
  `Writer.WriteStep` is proved to produce. `Dumps.Dump` is a class whose
  `steps` field the opening loop fills.

Modules:

- `Text`: `split`, `strip`, `in`, `find` and `split(sep)` on strings;
  `int()` parsing and decimal text; the token shapes accepted by `float()`
  and `eval`.
- `Dicts`: Python dict operations on association lists.
- `Raw`: the objects, the errors and the casts of the parser.
- `Reader`: `Timestep._read`.
- `ReaderFacts`: what the parser promises.
- `Timesteps`: `Timestep.__init__`, `__len__`, `__eq__`.
- `Writer`: `Timestep.dump`.
- `WriterFacts`: what the writer promises.
- `RoundTrip`: the written BOX BOUNDS header read back.
- `WriteRead`: a whole written timestep read back by the constructor.
- `Dumps`: `Dump`.

Where the code and its documentation disagree, the model follows the code:

- A filtered dump does not just leave out the filtered timesteps. The
  value of a skipped timestep stays under `"time"` as a scalar, so the
  next TIMESTEP value in the same read is appended to an integer and
  raises (`ReaderFacts.SkipThenFail`). A dump over timesteps 0, 1, 2, 3
  with the filter {0, 2} therefore raises in its second read, which
  skips timestep 1 and then reaches timestep 2; it does not yield {0, 2}.
- A declared atom count that differs from the number of rows does not
  warn. The message built at lines 113-114 has three placeholders and gets one
  argument, so building the message raises (`Timesteps.FromRawFacts`).
- A timestep written by `dump` and read back is never `==` to the one
  written. `dump` writes every name in `extras`, and `extras` always
  starts with "ids". The constructor starts `extras` with "ids" again, so
  the timestep read back has one more "ids" (`WriteRead.WriteRead`).
- A TIMESTEP value line without tokens gives the empty list as the
  value: the zip of one cast with no tokens is empty
  (`ReaderFacts.TimeValues`). With no target index, that list becomes
  the index (`ReaderFacts.BlankTime`). `Dump` then stores the timestep
  under a list, which raises, unless the timestep has no atoms, which
  ends the dump (`Dumps.BlankTimeEnds`). A list compared with an integer
  target index cannot be ordered and raises; against a non-empty list target,
  `[]` is the smaller, so the timestep is skipped (`ReaderFacts.BlankAgainstTarget`).
- The box is `np.array` of the rows read, and a box line gives as many
  numbers as it has tokens, up to two. Lines of one token give a flat
  array of floats and blank lines an array of empty rows; rows of
  different widths raise (`Timesteps.BoxShapes`). `dump` raises on a
  flat box with rows, since `*` cannot unpack a float, and on a box of
  empty rows, since the format has no argument for its field.
- `Dump.__eq__` compares the `(index, timestep)` pairs its iteration
  yields, so indices are compared as well as timesteps, and only over the
  shorter dump (`Dumps.ZipEqPairs`).

## Model

| member | source | states |
|---|---|---|
| Text.SplitWords | gblearn/lammps.py:281 | every token of `line.split()` is non-empty and free of whitespace |
| Text.Strip | gblearn/lammps.py:341 | `strip()` yields a string no longer than the input that neither starts nor ends with whitespace |
| Text.Find | gblearn/lammps.py:341 | the position returned is the first occurrence of the separator, and none means the separator does not occur |
| Text.SplitOn | gblearn/lammps.py:341 | `split(sep)` yields at least one piece, and the whole string when the separator does not occur |
| Text.Before | gblearn/lammps.py:106 | `key.split(':')[1]` is the longest prefix of the heading without a colon |
| Text.ParseIntText | gblearn/lammps.py:208-210 | reading back the decimal text of an integer with `int` gives that integer |
| Text.SplitJoin | gblearn/lammps.py:212-213 | splitting the space-join of words gives the words back |
| Dicts.PutFacts | gblearn/lammps.py:303-308 | after `d[k] = v`, `d[k]` is `v`, every other key keeps its value, and a new key goes at the end of the key order |
| Dicts.PutUnique | gblearn/lammps.py:26 | assigning to a dict keeps its keys unique |
| Raw.ParseFloat | gblearn/lammps.py:282 | `float(tok)` succeeds exactly on float literals and keeps the token |
| Raw.ApplyCastFacts | gblearn/lammps.py:282 | `int(tok)` succeeds exactly when the token parses as an integer and gives that integer; `float(tok)` succeeds exactly on float literals |
| Raw.CastAllPairs | gblearn/lammps.py:282 | the zip of casts and tokens casts token i with cast i, and fails exactly when one of those casts fails |
| Raw.Eval | gblearn/lammps.py:326 | `eval` of an integer literal gives that int, the one `int()` gives, of a float literal gives that float, and leaves any other token opaque |
| Raw.GreaterAsymmetric | gblearn/lammps.py:290 | Python's `>` on integers and lists, as the TIMESTEP check uses it, is asymmetric: when `a > b`, `b > a` is false and does not raise |
| Reader.Step | gblearn/lammps.py:273-365 | one turn of the loop consumes exactly the line under the cursor, or stops with the cursor on that line or just after it |
| Reader.ReadStep | gblearn/lammps.py:246-371 | the imperative loop returns exactly the outcome of the functional reader |
| Reader.Turn | gblearn/lammps.py:279-365 | one loop iteration dispatches to a data line, an atom row or a header as the functional step does |
| Reader.ReadData | gblearn/lammps.py:279-309 | a data line pops its casts, casts the tokens, checks a TIMESTEP value and stores, as specified |
| Reader.ReadRow | gblearn/lammps.py:310-327 | an atom row is appended to the columns, or the next item line ends the read with the cursor left on it on a shared file |
| Reader.ReadHeader | gblearn/lammps.py:329-365 | a header line opens its section, or ends the read at the next TIMESTEP after an overshoot |
| Reader.AddColumns | gblearn/lammps.py:357-365 | an empty column and an "atom:" key per heading after the seventh, in order |
| Reader.AppendExtras | gblearn/lammps.py:324-326 | token i of a row's tail is evaluated and appended to extra column i |
| Reader.TimeTurn | gblearn/lammps.py:286-301 | the TIMESTEP value is checked against the filter first and the target index second; with no target the value read, whatever it is, becomes the index; a value unequal to the target is ordered against it by Python's `>`, which raises on an integer against a list |
| Reader.StoreValues | gblearn/lammps.py:303-308 | a section's last value is stored as is unless the key is present; otherwise values are appended to a list |
| ReaderFacts.SkippedFails | gblearn/lammps.py:286-308 | after a skipped timestep, the next TIMESTEP value that is not given up on raises |
| ReaderFacts.RunBounds | gblearn/lammps.py:273-315 | the loop never moves the cursor before where it started, and stops at the end of the file at the latest |
| ReaderFacts.ReadAdvances | gblearn/lammps.py:273-315 | a read that returns a non-empty dict has moved the cursor forward |
| ReaderFacts.AtomRowsEnd | gblearn/lammps.py:310-315 | atom rows run up to the first line containing "ITEM", which is not consumed: on a shared file the cursor is left on it |
| ReaderFacts.TimeValues | gblearn/lammps.py:280-284 | a TIMESTEP value is an integer or, from a line without tokens, the empty list |
| ReaderFacts.BlankValue | gblearn/lammps.py:279-308 | a TIMESTEP value line without tokens stores the empty list under "time" and makes it the index |
| ReaderFacts.BlankAgainstTarget | gblearn/lammps.py:289-297 | a TIMESTEP line without tokens skips the timestep against a non-empty list target, and raises against an integer target |
| ReaderFacts.BlankTime | gblearn/lammps.py:279-308 | a TIMESTEP header followed by a line without tokens, read with no target index, goes on with the empty list as index and as "time" |
| ReaderFacts.CastTime | gblearn/lammps.py:280-284 | the value of a TIMESTEP value line is that line's integer |
| ReaderFacts.ReadTime | gblearn/lammps.py:286-309 | a TIMESTEP header and its value line: the value is checked and, unless the read gives up, stored under "time" |
| ReaderFacts.SkipToTimestep | gblearn/lammps.py:329-336 | while a timestep is skipped, every line up to the next TIMESTEP header is ignored, section headers included |
| ReaderFacts.FilterFirst | gblearn/lammps.py:287-289 | a value outside the filter skips the timestep even when it equals the target index |
| ReaderFacts.OvershootPrivate | gblearn/lammps.py:289-292 | past the target index on a private file, the read returns an empty dict at once |
| ReaderFacts.OvershootShared | gblearn/lammps.py:289-295 | past the target index on a shared file, the rest of the timestep is skipped and the cursor is left on the next TIMESTEP header |
| ReaderFacts.KeepTime | gblearn/lammps.py:286-309 | a kept TIMESTEP value is stored and reading goes on with the verdict's flags |
| ReaderFacts.SecondTimeFails | gblearn/lammps.py:303-308 | a TIMESTEP value read when "time" already holds an integer is appended to it, which raises |
| ReaderFacts.SkipThenFail | gblearn/lammps.py:286-308 | a read that skips a timestep and then reaches a kept one raises, because the skipped value stays stored as a scalar |
| ReaderFacts.AppendToFacts | gblearn/lammps.py:320-326 | a successful `append` added the value at the end of that list, and no other key changed |
| ReaderFacts.AddExtrasFacts | gblearn/lammps.py:324-326 | token i of a row's tail goes to the end of extra column i, no other key changes, and a row with more tokens than extra columns raises |
| ReaderFacts.RowFixedFacts | gblearn/lammps.py:318-323 | a row that is read has two integers and three floats, appended to `type`, `id` and `xyz`, and no other key changes |
| ReaderFacts.AddRowFacts | gblearn/lammps.py:318-326 | a row that is read appends its id, type and position, and its token 5+i to extra column i |
| ReaderFacts.AtomColumnsAligned | gblearn/lammps.py:348-365 | the ATOMS header starts `type`, `id` and `xyz` empty together |
| ReaderFacts.AddRowAligned | gblearn/lammps.py:318-323 | an atom row grows `type`, `id` and `xyz` by one each |
| ReaderFacts.StepAligned | gblearn/lammps.py:273-365 | one turn of the loop keeps `type`, `id` and `xyz` of one length |
| ReaderFacts.RunAligned | gblearn/lammps.py:273-371 | whatever the loop returns has `type`, `id` and `xyz` all absent or all of one length |
| ReaderFacts.ReadAligned | gblearn/lammps.py:246-371 | whatever `_read` returns has `type`, `id` and `xyz` all absent or all of one length |
| Timesteps.AsInts | gblearn/lammps.py:99-100 | `np.array(raw[k], int)` has one integer per stored entry |
| Timesteps.AsFlags | gblearn/lammps.py:110 | an axis is periodic exactly when its token is "pp" |
| Timesteps.Init | gblearn/lammps.py:83-114 | the constructor reads, then builds, as the functional model does |
| Timesteps.Build | gblearn/lammps.py:99-114 | the columns are built from a dict with at least six keys as the functional model does, the box kept as the rows read |
| Timesteps.AsBox | gblearn/lammps.py:111 | `np.array(raw["box"])` has one row per box line read, and a box of pairs holds exactly the pairs read |
| Timesteps.BoxRowWidth | gblearn/lammps.py:280-284 | a box line gives a pair, a single float or the empty list, as many numbers as it has tokens up to two |
| Timesteps.BoxShapes | gblearn/lammps.py:111 | the box builds exactly when every box line gave the same number of numbers |
| Timesteps.CollectAttrs | gblearn/lammps.py:102-108 | `extras` starts as ["ids"], and each "atom:" key adds its name and sets that attribute |
| Timesteps.EqFacts | gblearn/lammps.py:118-126 | the model's `Eq`, which compares positions, ids, types and box exactly, is an equivalence that ignores the index, and equal timesteps have equal length |
| Timesteps.AddAttrsFacts | gblearn/lammps.py:102-108 | the attribute loop succeeds exactly when no key is `None` and every "atom:" key holds a list, and then appends each "atom:" name to `extras` in key order |
| Timesteps.FromRawFacts | gblearn/lammps.py:88-114 | fewer than six keys give the empty timestep of length 0; otherwise `extras` is "ids" then the extra names, periodicity is "pp" per axis, and a declared count other than the row count raises |
| Timesteps.LoadAligned | gblearn/lammps.py:83-114 | a timestep that loads has one type per position, as many positions as the NUMBER OF ATOMS value read, `extras` starting with "ids", and one id per position unless an "ids" column replaced them |
| Writer.PeriodTokens | gblearn/lammps.py:212 | one token per axis, "pp" for a periodic axis and "ss" otherwise |
| Writer.BoxLines | gblearn/lammps.py:220-221 | one line per box row, in order |
| Writer.KindOf | gblearn/lammps.py:229-234 | a column is `int64` exactly when every entry is an integer, and numeric exactly when every entry is a number |
| Writer.Fields | gblearn/lammps.py:229-234 | one field per extras name, in order, each a present, non-empty attribute with its dtype |
| Writer.ShortField | gblearn/lammps.py:243 | no field is reported short exactly when every field has an entry for the atom |
| Writer.AtomResults | gblearn/lammps.py:239-244 | one result per position, the k-th being atom k's line |
| Writer.WriteStep | gblearn/lammps.py:197-244 | the file afterwards is the prior file (emptied in mode 'w') followed by the timestep's text, and the error is the one the text stops at |
| Writer.WriteBoxSection | gblearn/lammps.py:212-244 | writes the BOX BOUNDS header, the box and the atoms, stopping where the source raises: on a flat box or a box of empty rows with any rows |
| Writer.WriteBox | gblearn/lammps.py:220-221 | appends exactly the box lines |
| Writer.WriteAtomSection | gblearn/lammps.py:223-244 | appends the ATOMS header and then the atom lines |
| Writer.CollectFields | gblearn/lammps.py:226-235 | the format loop finds the fields of every extras name, or the first failure |
| Writer.WriteAtoms | gblearn/lammps.py:237-244 | appends the atom lines up to the first that raises, and reports that error |
| WriterFacts.FieldsOk | gblearn/lammps.py:229-234 | the format loop completes exactly when every extras name has a non-empty attribute |
| WriterFacts.CollectComplete | gblearn/lammps.py:239-244 | lines written one after another complete exactly when none raises |
| WriterFacts.CollectText | gblearn/lammps.py:239-244 | when they complete, there is one line per result, line k being result k |
| WriterFacts.AtomLinesOk | gblearn/lammps.py:239-244 | the atom lines complete exactly when ids, types and every extras column cover every atom and the ids are integers |
| WriterFacts.WriteOk | gblearn/lammps.py:206-244 | `dump` completes exactly for a non-empty timestep whose box is of pairs or has no rows and whose extras columns are present and non-empty, and, with atoms, cover them and have integer ids |
| WriterFacts.Layout | gblearn/lammps.py:206-244 | a completed write is the TIMESTEP and count lines with `len(self)`, the BOX BOUNDS header, one line per box pair, the ATOMS header naming all of `extras`, then the atom lines |
| WriterFacts.AtomLinesText | gblearn/lammps.py:237-244 | a completed write has one line per atom, line k being atom k's id, type, position and printed fields |
| WriterFacts.ZeroAtomsFail | gblearn/lammps.py:220-230 | a timestep with no atoms cannot be written: the box raises first if it can, otherwise taking the first id raises |
| RoundTrip.FindSep | gblearn/lammps.py:213 | in a written header, "BOX BOUNDS" first occurs right after "ITEM: " |
| RoundTrip.SplitOnce | gblearn/lammps.py:341 | `split(sep)` of a string where the separator occurs once gives the parts before and after it |
| RoundTrip.HeaderParts | gblearn/lammps.py:341 | a written header is already stripped and splits around "BOX BOUNDS" in two |
| RoundTrip.TailTokens | gblearn/lammps.py:341-343 | the periodicity tokens read are the words after "BOX BOUNDS" |
| RoundTrip.BoxHeaderTokens | gblearn/lammps.py:212-213 | reading back a written BOX BOUNDS header gives the periodicity tokens written |
| RoundTrip.BareBoxHeader | gblearn/lammps.py:344-345 | a header written without axes reads back as three non-periodic axes |
| WriteRead.FloatChars | gblearn/lammps.py:244 | a float written as its literal text is one word of number characters |
| WriteRead.RowSplit | gblearn/lammps.py:237-244 | splitting an atom line, the fixed fields then the printed extras, gives every written word back |
| WriteRead.AtomTextSplit | gblearn/lammps.py:237-244 | a written atom line splits into its id, type, position and printed fields, and contains no "ITEM" |
| WriteRead.RowTokens | gblearn/lammps.py:316-323 | the reader takes back atom k's id and type as the integers written and its position as the text written |
| WriteRead.RowStep | gblearn/lammps.py:316-326 | reading back atom k's line appends its type, id and position and keeps the header sections |
| WriteRead.RowsLoop | gblearn/lammps.py:310-326 | reading back every remaining written atom line succeeds and appends every atom in order |
| WriteRead.RowsNoItem | gblearn/lammps.py:310-315 | no written atom line ends the atom rows early |
| WriteRead.RowsRun | gblearn/lammps.py:310-371 | after the ATOMS header, the reader consumes every written atom line and returns the dict with all atoms |
| WriteRead.HeaderAt | gblearn/lammps.py:207-224 | the nine header lines written, one by one |
| WriteRead.HeadPart | gblearn/lammps.py:279-309 | the TIMESTEP, NUMBER OF ATOMS and BOX BOUNDS headers written are read back with the index, the atom count and the periodicity tokens |
| WriteRead.BoxPart | gblearn/lammps.py:303-309 | the three box lines written are read back as the box pairs, in order |
| WriteRead.AtomsPart | gblearn/lammps.py:348-365 | the ATOMS header written sets up the fixed columns and one "atom:" column per extras name |
| WriteRead.HeaderChain | gblearn/lammps.py:207-224 | the header of a written timestep reads back to the atom rows with every header section stored |
| WriteRead.ReadWritten | gblearn/lammps.py:246-371 | reading a written timestep with no filter consumes the whole text, keeps the written index and holds every atom row |
| WriteRead.TypesBack | gblearn/lammps.py:99 | `np.array(raw["type"], int)` gives back the types read |
| WriteRead.FromDict | gblearn/lammps.py:90-114 | a dict with the seven sections as the reader stores them builds a timestep from exactly those values, with `extras` "ids" then the "atom:" names |
| WriteRead.FromRows | gblearn/lammps.py:90-114 | the dict read back from a written timestep builds one with the written types, positions, box, periodicity and ids, and `extras` "ids" then every written name |
| WriteRead.WriteRead | gblearn/lammps.py:83-244 | a timestep with an integer index and a box of three pairs, written and read back, has every line consumed and the same index, types, positions (as the literal text written), box and periodicity, but one more "ids" in `extras`, so it is never `==` to the original |
| Dumps.ReadFromUnique | gblearn/lammps.py:23-27 | the dict of timesteps keeps its keys unique |
| Dumps.ReadFromStored | gblearn/lammps.py:25-26 | every timestep kept has atoms and is stored under its own index |
| Dumps.PutStored | gblearn/lammps.py:26 | storing a timestep with atoms under its index keeps that true of the dict |
| Dumps.LoadAdvances | gblearn/lammps.py:24-27 | on a shared file, a timestep with atoms moves the cursor forward, so the loop ends |
| Dumps.ZipEqPairs | gblearn/lammps.py:39-42 | two dumps are equal exactly when the pairs at each position of the shorter agree in index and timestep |
| Dumps.DistinctCount | gblearn/lammps.py:30-31 | a dict with unique keys has as many keys as entries |
| Dumps.Dump.Count | gblearn/lammps.py:30-31 | `len(dump)` is the number of distinct indices stored |
| Dumps.Dump.At | gblearn/lammps.py:36-37 | `dump[ts]` succeeds exactly for a stored index, and gives the timestep stored under it |
| Dumps.WriteAllClean | gblearn/lammps.py:56-57 | when no timestep raises, the file gains every timestep's text in order |
| Dumps.WriteAllStops | gblearn/lammps.py:56-57 | when timestep k is the first to raise, the file gains the texts of the timesteps before it and what k wrote, and k's error is raised |
| Dumps.BlankTimeEnds | gblearn/lammps.py:23-27 | a file ending in a TIMESTEP header and a line without tokens ends the dump there |
| Dumps.Dump.Write | gblearn/lammps.py:44-57 | the file is emptied once in mode 'w', then each timestep is appended in order, stopping at the first that raises |
| Dumps.Dump.Empty | gblearn/lammps.py:21 | a new dump holds no timesteps |
| Dumps.Open | gblearn/lammps.py:18-27 | `Dump(filepath, stepfilter)` holds exactly the timesteps read up to the first without atoms, or fails as that read does or when an index is a list |

## Left out

- Path expansion, `open` and `close`, and the file left open by the early `return {}` are not modelled. The file is its list of lines, given as a parameter.
- `msg.warn` is not modelled: the only call to it raises before printing.
- `Timestep.gb` and `Timestep.gbids` call into `gblearn.selection` and `gblearn.gb`, which are not part of this model.
- The `rebox` branch of `Timestep.dump` calls `extent` from `gblearn.selection`, which is not part of this model. The writer always uses the stored box, as with `rebox` false.
- Floating point is not modelled. Floats are kept as the token text `float()` accepts. The `.4f`, `.5f` and `.5e` formats write that text unchanged.
- Timesteps.Eq: `np.allclose` is taken as exact equality, and comparing columns of different shapes does not raise.
- Timesteps.EqFacts: the facts are about the model's exact `Eq`. `np.allclose` has a relative tolerance, so the source's `__eq__` is neither symmetric nor transitive in general; it broadcasts columns of different shapes, and it raises on a `None` box, so two empty timesteps do not compare.
- Timesteps.Build: the box is built as current NumPy does, raising on rows of different widths. Older NumPy builds an object array there instead.
- Reader.CheckTime: floats are kept as text, so a float in a target index given by the caller is compared with the value read by its text, and `>` raises on it where Python compares a float with an integer numerically. A tuple given as the target is treated as a list, where Python cannot order a list against a tuple.
- Raw.ParseFloat: `float()` also accepts underscores between digits and non-ASCII decimal digits; the model rejects those tokens.
- Raw.ApplyCastFacts: `int()` also accepts underscores between digits and non-ASCII decimal digits; the model rejects those tokens.
- Raw.Eval: `eval` of a token that is not an integer or float literal is kept as an opaque value, whatever Python would make of it.
- Integer widths are unbounded. `int64` overflow in `np.array(..., int)` is not modelled.
- NumPy arrays are sequences, and a column's dtype is reduced to int64, float64 or other.
- A heading whose name is any attribute of the timestep (`filepath`, `index`, `types`, `xyz`, `box`, `periodic`, `extras`, or a method name) would overwrite that attribute through `setattr`; a heading named `index`, for one, would make the index an array, which `Dump` could not store. The model keeps such columns apart; only `ids` is replaced.
- The extra columns are only known to grow with the rows that have that many tokens. A row with fewer extra tokens than headings leaves later columns short, and nothing is proved about their length.
- Open modes other than 'a' and 'w' are not modelled.
- WriteRead.WriteRead: the box and positions come back unchanged only because the `.4f` (line 221) and `.5f` (line 237) formats are modelled as writing the literal text of the float. In Python they round, so a box or position with more decimals comes back rounded.
- WriteRead.WriteRead: the round trip is proved for a timestep with an integer index and three box pairs, at least one axis and `extras` names that are words with no colon, no repeats and no "ITEM". It is proved with no step filter and from the start of the file. A written `dump` of several timesteps read back by `Dump` is not proved.
- WriteRead.WriteRead: the extras columns read back are only known to be lists. Their values, as `eval` gives them back, are not proved equal to the written ones.
