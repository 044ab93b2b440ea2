/** `Timestep.dump`: the lines written for one timestep, in the text dump
    format the reader parses. Numbers are written as their text: the
    `.4f`, `.5f` and `.5e` formats are not modelled digit by digit. */
module Writer {
  import opened Text
  import opened Raw
  import opened Timesteps

  /** The lines of the file after the write, and the exception that stopped
      it, if any; lines written before an exception stay in the file. */
  datatype Written = Written(lines: seq<string>, error: Option<Error>)

  /** `open(filename, mode)` for the modes the writers use. */
  datatype OpenMode = AppendMode | WriteMode

  function Opened(prior: seq<string>, mode: OpenMode): seq<string> {
    if mode == WriteMode then [] else prior
  }

  /** `repr` of an object as it appears inside a list; a float is its
      text, and a list or tuple is written as a list. */
  function Repr(o: Obj): string
    decreases o, 1
  {
    match o
    case OInt(i) => IntText(i)
    case OFloat(f) => f
    case OStr(s) => "'" + s + "'"
    case OOther(tok) => tok
    case OList(items) => "[" + ReprItems(items) + "]"
  }

  /** The items of a list, separated by ", ". */
  function ReprItems(items: seq<Obj>): string
    decreases items, 0
  {
    if items == [] then ""
    else if |items| == 1 then Repr(items[0])
    else Repr(items[0]) + ", " + ReprItems(items[1..])
  }

  /** `"{}".format(self.index)`: `str` of the index. */
  function IndexText(index: Index): string {
    match index
    case None => "None"
    case Some(OStr(s)) => s
    case Some(o) => Repr(o)
  }

  /** Lines 206-209. */
  function HeadLines(t: Timestep): seq<string> {
    ["ITEM: TIMESTEP", IndexText(t.index), "ITEM: NUMBER OF ATOMS", IntText(Len(t))]
  }

  /** Line 211: "pp" for a periodic axis, "ss" otherwise. */
  function PeriodTokens(periodic: seq<bool>): (toks: seq<string>)
    ensures |toks| == |periodic|
    ensures forall i :: 0 <= i < |periodic| ==> toks[i] == (if periodic[i] then "pp" else "ss")
  {
    seq(|periodic|, i requires 0 <= i < |periodic| => if periodic[i] then "pp" else "ss")
  }

  function BoxHeader(periodic: seq<bool>): string {
    "ITEM: BOX BOUNDS " + Join(PeriodTokens(periodic))
  }

  /** Line 220: one "lo hi" line. */
  function BoxLine(b: Bound): string {
    b.lo + " " + b.hi
  }

  function BoxLines(box: seq<Bound>): (ls: seq<string>)
    ensures |ls| == |box|
    ensures forall i :: 0 <= i < |box| ==> ls[i] == BoxLine(box[i])
  {
    seq(|box|, i requires 0 <= i < |box| => BoxLine(box[i]))
  }

  /** Lines 219-220 on each shape of box: `*row` of a single float raises,
      and a row without numbers leaves the format without arguments, which
      raises; a box without rows writes nothing. */
  function BoxText(box: Box): Written {
    match box
    case PairBox(bs) => Written(BoxLines(bs), None)
    case FlatBox(vs) => Written([], if vs == [] then None else Some(NotIterable))
    case BlankBox(n) => Written([], if n == 0 then None else Some(MissingArgument))
  }

  /** Line 223. */
  function AtomsHeader(extras: seq<string>): string {
    "ITEM: ATOMS id type x y z " + Join(extras)
  }

  // ---------------------------------------------------------------------
  // Extra columns

  /** The numpy dtype of a column: `int64` when every entry is an integer,
      `float64` when every entry is a number and one is a float. */
  datatype Kind = Int64 | Float64 | OtherKind

  function KindOf(col: seq<Obj>): (k: Kind)
    ensures k == Int64 <==> forall i :: 0 <= i < |col| ==> col[i].OInt?
    ensures k != OtherKind <==> forall i :: 0 <= i < |col| ==> col[i].OInt? || col[i].OFloat?
  {
    if forall i :: 0 <= i < |col| ==> col[i].OInt? then Int64
    else if forall i :: 0 <= i < |col| ==> col[i].OInt? || col[i].OFloat? then Float64
    else OtherKind
  }

  /** `getattr(self, name)`: the `ids` attribute or an extra column. */
  function Column(t: Timestep, name: string): Option<seq<Obj>> {
    if name == "ids" then Some(t.ids)
    else if name in t.columns then Some(t.columns[name])
    else None
  }

  /** An extras column with the dtype of its first entry; only `int64` and
      `float64` columns get a field in the atom lines. */
  datatype Field = Field(name: string, values: seq<Obj>, kind: Kind)

  function Printed(f: Field): bool { f.kind != OtherKind }

  /** Lines 226-234 for the names `names`: fails on a missing attribute or
      an empty column. */
  function Fields(t: Timestep, names: seq<string>): (r: Result<seq<Field>>)
    ensures r.Ok? ==> |r.value| == |names|
    ensures r.Ok? ==> forall j :: 0 <= j < |names| ==>
      r.value[j].name == names[j] && Column(t, names[j]) == Some(r.value[j].values) &&
      |r.value[j].values| > 0 && r.value[j].kind == KindOf(r.value[j].values)
  {
    if names == [] then Ok([])
    else
      var c := Column(t, names[0]);
      if c.None? then Err(MissingColumn(names[0]))
      else if c.value == [] then Err(EmptyColumn(names[0]))
      else
        match Fields(t, names[1..])
        case Err(e) => Err(e)
        case Ok(rest) => Ok([Field(names[0], c.value, KindOf(c.value))] + rest)
  }

  /** The first field with no entry at `i`, if any. */
  function ShortField(fs: seq<Field>, i: nat): (r: Option<string>)
    ensures r.None? <==> forall j :: 0 <= j < |fs| ==> i < |fs[j].values|
  {
    if fs == [] then None
    else if i >= |fs[0].values| then Some(fs[0].name)
    else ShortField(fs[1..], i)
  }

  /** A number as written: an integer's decimal text, a float's text. */
  function Render(o: Obj): string
    requires o.OInt? || o.OFloat?
  {
    if o.OInt? then IntText(o.i) else o.f
  }

  /** The printed fields of atom `i`, in `extras` order. */
  function FieldTexts(fs: seq<Field>, i: nat): (texts: seq<string>)
    requires forall j :: 0 <= j < |fs| ==> i < |fs[j].values| && fs[j].kind == KindOf(fs[j].values)
  {
    if fs == [] then []
    else if Printed(fs[0]) then
      var col := fs[0].values;
      assert KindOf(col) != OtherKind;
      [Render(col[i])] + FieldTexts(fs[1..], i)
    else FieldTexts(fs[1..], i)
  }

  /** Lines 238-242 for atom `i`. */
  function AtomLine(t: Timestep, fs: seq<Field>, i: nat): (r: Result<string>)
    requires i < Len(t)
    requires forall j :: 0 <= j < |fs| ==> fs[j].kind == KindOf(fs[j].values)
  {
    if i >= |t.ids| then Err(ShortColumn("ids"))
    else if i >= |t.types| then Err(ShortColumn("types"))
    else if ShortField(fs, i).Some? then Err(ShortColumn(ShortField(fs, i).value))
    else if KindOf(t.ids) != Int64 then Err(NonIntegerId)
    else Ok(AtomText(t, fs, i))
  }

  /** The text of atom `i`'s line: id, type, x, y, z, then the printed
      fields. */
  function AtomText(t: Timestep, fs: seq<Field>, i: nat): string
    requires i < Len(t) && i < |t.ids| && i < |t.types| && t.ids[i].OInt?
    requires forall j :: 0 <= j < |fs| ==> i < |fs[j].values| && fs[j].kind == KindOf(fs[j].values)
  {
    var p := t.xyz[i];
    Join([IntText(t.ids[i].i), IntText(t.types[i]), p.x, p.y, p.z]) + " " + Join(FieldTexts(fs, i))
  }

  /** What each atom's line comes out as, in atom order. */
  function AtomResults(t: Timestep, fs: seq<Field>): (rs: seq<Result<string>>)
    requires forall j :: 0 <= j < |fs| ==> fs[j].kind == KindOf(fs[j].values)
    ensures |rs| == Len(t) && forall i :: 0 <= i < Len(t) ==> rs[i] == AtomLine(t, fs, i)
  {
    seq(Len(t), i requires 0 <= i < Len(t) => AtomLine(t, fs, i))
  }

  /** Lines written one after another, up to the first that raises. */
  function Collect(rs: seq<Result<string>>): Written {
    if rs == [] then Written([], None)
    else
      match rs[0]
      case Err(e) => Written([], Some(e))
      case Ok(line) =>
        var rest := Collect(rs[1..]);
        Written([line] + rest.lines, rest.error)
  }

  /** Lines 236-242: the atom lines, up to the first that raises. */
  function AtomLines(t: Timestep, fs: seq<Field>): Written
    requires forall j :: 0 <= j < |fs| ==> fs[j].kind == KindOf(fs[j].values)
  {
    Collect(AtomResults(t, fs))
  }

  /** Lines 223-242: the ATOMS header, then one line per atom. */
  function AtomSection(t: Timestep, extras: seq<string>): Written {
    var head := [AtomsHeader(extras)];
    match Fields(t, extras)
    case Err(e) => Written(head, Some(e))
    case Ok(fs) =>
      var body := AtomLines(t, fs);
      Written(head + body.lines, body.error)
  }

  /** `lines` written, then what `w` says. */
  function Prefix(lines: seq<string>, w: Written): Written {
    Written(lines + w.lines, w.error)
  }

  /** Lines 211-242: from the BOX BOUNDS header on. Without periodicity,
      box or extras (the empty timestep) the write raises. */
  function BoxSection(t: Timestep): Written {
    if t.periodic.None? then Written([], Some(NotIterable))
    else
      var head := [BoxHeader(t.periodic.value)];
      if t.box.None? then Written(head, Some(NotIterable))
      else
        var rows := BoxText(t.box.value);
        var head := head + rows.lines;
        if rows.error.Some? then Written(head, rows.error)
        else if t.extras.None? then Written(head, Some(NotIterable))
        else Prefix(head, AtomSection(t, t.extras.value))
  }

  /** Lines 205-242 (with `rebox` false): what `t.dump` writes. */
  function StepText(t: Timestep): Written {
    Prefix(HeadLines(t), BoxSection(t))
  }

  // ---------------------------------------------------------------------
  // The writer

  /** `t.dump(filename, mode)`: the file's lines afterwards and the
      exception raised, if any. */
  method WriteStep(t: Timestep, prior: seq<string>, mode: OpenMode) returns (file: seq<string>, err: Option<Error>)
    ensures file == Opened(prior, mode) + StepText(t).lines
    ensures err == StepText(t).error
  {
    file := Opened(prior, mode) + HeadLines(t);
    var rest;
    rest, err := WriteBoxSection(t);
    assert Opened(prior, mode) + StepText(t).lines == file + rest;
    file := file + rest;
  }

  /** Lines 211-242: the lines written from the BOX BOUNDS header on. */
  method WriteBoxSection(t: Timestep) returns (file: seq<string>, err: Option<Error>)
    ensures Written(file, err) == BoxSection(t)
  {
    if t.periodic.None? {
      return [], Some(NotIterable);
    }
    file := [BoxHeader(t.periodic.value)];
    if t.box.None? {
      return file, Some(NotIterable);
    }
    match t.box.value {
      case PairBox(bs) =>
        file := WriteBox(bs, file);
      case FlatBox(vs) =>
        if vs != [] {
          return file, Some(NotIterable);
        }
      case BlankBox(n) =>
        if n != 0 {
          return file, Some(MissingArgument);
        }
    }
    if t.extras.None? {
      return file, Some(NotIterable);
    }
    file, err := WriteAtomSection(t, t.extras.value, file);
  }

  /** Lines 219-220: one "lo hi" line per box row. */
  method WriteBox(box: seq<Bound>, prior: seq<string>) returns (file: seq<string>)
    ensures file == prior + BoxLines(box)
  {
    file := prior;
    for i := 0 to |box|
      invariant file == prior + BoxLines(box[..i])
    {
      assert BoxLines(box[..i + 1]) == BoxLines(box[..i]) + [BoxLine(box[i])];
      file := file + [BoxLine(box[i])];
    }
    assert box[..|box|] == box;
  }

  method WriteAtomSection(t: Timestep, extras: seq<string>, prior: seq<string>) returns (file: seq<string>, err: Option<Error>)
    ensures file == prior + AtomSection(t, extras).lines
    ensures err == AtomSection(t, extras).error
  {
    file := prior + [AtomsHeader(extras)];
    var fs := CollectFields(t, extras);
    if fs.Err? {
      return file, Some(fs.error);
    }
    file, err := WriteAtoms(t, fs.value, file);
  }

  /** Lines 226-234: the dtype of each extras column, in order. */
  method CollectFields(t: Timestep, names: seq<string>) returns (r: Result<seq<Field>>)
    ensures r == Fields(t, names)
  {
    var acc: seq<Field> := [];
    var j := 0;
    assert names[j..] == names;
    assert Fields(t, names).Ok? ==> [] + Fields(t, names).value == Fields(t, names).value;
    while j < |names|
      invariant 0 <= j <= |names|
      invariant Fields(t, names) == Then(acc, Fields(t, names[j..]))
    {
      assert names[j..][1..] == names[j + 1..];
      var c := Column(t, names[j]);
      if c.None? {
        return Err(MissingColumn(names[j]));
      }
      if c.value == [] {
        return Err(EmptyColumn(names[j]));
      }
      var f := Field(names[j], c.value, KindOf(c.value));
      assert Fields(t, names[j..]) == Then([f], Fields(t, names[j + 1..]));
      ThenThen(acc, [f], Fields(t, names[j + 1..]));
      acc := acc + [f];
      j := j + 1;
    }
    assert names[j..] == [] && acc + [] == acc;
    return Ok(acc);
  }

  function Then(acc: seq<Field>, r: Result<seq<Field>>): Result<seq<Field>> {
    match r
    case Err(e) => Err(e)
    case Ok(fs) => Ok(acc + fs)
  }

  lemma ThenThen(a: seq<Field>, b: seq<Field>, r: Result<seq<Field>>)
    ensures Then(a, Then(b, r)) == Then(a + b, r)
  {
    if r.Ok? {
      assert a + (b + r.value) == (a + b) + r.value;
    }
  }

  /** Lines 236-242: one line per atom, stopping at the first that raises. */
  method WriteAtoms(t: Timestep, fs: seq<Field>, prior: seq<string>) returns (file: seq<string>, err: Option<Error>)
    requires forall j :: 0 <= j < |fs| ==> fs[j].kind == KindOf(fs[j].values)
    ensures file == prior + AtomLines(t, fs).lines
    ensures err == AtomLines(t, fs).error
  {
    ghost var rs := AtomResults(t, fs);
    file := prior;
    var i := 0;
    while i < Len(t)
      invariant 0 <= i <= Len(t)
      invariant file + Collect(rs[i..]).lines == prior + Collect(rs).lines
      invariant Collect(rs[i..]).error == Collect(rs).error
    {
      assert rs[i..][1..] == rs[i + 1..];
      var line := AtomLine(t, fs, i);
      if line.Err? {
        return file, Some(line.error);
      }
      file := file + [line.value];
      i := i + 1;
    }
    assert rs[i..] == [];
    return file, None;
  }
}
