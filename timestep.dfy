/** `Timestep.__init__`, `__len__` and `__eq__`: the columns built from the
    dict `_read` returns, or the empty timestep that marks the end of the
    data. */
module Timesteps {
  import opened Text
  import opened Dicts
  import opened Raw
  import opened Reader
  import opened ReaderFacts

  datatype Vec3 = Vec3(x: FloatText, y: FloatText, z: FloatText)
  datatype Bound = Bound(lo: FloatText, hi: FloatText)

  /** `np.array(raw["box"])`, by the shape of its rows: (n, 2) when every
      box line had two numbers or more, (n,) when every one had a single
      number, (n, 0) when none had any. */
  datatype Box = PairBox(bounds: seq<Bound>) | FlatBox(values: seq<FloatText>) | BlankBox(rows: nat)

  /** The number of box rows, `len(self.box)`. */
  function Rows(b: Box): nat {
    match b
    case PairBox(bs) => |bs|
    case FlatBox(vs) => |vs|
    case BlankBox(n) => n
  }

  /** One timestep. `ids` is the `ids` attribute, which an ATOMS heading
      named "ids" replaces; `columns` holds the attributes set for the
      other extra headings. `box`, `periodic` and `extras` are `None` in
      the empty timestep. */
  datatype Timestep = Timestep(
    index: Index,
    types: seq<int>,
    ids: seq<Obj>,
    xyz: seq<Vec3>,
    box: Option<Box>,
    periodic: Option<seq<bool>>,
    extras: Option<seq<string>>,
    columns: map<string, seq<Obj>>)

  /** Lines 90-97: the timestep of an incomplete read. */
  function Empty(index: Index): Timestep {
    Timestep(index, [], [], [], None, None, None, map[])
  }

  /** `len(self)`: the number of positions. */
  function Len(t: Timestep): nat {
    |t.xyz|
  }

  // ---------------------------------------------------------------------
  // Converting stored values to columns

  /** `np.array(raw[k], int)` of a list of integers. */
  function AsInts(o: Obj, k: Key): (r: Result<seq<int>>)
    ensures r.Ok? ==> o.OList? && |r.value| == |o.items|
    ensures r.Ok? ==> forall i :: 0 <= i < |o.items| ==> o.items[i] == OInt(r.value[i])
  {
    if o.OList? && forall i :: 0 <= i < |o.items| ==> o.items[i].OInt? then
      Ok(seq(|o.items|, i requires 0 <= i < |o.items| => o.items[i].i))
    else Err(Malformed(k))
  }

  predicate IsTriple(o: Obj) {
    o.OList? && |o.items| == 3 && o.items[0].OFloat? && o.items[1].OFloat? && o.items[2].OFloat?
  }

  /** `np.array(raw["xyz"])`: one (x, y, z) per atom row. */
  function AsPositions(o: Obj): (r: Result<seq<Vec3>>)
    ensures r.Ok? ==> o.OList? && |r.value| == |o.items|
  {
    if o.OList? && forall i :: 0 <= i < |o.items| ==> IsTriple(o.items[i]) then
      Ok(seq(|o.items|, i requires 0 <= i < |o.items| =>
        Vec3(o.items[i].items[0].f, o.items[i].items[1].f, o.items[i].items[2].f)))
    else Err(Malformed(KXyz))
  }

  predicate IsPair(o: Obj) {
    o.OList? && |o.items| == 2 && o.items[0].OFloat? && o.items[1].OFloat?
  }

  /** Line 111: `np.array(raw["box"])`. The reader stores one row per box
      line: a (lo, hi) list, a single float, or the empty list. Rows of one
      shape make an array; rows of different shapes make a ragged array,
      which NumPy refuses. */
  function AsBox(o: Obj): (r: Result<Box>)
    ensures r.Ok? ==> o.OList? && Rows(r.value) == |o.items|
    ensures r.Ok? && r.value.PairBox? ==> forall i :: 0 <= i < |o.items| ==>
              o.items[i] == OList([OFloat(r.value.bounds[i].lo), OFloat(r.value.bounds[i].hi)])
  {
    if !o.OList? then Err(Malformed(KBox))
    else if forall i :: 0 <= i < |o.items| ==> IsPair(o.items[i]) then
      Ok(PairBox(seq(|o.items|, i requires 0 <= i < |o.items| => Bound(o.items[i].items[0].f, o.items[i].items[1].f))))
    else if forall i :: 0 <= i < |o.items| ==> o.items[i].OFloat? then
      Ok(FlatBox(seq(|o.items|, i requires 0 <= i < |o.items| => o.items[i].f)))
    else if forall i :: 0 <= i < |o.items| ==> o.items[i] == OList([]) then Ok(BlankBox(|o.items|))
    else Err(Malformed(KBox))
  }

  /** How many numbers a stored box row holds. */
  function Width(row: Obj): nat {
    if IsPair(row) then 2 else if row.OFloat? then 1 else 0
  }

  /** A box line cast with two `float`s (lines 281-284) holds as many
      numbers as the line has tokens, at most two: a pair, a single float
      or the empty list. */
  lemma BoxRowWidth(line: string)
    ensures var vals := CastAll([ToFloat, ToFloat], Split(line));
            vals.Ok? ==>
              var row := Collapse(vals.value);
              && (IsPair(row) || row.OFloat? || row == OList([]))
              && Width(row) == if |Split(line)| < 2 then |Split(line)| else 2
  {
    var toks := Split(line);
    var vals := CastAll([ToFloat, ToFloat], toks);
    if vals.Ok? && toks != [] {
      CastAllPairs([ToFloat, ToFloat], toks);
      assert ApplyCast(ToFloat, toks[0]) == Ok(vals.value[0]);
      if |toks| >= 2 {
        assert ApplyCast(ToFloat, toks[1]) == Ok(vals.value[1]);
      }
    }
  }

  /** Line 111 builds the box exactly when every row holds as many numbers
      as every other. */
  lemma BoxShapes(rows: seq<Obj>)
    requires forall i :: 0 <= i < |rows| ==> IsPair(rows[i]) || rows[i].OFloat? || rows[i] == OList([])
    ensures AsBox(OList(rows)).Ok? <==> forall i, j :: 0 <= i < |rows| && 0 <= j < |rows| ==> Width(rows[i]) == Width(rows[j])
  {
    if forall i, j :: 0 <= i < |rows| && 0 <= j < |rows| ==> Width(rows[i]) == Width(rows[j]) {
      if rows != [] {
        var w := Width(rows[0]);
        assert forall i :: 0 <= i < |rows| ==> Width(rows[i]) == w;
        if w == 0 {
          assert forall i :: 0 <= i < |rows| ==> rows[i] == OList([]);
        }
      }
    }
  }

  /** Line 110: an axis is periodic exactly when its token is "pp". */
  function AsFlags(o: Obj): (r: Result<seq<bool>>)
    ensures r.Ok? ==> o.OList? && |r.value| == |o.items|
    ensures r.Ok? ==> forall i :: 0 <= i < |o.items| ==> (r.value[i] <==> o.items[i] == OStr("pp"))
  {
    if o.OList? then Ok(seq(|o.items|, i requires 0 <= i < |o.items| => o.items[i] == OStr("pp")))
    else Err(Malformed(KPeriodic))
  }

  /** `key.split(':')[1]` for the key `"atom:" + heading`. */
  function Quant(heading: string): string {
    Before(heading, ':')
  }

  /** The attributes lines 102-108 set: the `extras` names, the `ids`
      attribute and the other extra columns. */
  datatype Attrs = Attrs(extras: seq<string>, ids: seq<Obj>, columns: map<string, seq<Obj>>)

  /** One key of the loop at lines 103-108. */
  function AddAttr(a: Attrs, key: Key, value: Obj): Result<Attrs> {
    match key
    case KNone => Err(NoneKey)
    case KAtom(h) =>
      if !value.OList? then Err(Malformed(key))
      else
        var q := Quant(h);
        Ok(if q == "ids" then Attrs(a.extras + [q], value.items, a.columns)
           else Attrs(a.extras + [q], a.ids, a.columns[q := value.items]))
    case _ => Ok(a)
  }

  /** Lines 103-108 over the keys of `raw` in insertion order. */
  function AddAttrs(a: Attrs, raw: Dict): Result<Attrs>
    decreases |raw|
  {
    if raw == [] then Ok(a)
    else
      match AddAttr(a, raw[0].0, raw[0].1)
      case Err(e) => Err(e)
      case Ok(a') => AddAttrs(a', raw[1..])
  }

  /** Lines 90-114: the timestep built from the dict `_read` returned,
      looking the keys up in the order the source does. */
  function FromRaw(raw: Dict, index: Index): Result<Timestep> {
    if |raw| < 6 then Ok(Empty(index))
    else if !Has(raw, KType) then Err(MissingKey(KType))
    else if AsInts(Get(raw, KType), KType).Err? then Err(Malformed(KType))
    else if !Has(raw, KId) then Err(MissingKey(KId))
    else if AsInts(Get(raw, KId), KId).Err? then Err(Malformed(KId))
    else if !Has(raw, KXyz) then Err(MissingKey(KXyz))
    else if AsPositions(Get(raw, KXyz)).Err? then Err(Malformed(KXyz))
    else
      var types := AsInts(Get(raw, KType), KType).value;
      var xyz := AsPositions(Get(raw, KXyz)).value;
      match AddAttrs(Attrs(["ids"], Get(raw, KId).items, map[]), raw)
      case Err(e) => Err(e)
      case Ok(attrs) =>
        if !Has(raw, KPeriodic) then Err(MissingKey(KPeriodic))
        else if AsFlags(Get(raw, KPeriodic)).Err? then Err(Malformed(KPeriodic))
        else if !Has(raw, KBox) then Err(MissingKey(KBox))
        else if AsBox(Get(raw, KBox)).Err? then Err(Malformed(KBox))
        else if !Has(raw, KNAtoms) then Err(MissingKey(KNAtoms))
        else if Get(raw, KNAtoms) != OInt(|xyz|) then Err(CountMismatch(Get(raw, KNAtoms), |xyz|))
        else
          var periodic := AsFlags(Get(raw, KPeriodic)).value;
          var box := AsBox(Get(raw, KBox)).value;
          Ok(Timestep(index, types, attrs.ids, xyz, Some(box), Some(periodic), Some(attrs.extras), attrs.columns))
  }

  /** A timestep read from the file: the timestep, and the file position
      after it. */
  datatype Loaded = Loaded(step: Timestep, pos: nat)

  /** The reader's configuration for `Timestep(filepath, index, openf,
      stepfilter)`: `openf` is the shared file's position, or `None` for a
      private file opened at its start. */
  function ConfigOf(openf: Option<nat>, stepfilter: Option<set<int>>): Config {
    Config(openf.Some?, stepfilter)
  }

  function CursorOf(openf: Option<nat>): nat {
    if openf.Some? then openf.value else 0
  }

  /** `Timestep(filepath, index, openf, stepfilter)`. */
  function Load(lines: seq<string>, index: Index, openf: Option<nat>, stepfilter: Option<set<int>>): Result<Loaded> {
    match Read(lines, ConfigOf(openf, stepfilter), CursorOf(openf), index)
    case Failed(e) => Err(e)
    case Done(raw, idx, pos) =>
      match FromRaw(raw, idx)
      case Err(e) => Err(e)
      case Ok(t) => Ok(Loaded(t, pos))
  }

  /** `Timestep.__init__`: read, then build the columns. */
  method Init(lines: seq<string>, index: Index, openf: Option<nat>, stepfilter: Option<set<int>>)
    returns (r: Result<Loaded>)
    ensures r == Load(lines, index, openf, stepfilter)
  {
    var o := ReadStep(lines, ConfigOf(openf, stepfilter), CursorOf(openf), index);
    if o.Failed? {
      return Err(o.error);
    }
    var raw := o.raw;
    if |raw| < 6 {
      return Ok(Loaded(Empty(o.index), o.pos));
    }
    var t := Build(raw, o.index);
    if t.Err? {
      return Err(t.error);
    }
    return Ok(Loaded(t.value, o.pos));
  }

  /** Lines 99-114 on a dict with at least six keys. */
  method Build(raw: Dict, index: Index) returns (r: Result<Timestep>)
    requires |raw| >= 6
    ensures r == FromRaw(raw, index)
  {
    if !Has(raw, KType) {
      return Err(MissingKey(KType));
    }
    var types := AsInts(Get(raw, KType), KType);
    if types.Err? {
      return Err(Malformed(KType));
    }
    if !Has(raw, KId) {
      return Err(MissingKey(KId));
    }
    var ids := AsInts(Get(raw, KId), KId);
    if ids.Err? {
      return Err(Malformed(KId));
    }
    if !Has(raw, KXyz) {
      return Err(MissingKey(KXyz));
    }
    var xyz := AsPositions(Get(raw, KXyz));
    if xyz.Err? {
      return Err(Malformed(KXyz));
    }
    var attrs := CollectAttrs(raw);
    if attrs.Err? {
      return Err(attrs.error);
    }
    if !Has(raw, KPeriodic) {
      return Err(MissingKey(KPeriodic));
    }
    var periodic := AsFlags(Get(raw, KPeriodic));
    if periodic.Err? {
      return Err(Malformed(KPeriodic));
    }
    if !Has(raw, KBox) {
      return Err(MissingKey(KBox));
    }
    var box := AsBox(Get(raw, KBox));
    if box.Err? {
      return Err(Malformed(KBox));
    }
    if !Has(raw, KNAtoms) {
      return Err(MissingKey(KNAtoms));
    }
    if Get(raw, KNAtoms) != OInt(|xyz.value|) {
      return Err(CountMismatch(Get(raw, KNAtoms), |xyz.value|));
    }
    var a := attrs.value;
    return Ok(Timestep(index, types.value, a.ids, xyz.value, Some(box.value), Some(periodic.value), Some(a.extras), a.columns));
  }

  /** Lines 102-108: `extras` starts as ["ids"]; each "atom:" key adds its
      name and sets the attribute of that name. */
  method CollectAttrs(raw: Dict) returns (r: Result<Attrs>)
    requires Has(raw, KId) && Get(raw, KId).OList?
    ensures r == AddAttrs(Attrs(["ids"], Get(raw, KId).items, map[]), raw)
  {
    var a := Attrs(["ids"], Get(raw, KId).items, map[]);
    var i := 0;
    while i < |raw|
      invariant 0 <= i <= |raw|
      invariant AddAttrs(a, raw[i..]) == AddAttrs(Attrs(["ids"], Get(raw, KId).items, map[]), raw)
    {
      var key := raw[i].0;
      if key.KNone? {
        return Err(NoneKey);
      }
      assert raw[i..][1..] == raw[i + 1..];
      if key.KAtom? {
        if !raw[i].1.OList? {
          return Err(Malformed(key));
        }
        var quant := Quant(key.heading);
        if quant == "ids" {
          a := Attrs(a.extras + [quant], raw[i].1.items, a.columns);
        } else {
          a := Attrs(a.extras + [quant], a.ids, a.columns[quant := raw[i].1.items]);
        }
      }
      i := i + 1;
    }
    return Ok(a);
  }

  // ---------------------------------------------------------------------
  // Equality

  /** Lines 118-126: positions, ids, types, the `extras` names, box and
      periodicity agree (the index and the extra columns' values are not
      compared). Closeness of floats is taken as equality. */
  predicate Eq(a: Timestep, b: Timestep) {
    a.xyz == b.xyz && a.ids == b.ids && a.types == b.types &&
    a.extras == b.extras && a.box == b.box && a.periodic == b.periodic
  }

  /** `Eq`, which takes `np.allclose` as exact equality, is an
      equivalence that ignores the index, and equal timesteps have the
      same length. */
  lemma EqFacts(a: Timestep, b: Timestep, c: Timestep, j: Index)
    ensures Eq(a, a)
    ensures Eq(a, b) ==> Eq(b, a)
    ensures Eq(a, b) && Eq(b, c) ==> Eq(a, c)
    ensures Eq(a, b) <==> Eq(a.(index := j), b)
    ensures Eq(a, b) ==> Len(a) == Len(b)
  {
  }

  // ---------------------------------------------------------------------
  // What the constructor promises

  /** The names the "atom:" keys contribute, in the order of the keys. */
  function Quants(keys: seq<Key>): seq<string> {
    if keys == [] then []
    else if keys[0].KAtom? then [Quant(keys[0].heading)] + Quants(keys[1..])
    else Quants(keys[1..])
  }

  /** Every "atom:" key holds a list. */
  predicate AtomLists(raw: Dict) {
    forall i :: 0 <= i < |raw| && raw[i].0.KAtom? ==> raw[i].1.OList?
  }

  /** Lines 102-108 succeed exactly when no key is `None` and every "atom:"
      key holds a list; `extras` then gains the name of each "atom:" key,
      in the order of the keys. */
  lemma {:induction false} AddAttrsFacts(a: Attrs, raw: Dict)
    ensures var r := AddAttrs(a, raw);
            && (r.Ok? <==> KNone !in Keys(raw) && AtomLists(raw))
            && (r.Ok? ==> r.value.extras == a.extras + Quants(Keys(raw)))
            && (r.Ok? && "ids" !in Quants(Keys(raw)) ==> r.value.ids == a.ids)
    decreases |raw|
  {
    if raw != [] {
      AddAttrsFacts(if AddAttr(a, raw[0].0, raw[0].1).Ok? then AddAttr(a, raw[0].0, raw[0].1).value else a, raw[1..]);
      assert Keys(raw) == [raw[0].0] + Keys(raw[1..]);
      assert forall i :: 1 <= i < |raw| ==> raw[i] == raw[1..][i - 1];
    }
  }

  /** Lines 90-114. A dict with fewer than six keys gives the empty
      timestep. Otherwise a timestep is built only when the declared atom
      count equals the number of positions; `extras` is "ids" followed by
      the names of the "atom:" keys in order; an axis is periodic exactly
      when its token is "pp"; and a `None` key always raises. */
  lemma FromRawFacts(raw: Dict, index: Index)
    ensures var r := FromRaw(raw, index);
            && (|raw| < 6 ==> r == Ok(Empty(index)) && Len(r.value) == 0)
            && (|raw| >= 6 && KNone in Keys(raw) ==> r.Err?)
            && (r.Ok? ==> r.value.index == index && (r.value.extras.None? <==> |raw| < 6))
            && (r.Ok? && |raw| >= 6 ==>
                  && Has(raw, KNAtoms) && Get(raw, KNAtoms) == OInt(Len(r.value))
                  && r.value.extras == Some(["ids"] + Quants(Keys(raw)))
                  && Has(raw, KType) && Get(raw, KType) == OList(seq(|r.value.types|, i requires 0 <= i < |r.value.types| => OInt(r.value.types[i])))
                  && Has(raw, KPeriodic) && Get(raw, KPeriodic).OList?
                  && r.value.periodic.Some? && |r.value.periodic.value| == |Get(raw, KPeriodic).items|
                  && forall i :: 0 <= i < |r.value.periodic.value| ==> (r.value.periodic.value[i] <==> Get(raw, KPeriodic).items[i] == OStr("pp")))
  {
    if |raw| >= 6 && Has(raw, KType) && AsInts(Get(raw, KType), KType).Ok? && Has(raw, KId) && AsInts(Get(raw, KId), KId).Ok? {
      AddAttrsFacts(Attrs(["ids"], Get(raw, KId).items, map[]), raw);
      var r := FromRaw(raw, index);
      if r.Ok? {
        var types := r.value.types;
        assert Get(raw, KType).items == seq(|types|, i requires 0 <= i < |types| => OInt(types[i]));
      }
    }
  }

  /** A timestep that loads has one type per position, as many positions
      as the file declares, and one id per position unless an extra
      column named "ids" replaced them. */
  lemma LoadAligned(lines: seq<string>, index: Index, openf: Option<nat>, stepfilter: Option<set<int>>)
    ensures var r := Load(lines, index, openf, stepfilter);
            var o := Read(lines, ConfigOf(openf, stepfilter), CursorOf(openf), index);
            r.Ok? && r.value.step.extras.Some? ==>
              && o.Done? && Has(o.raw, KNAtoms) && Get(o.raw, KNAtoms) == OInt(Len(r.value.step))
              && |r.value.step.types| == Len(r.value.step)
              && |r.value.step.extras.value| >= 1 && r.value.step.extras.value[0] == "ids"
              && ("ids" !in r.value.step.extras.value[1..] ==> |r.value.step.ids| == Len(r.value.step))
  {
    var cfg := ConfigOf(openf, stepfilter);
    var o := Read(lines, cfg, CursorOf(openf), index);
    ReadAligned(lines, cfg, CursorOf(openf), index);
    if o.Done? {
      FromRawFacts(o.raw, o.index);
      var raw := o.raw;
      var r := FromRaw(raw, o.index);
      if r.Ok? && |raw| >= 6 {
        AddAttrsFacts(Attrs(["ids"], Get(raw, KId).items, map[]), raw);
        assert r.value.extras.value[1..] == Quants(Keys(raw));
        assert |AsPositions(Get(raw, KXyz)).value| == |Get(raw, KXyz).items|;
      }
    }
  }
}
