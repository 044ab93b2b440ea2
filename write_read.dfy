/** Writing a timestep with `Timestep.dump` and reading the file back with
    `Timestep(filepath, None, f)` (or `Dump(filepath)`): what comes back,
    and what does not. */
module WriteRead {
  import opened Text
  import opened Dicts
  import opened Raw
  import opened Reader
  import opened ReaderFacts
  import opened Timesteps
  import opened Writer
  import opened WriterFacts
  import opened RoundTrip

  // ---------------------------------------------------------------------
  // Numbers as written

  /** The characters a number is written with: digits, signs, the point,
      the exponent mark, and the letters of "inf", "infinity" and "nan". */
  predicate NumChar(c: char) {
    IsDigit(c) || c in "+-.eEiInNfFtTyYaA"
  }

  /** A written number: a non-empty run of number characters. */
  predicate IsNumber(w: string) {
    |w| > 0 && forall i :: 0 <= i < |w| ==> NumChar(w[i])
  }

  lemma MantissaChars(m: string)
    requires IsMantissa(m)
    ensures IsNumber(m)
  {
    if !AllDigits(m) {
      var k :| 0 <= k < |m| && m[k] == '.' && IsPointSplit(m, k);
      forall i | 0 <= i < |m| ensures NumChar(m[i]) {
        if i < k {
          assert m[i] == m[..k][i];
        } else if i > k {
          assert m[i] == m[k + 1..][i - k - 1];
        }
      }
    }
  }

  lemma UnsignedChars(u: string)
    requires IsUnsignedDecimal(u)
    ensures IsNumber(u)
  {
    if !IsMantissa(u) {
      var k :| 0 < k < |u| && IsMantissa(u[..k]) && IsExponent(u[k..]);
      MantissaChars(u[..k]);
      var x := u[k..];
      forall i | 0 <= i < |u| ensures NumChar(u[i]) {
        if i < k {
          assert u[i] == u[..k][i];
        } else if i == k || i == k + 1 {
          assert u[i] == x[i - k];
        } else if AllDigits(x[1..]) {
          assert u[i] == x[1..][i - k - 1];
        } else {
          assert u[i] == x[2..][i - k - 2];
        }
      }
    }
  }

  lemma SpecialChars(s: string)
    requires IsSpecial(s)
    ensures IsNumber(s)
  {
    var t := if |s| > 0 && (s[0] == '+' || s[0] == '-') then s[1..] else s;
    forall i | 0 <= i < |t| ensures NumChar(t[i]) {
      var l := Lower(t)[i];
      assert l in "infinity" || l in "nan";
    }
    forall i | 0 <= i < |s| ensures NumChar(s[i]) {
      if t != s && i > 0 {
        assert s[i] == t[i - 1];
      } else if t == s {
        assert s[i] == t[i];
      }
    }
  }

  /** Every float literal is written with number characters only. */
  lemma FloatChars(s: string)
    requires IsFloatLit(s)
    ensures IsNumber(s)
  {
    if IsUnsignedDecimal(s) {
      UnsignedChars(s);
    } else if IsDecimal(s) {
      UnsignedChars(s[1..]);
      forall i | 1 <= i < |s| ensures NumChar(s[i]) {
        assert s[i] == s[1..][i - 1];
      }
    } else {
      SpecialChars(s);
    }
  }

  /** So is every integer's decimal text. */
  lemma IntChars(i: int)
    ensures IsNumber(IntText(i))
  {
    if i < 0 {
      var n := NatText(-i);
      forall k | 1 <= k < |IntText(i)| ensures NumChar(IntText(i)[k]) {
        assert IntText(i)[k] == n[k - 1];
      }
    }
  }

  /** A written number is a word without an 'M'. */
  lemma NumberWord(w: string)
    requires IsNumber(w)
    ensures IsWord(w) && forall i :: 0 <= i < |w| ==> w[i] != 'M'
  {
  }

  lemma NumberWords(ws: seq<string>)
    requires forall k :: 0 <= k < |ws| ==> IsNumber(ws[k])
    ensures forall k :: 0 <= k < |ws| ==> IsWord(ws[k]) && forall c :: 0 <= c < |ws[k]| ==> ws[k][c] != 'M'
  {
    forall k | 0 <= k < |ws| ensures IsWord(ws[k]) && forall c :: 0 <= c < |ws[k]| ==> ws[k][c] != 'M' {
      NumberWord(ws[k]);
    }
  }

  /** A string missing one character of `sub` does not contain `sub`. */
  lemma MissingChar(s: string, sub: string, k: nat)
    requires k < |sub| && forall i :: 0 <= i < |s| ==> s[i] != sub[k]
    ensures !Contains(s, sub)
  {
    forall i | 0 <= i <= |s| - |sub| ensures !OccursAt(s, sub, i) {
      assert s[i..i + |sub|][k] == s[i + k];
    }
  }

  // ---------------------------------------------------------------------
  // Atom lines as written

  /** Splitting the join of words, a space and the join of more words
      gives all the words back: the two halves of an atom line. */
  lemma {:induction false} RowSplit(ws: seq<string>, more: seq<string>)
    requires |ws| > 0
    requires forall i :: 0 <= i < |ws| ==> IsWord(ws[i])
    requires forall i :: 0 <= i < |more| ==> IsWord(more[i])
    ensures Split(Join(ws) + " " + Join(more)) == ws + more
    decreases |ws|
  {
    if |ws| == 1 {
      SplitWordThen(ws[0], Join(more));
      SplitJoin(more);
    } else {
      var w, rest, m := ws[0], Join(ws[1..]), Join(more);
      assert Join(ws) + " " + m == w + " " + (rest + " " + m) by {
        assert Join(ws) == w + " " + rest;
        ConcatAssoc(w, rest, m);
      }
      SplitWordThen(w, rest + " " + m);
      WordsTail(ws);
      RowSplit(ws[1..], more);
      ConsConcat(ws, more);
    }
  }

  lemma ConsConcat(ws: seq<string>, more: seq<string>)
    requires |ws| > 0
    ensures ws + more == [ws[0]] + (ws[1..] + more)
  {
    assert ws == [ws[0]] + ws[1..];
  }

  lemma WordsTail(ws: seq<string>)
    requires |ws| > 0 && forall i :: 0 <= i < |ws| ==> IsWord(ws[i])
    ensures forall i :: 0 <= i < |ws[1..]| ==> IsWord(ws[1..][i])
  {
    forall i | 0 <= i < |ws[1..]| ensures IsWord(ws[1..][i]) {
      assert ws[1..][i] == ws[i + 1];
    }
  }

  lemma ConcatAssoc(w: string, rest: string, m: string)
    ensures (w + " " + rest) + " " + m == w + " " + (rest + " " + m)
  {
  }

  /** The printed fields of an atom are written numbers, at most one per
      field. */
  lemma {:induction false} FieldTextsNumbers(fs: seq<Field>, i: nat)
    requires forall j :: 0 <= j < |fs| ==> i < |fs[j].values| && fs[j].kind == KindOf(fs[j].values)
    ensures |FieldTexts(fs, i)| <= |fs|
    ensures forall k :: 0 <= k < |FieldTexts(fs, i)| ==> IsNumber(FieldTexts(fs, i)[k])
    decreases |fs|
  {
    if fs != [] {
      FieldTextsNumbers(fs[1..], i);
      if Printed(fs[0]) {
        var o := fs[0].values[i];
        if o.OInt? {
          IntChars(o.i);
        } else {
          FloatChars(o.f);
        }
        var rest := FieldTexts(fs[1..], i);
        assert forall k :: 1 <= k < |FieldTexts(fs, i)| ==> FieldTexts(fs, i)[k] == rest[k - 1];
      }
    }
  }

  /** Two strings without `c`, joined by a space, are without `c`. */
  lemma SpacedAvoids(a: string, b: string, c: char)
    requires c != ' '
    requires forall k :: 0 <= k < |a| ==> a[k] != c
    requires forall k :: 0 <= k < |b| ==> b[k] != c
    ensures forall k :: 0 <= k < |a + " " + b| ==> (a + " " + b)[k] != c
  {
    forall k | |a| < k < |a + " " + b| ensures (a + " " + b)[k] != c {
      assert (a + " " + b)[k] == b[k - |a| - 1];
    }
  }

  /** The five tokens every atom line starts with: id, type, x, y, z. */
  function HeadWords(t: Timestep, i: nat): seq<string>
    requires i < Len(t) && i < |t.ids| && i < |t.types| && t.ids[i].OInt?
  {
    [IntText(t.ids[i].i), IntText(t.types[i]), t.xyz[i].x, t.xyz[i].y, t.xyz[i].z]
  }

  /** An atom line splits into its five head tokens and its printed
      fields, and never contains "ITEM": every token is a number, and no
      number has an 'M'. */
  lemma AtomTextSplit(t: Timestep, fs: seq<Field>, i: nat)
    requires i < Len(t) && i < |t.ids| && i < |t.types| && t.ids[i].OInt?
    requires forall j :: 0 <= j < |fs| ==> i < |fs[j].values| && fs[j].kind == KindOf(fs[j].values)
    ensures Split(AtomText(t, fs, i)) == HeadWords(t, i) + FieldTexts(fs, i)
    ensures !Contains(AtomText(t, fs, i), "ITEM")
  {
    var ws := HeadWords(t, i);
    var more := FieldTexts(fs, i);
    IntChars(t.ids[i].i);
    IntChars(t.types[i]);
    FloatChars(t.xyz[i].x);
    FloatChars(t.xyz[i].y);
    FloatChars(t.xyz[i].z);
    FieldTextsNumbers(fs, i);
    NumberWords(ws);
    NumberWords(more);
    RowSplit(ws, more);
    JoinAvoids(ws, 'M');
    JoinAvoids(more, 'M');
    SpacedAvoids(Join(ws), Join(more), 'M');
    MissingChar(Join(ws) + " " + Join(more), "ITEM", 3);
  }

  // ---------------------------------------------------------------------
  // Reading atom rows back

  /** An append keeps every list a list. */
  lemma AppendKeepsLists(d: Dict, k: Key, v: Obj)
    requires AppendTo(d, k, v).Ok?
    ensures forall key :: IsList(d, key) ==> IsList(AppendTo(d, k, v).value, key)
  {
    AppendToFacts(d, k, v);
  }

  /** A row's tail is read when it has no more tokens than there are extra
      columns and every extra column is a list; lists stay lists. */
  lemma {:induction false} AddExtrasOk(d: Dict, xkeys: seq<Key>, toks: seq<string>)
    requires |toks| <= |xkeys|
    requires forall j :: 0 <= j < |xkeys| ==> IsList(d, xkeys[j])
    ensures AddExtras(d, xkeys, toks).Ok?
    ensures forall key :: IsList(d, key) ==> IsList(AddExtras(d, xkeys, toks).value, key)
    decreases |toks|
  {
    if toks != [] {
      var d' := AppendTo(d, xkeys[0], Eval(toks[0])).value;
      AppendKeepsLists(d, xkeys[0], Eval(toks[0]));
      assert forall j :: 0 <= j < |xkeys[1..]| ==> IsList(d', xkeys[1..][j]) by {
        assert forall j :: 0 <= j < |xkeys[1..]| ==> xkeys[1..][j] == xkeys[j + 1];
      }
      AddExtrasOk(d', xkeys[1..], toks[1..]);
    }
  }

  /** A row whose first five tokens are two integers and three floats is
      read when `type`, `id` and `xyz` are lists and, with extra columns,
      every extra column is a list and there are no more extra tokens than
      columns; lists stay lists. */
  lemma RowOk(d: Dict, xkeys: Option<seq<Key>>, line: string)
    requires RowHead(Split(line))
    requires IsList(d, KType) && IsList(d, KId) && IsList(d, KXyz)
    requires xkeys.Some? ==> |Split(line)| - 5 <= |xkeys.value| && forall j :: 0 <= j < |xkeys.value| ==> IsList(d, xkeys.value[j])
    ensures AddRow(d, xkeys, line).Ok?
    ensures forall key :: IsList(d, key) ==> IsList(AddRow(d, xkeys, line).value, key)
  {
    var vals := Split(line);
    AddRowSplit(d, xkeys, line);
    RowFixedOk(d, vals);
    if |vals| > 5 && xkeys.Some? {
      AddExtrasOk(RowFixed(d, vals).value, xkeys.value, vals[5..]);
    }
  }

  /** The five fixed tokens of such a row are read, and lists stay lists. */
  lemma RowFixedOk(d: Dict, vals: seq<string>)
    requires RowHead(vals)
    requires IsList(d, KType) && IsList(d, KId) && IsList(d, KXyz)
    ensures RowFixed(d, vals).Ok?
    ensures forall key :: IsList(d, key) ==> IsList(RowFixed(d, vals).value, key)
  {
    IdsCastOk(vals);
    var ids := CastAll([ToInt, ToInt], vals).value;
    var r1 := AppendTo(d, KType, ids[1]).value;
    AppendKeepsLists(d, KType, ids[1]);
    var r2 := AppendTo(r1, KId, ids[0]).value;
    AppendKeepsLists(r1, KId, ids[0]);
    PositionCastOk(vals);
    var xyz := CastAll([ToFloat, ToFloat, ToFloat], vals[2..]).value;
    AppendKeepsLists(r2, KXyz, OList(xyz));
  }

  /** The id and type tokens of such a row cast to two values. */
  lemma IdsCastOk(vals: seq<string>)
    requires RowHead(vals)
    ensures CastAll([ToInt, ToInt], vals).Ok? && |CastAll([ToInt, ToInt], vals).value| == 2
  {
    CastAllPairs([ToInt, ToInt], vals);
  }

  /** The position tokens of such a row cast to three values. */
  lemma PositionCastOk(vals: seq<string>)
    requires RowHead(vals)
    ensures var r := CastAll([ToFloat, ToFloat, ToFloat], vals[2..]);
            r.Ok? && |r.value| == 3
  {
    var p := vals[2..];
    assert p[0] == vals[2] && p[1] == vals[3] && p[2] == vals[4];
    CastAllPairs([ToFloat, ToFloat, ToFloat], p);
  }

  // ---------------------------------------------------------------------
  // The dict read back

  /** The keys of a dict read from a written timestep, in order: the four
      header sections, the three fixed columns, then one key per extras
      name. */
  const FixedKeys: seq<Key> := [KTime, KNAtoms, KPeriodic, KBox, KType, KId, KXyz]

  function TypeObjs(types: seq<int>): (os: seq<Obj>)
    ensures |os| == |types| && forall i :: 0 <= i < |types| ==> os[i] == OInt(types[i])
  {
    seq(|types|, i requires 0 <= i < |types| => OInt(types[i]))
  }

  function Triple(p: Vec3): Obj {
    OList([OFloat(p.x), OFloat(p.y), OFloat(p.z)])
  }

  function Triples(ps: seq<Vec3>): (os: seq<Obj>)
    ensures |os| == |ps| && forall i :: 0 <= i < |ps| ==> os[i] == Triple(ps[i])
  {
    seq(|ps|, i requires 0 <= i < |ps| => Triple(ps[i]))
  }

  function Pair(b: Bound): Obj {
    OList([OFloat(b.lo), OFloat(b.hi)])
  }

  function Pairs(bs: seq<Bound>): (os: seq<Obj>)
    ensures |os| == |bs| && forall i :: 0 <= i < |bs| ==> os[i] == Pair(bs[i])
  {
    seq(|bs|, i requires 0 <= i < |bs| => Pair(bs[i]))
  }

  /** The timestep has what the header lines are written from. */
  predicate Headed(t: Timestep) {
    && t.index.Some? && t.index.value.OInt?
    && t.periodic.Some? && t.box.Some? && t.box.value.PairBox? && t.extras.Some?
  }

  /** The extras names as the ATOMS header can carry them: words without a
      colon, no two alike, and no "ITEM" anywhere in the header's tail. */
  predicate Headings(e: seq<string>) {
    && (forall j :: 0 <= j < |e| ==> IsWord(e[j]) && ':' !in e[j])
    && Unique(e)
    && !Contains(Join(e), "ITEM")
  }

  predicate Unique(e: seq<string>) {
    forall i, j :: 0 <= i < j < |e| ==> e[i] != e[j]
  }

  /** The extra keys the ATOMS header sets up. */
  function XKeys(e: seq<string>): Option<seq<Key>> {
    if |e| > 0 then Some(AtomKeys(e)) else None
  }

  /** The four header sections as read back. */
  predicate HeadValues(d: Dict, t: Timestep)
    requires Headed(t)
  {
    && Has(d, KTime) && Get(d, KTime) == t.index.value
    && Has(d, KNAtoms) && Get(d, KNAtoms) == OInt(Len(t))
    && Has(d, KPeriodic) && Get(d, KPeriodic) == OList(Strs(PeriodTokens(t.periodic.value)))
    && Has(d, KBox) && Get(d, KBox) == OList(Pairs(t.box.value.bounds))
  }

  /** The dict after the first `k` atom rows were read back. */
  predicate RowsRead(d: Dict, t: Timestep, k: nat)
    requires Headed(t) && k <= Len(t) && k <= |t.types| && k <= |t.ids|
  {
    && Keys(d) == FixedKeys + AtomKeys(t.extras.value)
    && HeadValues(d, t)
    && Has(d, KType) && Get(d, KType) == OList(TypeObjs(t.types[..k]))
    && Has(d, KId) && Get(d, KId) == OList(t.ids[..k])
    && Has(d, KXyz) && Get(d, KXyz) == OList(Triples(t.xyz[..k]))
    && forall j :: 0 <= j < |t.extras.value| ==> IsList(d, KAtom(t.extras.value[j]))
  }

  /** The tokens of atom `k`'s line as the reader sees them: an integer id
      and type, the three coordinates, and no more extra tokens than
      fields. */
  lemma RowTokens(t: Timestep, fs: seq<Field>, k: nat)
    requires k < Len(t) && k < |t.ids| && k < |t.types| && t.ids[k].OInt?
    requires forall j :: 0 <= j < |fs| ==> k < |fs[j].values| && fs[j].kind == KindOf(fs[j].values)
    ensures var vals := Split(AtomText(t, fs, k));
            && RowHead(vals) && |vals| - 5 <= |fs|
            && IntOf(vals[0]) == t.ids[k].i && IntOf(vals[1]) == t.types[k]
            && vals[2] == t.xyz[k].x && vals[3] == t.xyz[k].y && vals[4] == t.xyz[k].z
  {
    AtomTextSplit(t, fs, k);
    FieldTextsNumbers(fs, k);
    ParseIntText(t.ids[k].i);
    ParseIntText(t.types[k]);
  }

  lemma TypesSnoc(types: seq<int>, k: nat)
    requires k < |types|
    ensures TypeObjs(types[..k]) + [OInt(types[k])] == TypeObjs(types[..k + 1])
  {
  }

  lemma IdsSnoc(ids: seq<Obj>, k: nat)
    requires k < |ids| && ids[k].OInt?
    ensures ids[..k] + [OInt(ids[k].i)] == ids[..k + 1]
  {
  }

  lemma TriplesSnoc(ps: seq<Vec3>, k: nat)
    requires k < |ps|
    ensures Triples(ps[..k]) + [Triple(ps[k])] == Triples(ps[..k + 1])
  {
  }

  /** The extra keys are distinct columns apart from the fixed ones, every
      one a list while the extra columns are, and no header section is
      among them. */
  lemma XKeysFacts(d: Dict, e: seq<string>)
    requires Unique(e)
    requires forall j :: 0 <= j < |e| ==> IsList(d, KAtom(e[j]))
    ensures XKeys(e).Some? ==> ExtraKeys(XKeys(e).value)
    ensures XKeys(e).Some? ==> forall j :: 0 <= j < |XKeys(e).value| ==> IsList(d, XKeys(e).value[j])
    ensures XKeys(e).Some? ==> KTime !in XKeys(e).value && KNAtoms !in XKeys(e).value && KPeriodic !in XKeys(e).value && KBox !in XKeys(e).value
  {
  }

  /** Atom `k`'s line can be written: it has an integer id, a type and an
      entry in every field. */
  predicate RowReady(t: Timestep, fs: seq<Field>, k: nat) {
    && k < Len(t) && k < |t.ids| && k < |t.types| && t.ids[k].OInt?
    && forall j :: 0 <= j < |fs| ==> k < |fs[j].values| && fs[j].kind == KindOf(fs[j].values)
  }

  /** Reading atom `k`'s line back appends its type, id and position, and
      leaves the header sections and the extra columns lists. */
  lemma RowStep(d: Dict, t: Timestep, fs: seq<Field>, k: nat)
    requires Headed(t) && Unique(t.extras.value) && |fs| == |t.extras.value|
    requires RowReady(t, fs, k)
    requires RowsRead(d, t, k)
    ensures AddRow(d, XKeys(t.extras.value), AtomText(t, fs, k)).Ok?
    ensures RowsRead(AddRow(d, XKeys(t.extras.value), AtomText(t, fs, k)).value, t, k + 1)
  {
    var e := t.extras.value;
    var xk := XKeys(e);
    var line := AtomText(t, fs, k);
    RowTokens(t, fs, k);
    XKeysFacts(d, e);
    RowOk(d, xk, line);
    AddRowFacts(d, xk, line);
    var r := AddRow(d, xk, line).value;
    RowColumns(d, r, t, k, Split(line));
    HeadKept(d, r, t, xk);
  }

  /** The fixed columns after atom `k`'s tokens were appended. */
  lemma RowColumns(d: Dict, r: Dict, t: Timestep, k: nat, vals: seq<string>)
    requires k < Len(t) && k < |t.types| && k < |t.ids| && t.ids[k].OInt?
    requires RowHead(vals) && IntOf(vals[0]) == t.ids[k].i && IntOf(vals[1]) == t.types[k]
    requires vals[2] == t.xyz[k].x && vals[3] == t.xyz[k].y && vals[4] == t.xyz[k].z
    requires HeadAppended(d, r, vals)
    requires Get(d, KType) == OList(TypeObjs(t.types[..k]))
    requires Get(d, KId) == OList(t.ids[..k])
    requires Get(d, KXyz) == OList(Triples(t.xyz[..k]))
    ensures Get(r, KType) == OList(TypeObjs(t.types[..k + 1]))
    ensures Get(r, KId) == OList(t.ids[..k + 1])
    ensures Get(r, KXyz) == OList(Triples(t.xyz[..k + 1]))
  {
    TypesSnoc(t.types, k);
    IdsSnoc(t.ids, k);
    TriplesSnoc(t.xyz, k);
  }

  /** A row leaves the header sections as they were. */
  lemma HeadKept(d: Dict, r: Dict, t: Timestep, xk: Option<seq<Key>>)
    requires Headed(t) && HeadValues(d, t) && Keys(r) == Keys(d)
    requires xk.Some? ==> KTime !in xk.value && KNAtoms !in xk.value && KPeriodic !in xk.value && KBox !in xk.value
    requires forall k :: k != KType && k != KId && k != KXyz && (xk.None? || k !in xk.value) && Has(d, k) ==> Get(r, k) == Get(d, k)
    ensures HeadValues(r, t)
  {
  }

  /** Reading the written atom lines from line `k` on appends every
      remaining atom. */
  lemma {:induction false} RowsLoop(d: Dict, t: Timestep, fs: seq<Field>, lines: seq<string>, k: nat)
    requires Headed(t) && Unique(t.extras.value) && |fs| == |t.extras.value|
    requires Len(t) <= |t.types| && Len(t) <= |t.ids| && |lines| == Len(t) && k <= Len(t)
    requires forall i :: k <= i < Len(t) ==> RowReady(t, fs, i) && lines[i] == AtomText(t, fs, i)
    requires RowsRead(d, t, k)
    ensures var r := AddRows(d, XKeys(t.extras.value), lines[k..]);
            r.Ok? && RowsRead(r.value, t, Len(t))
    decreases Len(t) - k
  {
    if k < Len(t) {
      var r := RowsNext(d, t, fs, lines, k);
      RowsLoop(r, t, fs, lines, k + 1);
    } else {
      assert lines[k..] == [];
      assert AddRows(d, XKeys(t.extras.value), lines[k..]) == Ok(d);
    }
  }

  /** Row `k` read: the rest is read from the dict it leaves, which has
      every atom before `k + 1`. */
  lemma RowsNext(d: Dict, t: Timestep, fs: seq<Field>, lines: seq<string>, k: nat) returns (r: Dict)
    requires Headed(t) && Unique(t.extras.value) && |fs| == |t.extras.value|
    requires Len(t) <= |t.types| && Len(t) <= |t.ids| && |lines| == Len(t) && k < Len(t)
    requires RowReady(t, fs, k) && lines[k] == AtomText(t, fs, k)
    requires RowsRead(d, t, k)
    ensures AddRows(d, XKeys(t.extras.value), lines[k..]) == AddRows(r, XKeys(t.extras.value), lines[k + 1..])
    ensures RowsRead(r, t, k + 1)
  {
    RowStep(d, t, fs, k);
    r := AddRow(d, XKeys(t.extras.value), lines[k]).value;
    AddRowsNext(d, XKeys(t.extras.value), lines, k, r);
  }

  /** Reading rows from `k` on is reading row `k`, then the rest. */
  lemma AddRowsNext(d: Dict, xkeys: Option<seq<Key>>, lines: seq<string>, k: nat, r: Dict)
    requires k < |lines| && AddRow(d, xkeys, lines[k]) == Ok(r)
    ensures AddRows(d, xkeys, lines[k..]) == AddRows(r, xkeys, lines[k + 1..])
  {
    assert lines[k..][0] == lines[k] && lines[k..][1..] == lines[k + 1..];
  }

  // ---------------------------------------------------------------------
  // Header lines as read back

  lemma StartsWith(s: string, sub: string)
    requires |sub| <= |s| && s[..|sub|] == sub
    ensures Contains(s, sub)
  {
    assert OccursAt(s, sub, 0);
  }

  /** A line whose only 'I' before `rest` is its first character, and
      whose `rest` has no "ITEM", holds an item header `sub` only at its
      start. */
  lemma ItemOnlyAtStart(pre: string, rest: string, sub: string)
    requires 4 <= |sub| && sub[..4] == "ITEM"
    requires forall i :: 0 < i < |pre| ==> pre[i] != 'I'
    requires !OccursAt(pre + rest, sub, 0)
    requires !Contains(rest, "ITEM")
    ensures !Contains(pre + rest, sub)
  {
    var s := pre + rest;
    forall i | 0 < i <= |s| - |sub| ensures !OccursAt(s, sub, i) {
      if i < |pre| {
        assert s[i..i + |sub|][0] == s[i];
      } else if OccursAt(s, sub, i) {
        SliceFront(s, i, |sub|, 4);
        assert s[i..i + 4] == sub[..4];
        assert rest[i - |pre|..i - |pre| + 4] == s[i..i + 4];
        assert OccursAt(rest, "ITEM", i - |pre|);
      }
    }
  }

  lemma SliceFront(s: string, i: nat, n: nat, m: nat)
    requires m <= n && i + n <= |s|
    ensures s[i..i + m] == s[i..i + n][..m]
  {
    var a, b := s[i..i + m], s[i..i + n];
    forall j | 0 <= j < m ensures a[j] == b[..m][j] {
      assert a[j] == s[i + j] && b[j] == s[i + j];
    }
  }

  /** The NUMBER OF ATOMS header is not a TIMESTEP header. */
  lemma CountHeaderLine()
    ensures !Contains(NumberHeader, TimestepHeader) && Contains(NumberHeader, NumberHeader)
  {
    var h := NumberHeader;
    assert h + "" == h;
    assert h[..|TimestepHeader|][6] != TimestepHeader[6];
    NoFirstChar("", "ITEM");
    ItemOnlyAtStart(h, "", TimestepHeader);
    StartsWith(h, h);
  }

  /** A written BOX BOUNDS header is neither a TIMESTEP nor a NUMBER OF
      ATOMS header. */
  lemma BoxHeaderLine(p: seq<bool>)
    ensures var line := Writer.BoxHeader(p);
            !Contains(line, TimestepHeader) && !Contains(line, NumberHeader) && Contains(line, Reader.BoxHeader)
  {
    var pre := "ITEM: BOX BOUNDS ";
    var toks := PeriodTokens(p);
    var line := pre + Join(toks);
    assert Writer.BoxHeader(p) == line;
    JoinAvoids(toks, 'I');
    NoFirstChar(Join(toks), "ITEM");
    assert line[..|TimestepHeader|][6] != TimestepHeader[6];
    ItemOnlyAtStart(pre, Join(toks), TimestepHeader);
    if |line| >= |NumberHeader| {
      assert line[..|NumberHeader|][6] != NumberHeader[6];
    }
    ItemOnlyAtStart(pre, Join(toks), NumberHeader);
    assert line[..|Reader.BoxHeader|] == Reader.BoxHeader;
    StartsWith(line, Reader.BoxHeader);
  }

  /** The headings the ATOMS header always starts with. */
  const AtomHeadings: seq<string> := ["ITEM:", "ATOMS", "id", "type", "x", "y", "z"]

  /** A written ATOMS header is no other header, and its headings are the
      seven fixed ones followed by the extras names. */
  lemma AtomsHeaderLine(e: seq<string>)
    requires Headings(e)
    ensures var line := Writer.AtomsHeader(e);
            && !Contains(line, TimestepHeader) && !Contains(line, NumberHeader)
            && !Contains(line, Reader.BoxHeader) && Contains(line, Reader.AtomsHeader)
            && Split(line) == AtomHeadings + e
  {
    var pre := "ITEM: ATOMS id type x y z ";
    var line := pre + Join(e);
    assert Writer.AtomsHeader(e) == line;
    assert line[..|TimestepHeader|][6] != TimestepHeader[6];
    ItemOnlyAtStart(pre, Join(e), TimestepHeader);
    assert line[..|NumberHeader|][6] != NumberHeader[6];
    ItemOnlyAtStart(pre, Join(e), NumberHeader);
    assert line[..|Reader.BoxHeader|][6] != Reader.BoxHeader[6];
    ItemOnlyAtStart(pre, Join(e), Reader.BoxHeader);
    assert line[..|Reader.AtomsHeader|] == Reader.AtomsHeader;
    StartsWith(line, Reader.AtomsHeader);
    AtomHeadingsText();
    RowSplit(AtomHeadings, e);
  }

  /** The seven fixed headings are words, and their join is the header's
      fixed part. */
  lemma AtomHeadingsText()
    ensures forall i :: 0 <= i < |AtomHeadings| ==> IsWord(AtomHeadings[i])
    ensures Join(AtomHeadings) + " " == "ITEM: ATOMS id type x y z "
  {
    AtomHeadingsWords();
    JoinTwo(["y", "z"]);
    JoinMore(["x", "y", "z"], "y z");
    JoinMore(["type", "x", "y", "z"], "x y z");
    JoinMore(["id", "type", "x", "y", "z"], "type x y z");
    JoinMore(["ATOMS", "id", "type", "x", "y", "z"], "id type x y z");
    HeadingsTail();
    JoinMore(AtomHeadings, "ATOMS id type x y z");
    HeadingsLine();
  }

  lemma HeadingsTail()
    ensures |AtomHeadings| == 7 && AtomHeadings[0] == "ITEM:"
    ensures AtomHeadings[1..] == ["ATOMS", "id", "type", "x", "y", "z"]
  {
  }

  lemma HeadingsLine()
    ensures "ITEM:" + " " + "ATOMS id type x y z" + " " == "ITEM: ATOMS id type x y z "
  {
  }

  lemma JoinTwo(ws: seq<string>)
    requires |ws| == 2
    ensures Join(ws) == ws[0] + " " + ws[1]
  {
    assert Join(ws[1..]) == ws[1];
  }

  lemma JoinMore(ws: seq<string>, rest: string)
    requires |ws| >= 2 && Join(ws[1..]) == rest
    ensures Join(ws) == ws[0] + " " + rest
  {
  }

  lemma AtomHeadingsWords()
    ensures forall i :: 0 <= i < |AtomHeadings| ==> IsWord(AtomHeadings[i])
  {
    assert IsWord("ITEM:") && IsWord("ATOMS") && IsWord("id") && IsWord("type");
    assert IsWord("x") && IsWord("y") && IsWord("z");
  }

  /** A written integer is read back with `int`. */
  lemma IntLine(i: int)
    ensures CastAll([ToInt], Split(IntText(i))) == Ok([OInt(i)])
  {
    IntChars(i);
    NumberWord(IntText(i));
    SplitWord(IntText(i));
    CastInt(i);
  }

  lemma CastInt(i: int)
    ensures CastAll([ToInt], [IntText(i)]) == Ok([OInt(i)])
  {
    ParseIntText(i);
    assert ApplyCast(ToInt, IntText(i)) == Ok(OInt(i));
    assert [ToInt][1..] == [] && [IntText(i)][1..] == [];
    assert CastAll([ToInt][1..], [IntText(i)][1..]) == Ok([]);
    assert [OInt(i)] + [] == [OInt(i)];
  }

  /** A written box line is read back with two `float` casts. */
  lemma BoxLineCast(b: Bound)
    ensures CastAll([ToFloat, ToFloat], Split(BoxLine(b))) == Ok([OFloat(b.lo), OFloat(b.hi)])
  {
    BoxLineSplit(b);
    CastPair(b.lo, b.hi);
  }

  lemma FloatCast(f: FloatText)
    ensures ApplyCast(ToFloat, f) == Ok(OFloat(f))
  {
  }

  lemma CastPair(lo: FloatText, hi: FloatText)
    ensures CastAll([ToFloat, ToFloat], [lo, hi]) == Ok([OFloat(lo), OFloat(hi)])
  {
    FloatCast(lo);
    FloatCast(hi);
    CastAllPairs([ToFloat, ToFloat], [lo, hi]);
    var r := CastAll([ToFloat, ToFloat], [lo, hi]);
    assert r.value[0] == OFloat(lo) && r.value[1] == OFloat(hi);
    assert r.value == [OFloat(lo), OFloat(hi)];
  }

  lemma BoxLineSplit(b: Bound)
    ensures Split(BoxLine(b)) == [b.lo, b.hi]
  {
    FloatWord(b.lo);
    FloatWord(b.hi);
    SplitWordThen(b.lo, b.hi);
    SplitWord(b.hi);
  }

  lemma FloatWord(f: FloatText)
    ensures IsWord(f)
  {
    FloatChars(f);
    NumberWord(f);
  }

  // The reader's state after each header line of a written timestep, on a
  // file read without a step filter and for no particular index.

  lemma TimeHeaderStep(cfg: Config)
    ensures Step(cfg, Start(0, None), TimestepHeader) ==
              Continue(State(Items([[ToInt]], Time), [], None, false, false, None, 1))
  {
    StartsWith(TimestepHeader, TimestepHeader);
    assert [] + [[ToInt]] == [[ToInt]];
  }

  lemma TimeValueStep(cfg: Config, i: int)
    requires cfg.stepfilter.None?
    ensures Step(cfg, State(Items([[ToInt]], Time), [], None, false, false, None, 1), IntText(i)) ==
              Continue(State(Items([], Time), Put([], KTime, OInt(i)), None, false, false, Some(OInt(i)), 2))
  {
    IntLine(i);
  }

  lemma CountHeaderStep(cfg: Config, d: Dict, index: Index)
    ensures Step(cfg, State(Items([], Time), d, None, false, false, index, 2), NumberHeader) ==
              Continue(State(Items([[ToInt]], NAtoms), d, None, false, false, index, 3))
  {
    CountHeaderLine();
    assert [] + [[ToInt]] == [[ToInt]];
  }

  lemma CountValueStep(cfg: Config, d: Dict, index: Index, n: int)
    requires !Has(d, KNAtoms)
    ensures Step(cfg, State(Items([[ToInt]], NAtoms), d, None, false, false, index, 3), IntText(n)) ==
              Continue(State(Items([], NAtoms), Put(d, KNAtoms, OInt(n)), None, false, false, index, 4))
  {
    var s := State(Items([[ToInt]], NAtoms), d, None, false, false, index, 3);
    IntLine(n);
    assert DataLine(cfg, s, IntText(n)) == DataValues(cfg, s, OInt(n));
    assert [[ToInt]][..0] == [];
    assert Store(d, KNAtoms, OInt(n), true) == Ok(Put(d, KNAtoms, OInt(n)));
  }

  lemma BoxHeaderStep(cfg: Config, d: Dict, index: Index, p: seq<bool>)
    requires |p| > 0
    ensures Step(cfg, State(Items([], NAtoms), d, None, false, false, index, 4), Writer.BoxHeader(p)) ==
              Continue(State(Items([[ToFloat, ToFloat], [ToFloat, ToFloat], [ToFloat, ToFloat]], BoxSec),
                             Put(d, KPeriodic, OList(Strs(PeriodTokens(p)))), None, false, false, index, 5))
  {
    BoxHeaderLine(p);
    BoxHeaderTokens(p);
    assert [] + [[ToFloat, ToFloat], [ToFloat, ToFloat], [ToFloat, ToFloat]] == [[ToFloat, ToFloat], [ToFloat, ToFloat], [ToFloat, ToFloat]];
  }

  lemma BoxValueStep(cfg: Config, s: State, line: string, b: Bound)
    requires s.mode.Items? && s.mode.current == BoxSec && BoxTop(s.mode.stack)
    requires CastAll([ToFloat, ToFloat], Split(line)) == Ok([OFloat(b.lo), OFloat(b.hi)])
    requires Store(s.result, KBox, Pair(b), |s.mode.stack| == 1).Ok?
    ensures DataLine(cfg, s, line) ==
              Continue(s.(mode := Items(s.mode.stack[..|s.mode.stack| - 1], BoxSec),
                          result := Store(s.result, KBox, Pair(b), |s.mode.stack| == 1).value,
                          pos := s.pos + 1))
  {
    var vals := [OFloat(b.lo), OFloat(b.hi)];
    assert Collapse(vals) == Pair(b) && SectionKey(BoxSec) == KBox;
    DataLineStored(cfg, s, line, vals);
  }

  /** A data line of a section other than TIMESTEP whose values cast is
      stored under the section's key, and its cast leaves the stack. */
  lemma DataLineStored(cfg: Config, s: State, line: string, vals: seq<Obj>)
    requires s.mode.Items? && s.mode.current != Time && |s.mode.stack| > 0
    requires CastAll(s.mode.stack[|s.mode.stack| - 1], Split(line)) == Ok(vals)
    requires Store(s.result, SectionKey(s.mode.current), Collapse(vals), |s.mode.stack| == 1).Ok?
    ensures DataLine(cfg, s, line) ==
              Continue(s.(mode := Items(s.mode.stack[..|s.mode.stack| - 1], s.mode.current),
                          result := Store(s.result, SectionKey(s.mode.current), Collapse(vals), |s.mode.stack| == 1).value,
                          pos := s.pos + 1))
  {
    DataLineCast(cfg, s, line, vals);
    DataValuesKept(cfg, s, Collapse(vals));
    StoreDataOk(s, Collapse(vals));
  }

  /** A data line whose tokens cast goes on to the cast values. */
  lemma DataLineCast(cfg: Config, s: State, line: string, vals: seq<Obj>)
    requires s.mode.Items? && |s.mode.stack| > 0
    requires CastAll(s.mode.stack[|s.mode.stack| - 1], Split(line)) == Ok(vals)
    ensures DataLine(cfg, s, line) == DataValues(cfg, s, Collapse(vals))
  {
  }

  /** Outside the TIMESTEP section the values are stored unchecked. */
  lemma DataValuesKept(cfg: Config, s: State, values: Obj)
    requires s.mode.Items? && |s.mode.stack| > 0 && s.mode.current != Time
    ensures DataValues(cfg, s, values) == StoreData(s, values, s.index, s.timeskip, s.laststep)
  {
  }

  /** Storing that succeeds moves to the next line with the cast popped. */
  lemma StoreDataOk(s: State, values: Obj)
    requires s.mode.Items? && |s.mode.stack| > 0
    requires Store(s.result, SectionKey(s.mode.current), values, |s.mode.stack| == 1).Ok?
    ensures StoreData(s, values, s.index, s.timeskip, s.laststep) ==
              Continue(s.(mode := Items(s.mode.stack[..|s.mode.stack| - 1], s.mode.current),
                          result := Store(s.result, SectionKey(s.mode.current), values, |s.mode.stack| == 1).value,
                          pos := s.pos + 1))
  {
    var stack := s.mode.stack;
    assert |stack[..|stack| - 1]| == 0 <==> |stack| == 1;
  }

  lemma AtomsHeaderStep(cfg: Config, d: Dict, index: Index, e: seq<string>)
    requires Headings(e)
    ensures Step(cfg, State(Items([], BoxSec), d, None, false, false, index, 8), Writer.AtomsHeader(e)) ==
              Continue(State(AtomRows, AtomColumns(d, AtomHeadings + e), XKeys(e), false, false, index, 9))
  {
    AtomsHeaderLine(e);
    assert (AtomHeadings + e)[7..] == e;
  }

  // ---------------------------------------------------------------------
  // The dict after the header lines

  /** The keys of two dicts laid end to end. */
  lemma KeysConcat(a: Dict, b: Dict)
    ensures Keys(a + b) == Keys(a) + Keys(b)
  {
    assert forall i :: 0 <= i < |b| ==> (a + b)[|a| + i] == b[i];
  }

  /** A key's value is the one of its first pair. */
  lemma GetAt(d: Dict, i: nat, k: Key)
    requires i < |d| && d[i].0 == k
    requires forall j :: 0 <= j < i ==> d[j].0 != k
    ensures Has(d, k) && Get(d, k) == d[i].1
  {
    assert Keys(d)[i] == k;
  }

  /** Pairs added after a key leave its value alone. */
  lemma GetPrefix(a: Dict, b: Dict, k: Key)
    requires Has(a, k)
    ensures Has(a + b, k) && Get(a + b, k) == Get(a, k)
  {
    var i := Slot(a, k);
    GetAt(a + b, i, k);
  }

  /** A new key is appended, with its value. */
  lemma PutNew(d: Dict, k: Key, v: Obj)
    requires !Has(d, k)
    ensures Put(d, k, v) == d + [(k, v)]
  {
  }

  /** A key that only the last pair carries is replaced there. */
  lemma PutLast(d: Dict, k: Key, v: Obj, w: Obj)
    requires !Has(d, k)
    ensures Has(d + [(k, w)], k) && Get(d + [(k, w)], k) == w
    ensures Put(d + [(k, w)], k, v) == d + [(k, v)]
  {
    forall j | 0 <= j < |d| ensures (d + [(k, w)])[j].0 != k {
      assert Keys(d)[j] == d[j].0;
    }
    GetAt(d + [(k, w)], |d|, k);
  }

  /** The first value of a section not yet in the dict, when more follow:
      the key is set to an empty list and the value appended. */
  lemma StoreFirst(d: Dict, k: Key, v: Obj)
    requires !Has(d, k)
    ensures Store(d, k, v, false) == Ok(d + [(k, OList([v]))])
  {
    PutNew(d, k, OList([]));
    PutLast(d, k, OList([] + [v]), OList([]));
    assert [] + [v] == [v];
  }

  /** A later value of a section is appended to its list, whether or not
      it is the last one. */
  lemma StoreMore(d: Dict, k: Key, items: seq<Obj>, v: Obj, last: bool)
    requires !Has(d, k)
    ensures Store(d + [(k, OList(items))], k, v, last) == Ok(d + [(k, OList(items + [v]))])
  {
    PutLast(d, k, OList(items + [v]), OList(items));
  }

  /** The four header sections of `t` as the reader stores them. */
  function HeadDict(t: Timestep): Dict
    requires Headed(t)
  {
    [(KTime, t.index.value), (KNAtoms, OInt(Len(t))),
     (KPeriodic, OList(Strs(PeriodTokens(t.periodic.value)))), (KBox, OList(Pairs(t.box.value.bounds)))]
  }

  /** The empty columns for the extras names. */
  function Empties(names: seq<string>): (d: Dict)
    ensures |d| == |names| && forall i :: 0 <= i < |names| ==> d[i] == (KAtom(names[i]), OList([]))
  {
    seq(|names|, i requires 0 <= i < |names| => (KAtom(names[i]), OList([])))
  }

  /** `HeadDict` holds the header values, under the first four keys. */
  lemma HeadDictValues(t: Timestep)
    requires Headed(t)
    ensures Keys(HeadDict(t)) == FixedKeys[..4]
    ensures HeadValues(HeadDict(t), t)
  {
    var d := HeadDict(t);
    assert Keys(d) == FixedKeys[..4];
    GetAt(d, 0, KTime);
    GetAt(d, 1, KNAtoms);
    GetAt(d, 2, KPeriodic);
    GetAt(d, 3, KBox);
  }

  /** Fresh, distinct names get their empty columns at the end, in order. */
  lemma {:induction false} PutEmptyNew(d: Dict, names: seq<string>)
    requires Unique(names)
    requires forall j :: 0 <= j < |names| ==> !Has(d, KAtom(names[j]))
    ensures PutEmpty(d, names) == d + Empties(names)
    decreases |names|
  {
    if names != [] {
      var k := KAtom(names[0]);
      PutNew(d, k, OList([]));
      var d' := d + [(k, OList([]))];
      FreshTail(d, names);
      PutEmptyNew(d', names[1..]);
      EmptiesCons(d, names);
    }
  }

  lemma EmptiesCons(d: Dict, names: seq<string>)
    requires names != []
    ensures d + Empties(names) == d + [(KAtom(names[0]), OList([]))] + Empties(names[1..])
  {
    var x, e := (KAtom(names[0]), OList([])), Empties(names[1..]);
    assert Empties(names) == [x] + e;
    DictAssoc(d, [x], e);
  }

  lemma DictAssoc(a: Dict, b: Dict, c: Dict)
    ensures a + (b + c) == a + b + c
  {
  }

  lemma FreshTail(d: Dict, names: seq<string>)
    requires names != [] && Unique(names)
    requires forall j :: 0 <= j < |names| ==> !Has(d, KAtom(names[j]))
    ensures Unique(names[1..])
    ensures forall j :: 0 <= j < |names| - 1 ==> !Has(d + [(KAtom(names[0]), OList([]))], KAtom(names[1..][j]))
  {
    var d' := d + [(KAtom(names[0]), OList([]))];
    KeysConcat(d, [(KAtom(names[0]), OList([]))]);
    forall j | 0 <= j < |names| - 1 ensures !Has(d', KAtom(names[1..][j])) {
      assert names[1..][j] == names[j + 1] != names[0];
      assert !Has(d, KAtom(names[j + 1]));
    }
  }

  /** The three columns every ATOMS header starts, empty. */
  const EmptyColumns: Dict := [(KType, OList([])), (KId, OList([])), (KXyz, OList([]))]

  /** The ATOMS header of a written timestep sets up the three fixed
      columns and one column per extras name, all empty, after the header
      sections. */
  lemma AtomColumnsNew(t: Timestep)
    requires Headed(t) && Unique(t.extras.value)
    ensures AtomColumns(HeadDict(t), AtomHeadings + t.extras.value) == HeadDict(t) + EmptyColumns + Empties(t.extras.value)
  {
    var e := t.extras.value;
    var d := HeadDict(t);
    HeadDictValues(t);
    PutNew(d, KType, OList([]));
    var d1 := d + [(KType, OList([]))];
    KeysConcat(d, [(KType, OList([]))]);
    PutNew(d1, KId, OList([]));
    var d2 := d1 + [(KId, OList([]))];
    KeysConcat(d1, [(KId, OList([]))]);
    PutNew(d2, KXyz, OList([]));
    var d3 := d2 + [(KXyz, OList([]))];
    KeysConcat(d2, [(KXyz, OList([]))]);
    assert d3 == d + EmptyColumns;
    assert Keys(d3) == FixedKeys;
    PutEmptyNew(d3, e);
    assert (AtomHeadings + e)[7..] == e;
  }

  /** Pairs added after the header sections leave them alone. */
  lemma HeadValuesPrefix(a: Dict, b: Dict, t: Timestep)
    requires Headed(t) && HeadValues(a, t)
    ensures HeadValues(a + b, t)
  {
    GetPrefix(a, b, KTime);
    GetPrefix(a, b, KNAtoms);
    GetPrefix(a, b, KPeriodic);
    GetPrefix(a, b, KBox);
  }

  /** Each extras column appended after keys of another kind is a list. */
  lemma ExtrasListed(d: Dict, e: seq<string>)
    requires Unique(e)
    requires forall i :: 0 <= i < |d| ==> !d[i].0.KAtom?
    ensures forall j :: 0 <= j < |e| ==> IsList(d + Empties(e), KAtom(e[j]))
  {
    var r := d + Empties(e);
    forall j | 0 <= j < |e| ensures IsList(r, KAtom(e[j])) {
      forall i | 0 <= i < |d| + j ensures r[i].0 != KAtom(e[j]) {
        if i >= |d| {
          assert r[i] == Empties(e)[i - |d|];
        }
      }
      GetAt(r, |d| + j, KAtom(e[j]));
    }
  }

  /** The three fixed columns after the header sections: empty lists, and
      no key of an extras column among the seven keys. */
  lemma ColumnsAfter(h: Dict)
    requires Keys(h) == FixedKeys[..4]
    ensures var d := h + EmptyColumns;
            && Keys(d) == FixedKeys
            && (forall i :: 0 <= i < |d| ==> !d[i].0.KAtom?)
            && Has(d, KType) && Get(d, KType) == OList([])
            && Has(d, KId) && Get(d, KId) == OList([])
            && Has(d, KXyz) && Get(d, KXyz) == OList([])
  {
    var d := h + EmptyColumns;
    KeysConcat(h, EmptyColumns);
    FixedKeysSplit();
    DictTail(h, EmptyColumns);
    ColumnsGet(d);
  }

  lemma FixedKeysSplit()
    ensures FixedKeys[..4] + Keys(EmptyColumns) == FixedKeys && |FixedKeys[..4]| == 4
  {
    assert Keys(EmptyColumns) == [KType, KId, KXyz];
  }

  lemma DictTail(a: Dict, b: Dict)
    ensures (a + b)[|a|..] == b
  {
  }

  lemma ColumnsGet(d: Dict)
    requires Keys(d) == FixedKeys && d[4..] == EmptyColumns
    ensures forall i :: 0 <= i < |d| ==> !d[i].0.KAtom?
    ensures Has(d, KType) && Get(d, KType) == OList([])
    ensures Has(d, KId) && Get(d, KId) == OList([])
    ensures Has(d, KXyz) && Get(d, KXyz) == OList([])
  {
    assert forall i :: 0 <= i < |d| ==> d[i].0 == FixedKeys[i];
    assert d[4] == EmptyColumns[0] && d[5] == EmptyColumns[1] && d[6] == EmptyColumns[2];
    GetAt(d, 4, KType);
    GetAt(d, 5, KId);
    GetAt(d, 6, KXyz);
  }

  /** After the ATOMS header, on any dict holding the header sections under
      the first four keys, no row is read yet. */
  lemma ColumnsReadFrom(h: Dict, t: Timestep)
    requires Headed(t) && Unique(t.extras.value)
    requires Keys(h) == FixedKeys[..4] && HeadValues(h, t)
    ensures RowsRead(h + EmptyColumns + Empties(t.extras.value), t, 0)
  {
    var e := t.extras.value;
    var d := h + EmptyColumns;
    ColumnsAfter(h);
    HeadValuesPrefix(h, EmptyColumns, t);
    KeysConcat(d, Empties(e));
    assert Keys(Empties(e)) == AtomKeys(e);
    HeadValuesPrefix(d, Empties(e), t);
    GetPrefix(d, Empties(e), KType);
    GetPrefix(d, Empties(e), KId);
    GetPrefix(d, Empties(e), KXyz);
    assert TypeObjs(t.types[..0]) == [] && t.ids[..0] == [] && Triples(t.xyz[..0]) == [];
    ExtrasListed(d, e);
  }

  /** After the ATOMS header of a written timestep, no row is read yet. */
  lemma ColumnsRead(t: Timestep)
    requires Headed(t) && Unique(t.extras.value)
    ensures RowsRead(AtomColumns(HeadDict(t), AtomHeadings + t.extras.value), t, 0)
  {
    AtomColumnsNew(t);
    HeadDictValues(t);
    ColumnsReadFrom(HeadDict(t), t);
  }

  // ---------------------------------------------------------------------
  // Reading the header lines back

  /** While data lines are pending, a data line that continues leaves the
      rest of the loop to the new state. */
  lemma RunData(lines: seq<string>, cfg: Config, s: State, s': State)
    requires s.mode.Items? && |s.mode.stack| > 0
    requires s.pos < |lines| && DataLine(cfg, s, lines[s.pos]) == Continue(s')
    ensures Run(lines, cfg, s) == Run(lines, cfg, s')
  {
    RunStep(lines, cfg, s, s');
  }

  /** The casts pushed for the three box lines. */
  const BoxCasts: seq<seq<Cast>> := [[ToFloat, ToFloat], [ToFloat, ToFloat], [ToFloat, ToFloat]]

  /** A box line is next: the pending casts end with the two floats of a
      box row. */
  predicate BoxTop(stack: seq<seq<Cast>>) {
    |stack| > 0 && stack[|stack| - 1] == [ToFloat, ToFloat]
  }

  /** Lines 206-211 read back: the TIMESTEP value becomes the index, and
      the count and the periodicity tokens are stored, in that order. */
  lemma HeadRun(lines: seq<string>, cfg: Config, i: int, n: int, p: seq<bool>)
    requires cfg.stepfilter.None? && |p| > 0 && |lines| >= 5
    requires lines[0] == TimestepHeader && lines[1] == IntText(i)
    requires lines[2] == NumberHeader && lines[3] == IntText(n) && lines[4] == Writer.BoxHeader(p)
    ensures Run(lines, cfg, Start(0, None)) ==
              Run(lines, cfg, State(Items(BoxCasts, BoxSec),
                                    [(KTime, OInt(i)), (KNAtoms, OInt(n)), (KPeriodic, OList(Strs(PeriodTokens(p))))],
                                    None, false, false, Some(OInt(i)), 5))
  {
    var d2: Dict := [(KTime, OInt(i))];
    TimeRun(lines, cfg, i);
    CountRun(lines, cfg, d2, Some(OInt(i)), n, p);
    assert d2 + [(KNAtoms, OInt(n)), (KPeriodic, OList(Strs(PeriodTokens(p))))] ==
           [(KTime, OInt(i)), (KNAtoms, OInt(n)), (KPeriodic, OList(Strs(PeriodTokens(p))))];
  }

  /** Lines 206-207 read back: the TIMESTEP value is stored and becomes the
      index. */
  lemma TimeRun(lines: seq<string>, cfg: Config, i: int)
    requires cfg.stepfilter.None? && |lines| >= 2
    requires lines[0] == TimestepHeader && lines[1] == IntText(i)
    ensures Run(lines, cfg, Start(0, None)) ==
              Run(lines, cfg, State(Items([], Time), [(KTime, OInt(i))], None, false, false, Some(OInt(i)), 2))
  {
    TimeHeaderStep(cfg);
    var s1 := State(Items([[ToInt]], Time), [], None, false, false, None, 1);
    RunStep(lines, cfg, Start(0, None), s1);
    TimeValueStep(cfg, i);
    PutNew([], KTime, OInt(i));
    assert Put([], KTime, OInt(i)) == [(KTime, OInt(i))];
    RunStep(lines, cfg, s1, State(Items([], Time), [(KTime, OInt(i))], None, false, false, Some(OInt(i)), 2));
  }

  /** Lines 208-211 read back after the TIMESTEP value: the count and the
      periodicity tokens are appended to the dict. */
  lemma CountRun(lines: seq<string>, cfg: Config, d: Dict, index: Index, n: int, p: seq<bool>)
    requires |p| > 0 && |lines| >= 5 && Keys(d) == [KTime]
    requires lines[2] == NumberHeader && lines[3] == IntText(n) && lines[4] == Writer.BoxHeader(p)
    ensures Run(lines, cfg, State(Items([], Time), d, None, false, false, index, 2)) ==
              Run(lines, cfg, State(Items(BoxCasts, BoxSec),
                                    d + [(KNAtoms, OInt(n)), (KPeriodic, OList(Strs(PeriodTokens(p))))],
                                    None, false, false, index, 5))
  {
    CountHeaderStep(cfg, d, index);
    var s3 := State(Items([[ToInt]], NAtoms), d, None, false, false, index, 3);
    RunStep(lines, cfg, State(Items([], Time), d, None, false, false, index, 2), s3);
    CountValueStep(cfg, d, index, n);
    PutNew(d, KNAtoms, OInt(n));
    var d4 := d + [(KNAtoms, OInt(n))];
    var s4 := State(Items([], NAtoms), d4, None, false, false, index, 4);
    RunStep(lines, cfg, s3, s4);
    KeysConcat(d, [(KNAtoms, OInt(n))]);
    assert Keys(d4) == [KTime, KNAtoms];
    BoxHeaderStep(cfg, d4, index, p);
    var v := OList(Strs(PeriodTokens(p)));
    PutNew(d4, KPeriodic, v);
    RunStep(lines, cfg, s4, State(Items(BoxCasts, BoxSec), d4 + [(KPeriodic, v)], None, false, false, index, 5));
    assert d4 + [(KPeriodic, v)] == d + [(KNAtoms, OInt(n)), (KPeriodic, v)];
  }

  /** Lines 213-220 read back: the three box lines are collected, in
      order, under one new key. */
  lemma BoxRun(lines: seq<string>, cfg: Config, d: Dict, index: Index, box: seq<Bound>)
    requires BoxCastsAt(lines, box) && !Has(d, KBox)
    ensures Run(lines, cfg, State(Items(BoxCasts, BoxSec), d, None, false, false, index, 5)) ==
              Run(lines, cfg, State(Items([], BoxSec), d + [(KBox, OList(Pairs(box)))], None, false, false, index, 8))
  {
    BoxFirstRun(lines, cfg, d, index, box[0]);
    BoxTailRun(lines, cfg, d, index, box);
  }

  /** The second and third box lines complete the list of bounds. */
  lemma BoxTailRun(lines: seq<string>, cfg: Config, d: Dict, index: Index, box: seq<Bound>)
    requires BoxCastsAt(lines, box) && !Has(d, KBox)
    ensures Run(lines, cfg, State(Items(BoxCasts[..2], BoxSec), d + [(KBox, OList([Pair(box[0])]))], None, false, false, index, 6)) ==
              Run(lines, cfg, State(Items([], BoxSec), d + [(KBox, OList(Pairs(box)))], None, false, false, index, 8))
  {
    var p0, p1 := Pair(box[0]), Pair(box[1]);
    PairsThree(box);
    BoxStacksPop();
    BoxMoreRun(lines, cfg, d, index, BoxCasts[..2], BoxCasts[..1], 6, [p0], [p0, p1], box[1]);
    BoxMoreRun(lines, cfg, d, index, BoxCasts[..1], [], 7, [p0, p1], Pairs(box), box[2]);
  }

  /** Lines 5-7 cast to the three box rows. */
  predicate BoxCastsAt(lines: seq<string>, box: seq<Bound>) {
    && |box| == 3 && |lines| >= 8
    && CastAll([ToFloat, ToFloat], Split(lines[5])) == Ok([OFloat(box[0].lo), OFloat(box[0].hi)])
    && CastAll([ToFloat, ToFloat], Split(lines[6])) == Ok([OFloat(box[1].lo), OFloat(box[1].hi)])
    && CastAll([ToFloat, ToFloat], Split(lines[7])) == Ok([OFloat(box[2].lo), OFloat(box[2].hi)])
  }

  /** The box lines of a written header cast back to its bounds. */
  lemma BoxLinesCast(lines: seq<string>, t: Timestep)
    requires Headed(t) && |t.box.value.bounds| == 3 && |lines| >= 9 && lines[..9] == HeaderText(t)
    ensures BoxCastsAt(lines, t.box.value.bounds)
  {
    HeaderAt(lines, t);
    BoxLineCast(t.box.value.bounds[0]);
    BoxLineCast(t.box.value.bounds[1]);
    BoxLineCast(t.box.value.bounds[2]);
  }

  /** The bounds listed as the three box lines append them. */
  lemma PairsThree(box: seq<Bound>)
    requires |box| == 3
    ensures [Pair(box[0])] + [Pair(box[1])] == [Pair(box[0]), Pair(box[1])]
    ensures [Pair(box[0]), Pair(box[1])] + [Pair(box[2])] == Pairs(box)
  {
    assert Pairs(box) == [Pair(box[0]), Pair(box[1]), Pair(box[2])];
  }

  /** The stack of box casts as each line pops one. */
  lemma BoxStacksPop()
    ensures BoxTop(BoxCasts) && |BoxCasts| == 3 && BoxCasts[..|BoxCasts| - 1] == BoxCasts[..2]
    ensures BoxTop(BoxCasts[..2]) && BoxCasts[..2][..|BoxCasts[..2]| - 1] == BoxCasts[..1]
    ensures BoxTop(BoxCasts[..1]) && BoxCasts[..1][..|BoxCasts[..1]| - 1] == []
  {
  }

  /** The first box line starts the list of bounds. */
  lemma BoxFirstRun(lines: seq<string>, cfg: Config, d: Dict, index: Index, b: Bound)
    requires |lines| > 5 && !Has(d, KBox)
    requires CastAll([ToFloat, ToFloat], Split(lines[5])) == Ok([OFloat(b.lo), OFloat(b.hi)])
    ensures Run(lines, cfg, State(Items(BoxCasts, BoxSec), d, None, false, false, index, 5)) ==
              Run(lines, cfg, State(Items(BoxCasts[..2], BoxSec), d + [(KBox, OList([Pair(b)]))], None, false, false, index, 6))
  {
    BoxStacksPop();
    BoxFirstStep(cfg, d, index, BoxCasts, BoxCasts[..2], lines[5], b);
    RunData(lines, cfg, State(Items(BoxCasts, BoxSec), d, None, false, false, index, 5),
            State(Items(BoxCasts[..2], BoxSec), d + [(KBox, OList([Pair(b)]))], None, false, false, index, 6));
  }

  lemma BoxFirstStep(cfg: Config, d: Dict, index: Index, stack: seq<seq<Cast>>, rest: seq<seq<Cast>>,
                     line: string, b: Bound)
    requires !Has(d, KBox) && BoxTop(stack) && |stack| == 3 && rest == stack[..|stack| - 1]
    requires CastAll([ToFloat, ToFloat], Split(line)) == Ok([OFloat(b.lo), OFloat(b.hi)])
    ensures DataLine(cfg, State(Items(stack, BoxSec), d, None, false, false, index, 5), line) ==
              Continue(State(Items(rest, BoxSec), d + [(KBox, OList([Pair(b)]))], None, false, false, index, 6))
  {
    FirstNext(d, index, stack, rest, b);
    BoxValueStep(cfg, State(Items(stack, BoxSec), d, None, false, false, index, 5), line, b);
  }

  /** The state after the first box line, as the data line leaves it. */
  lemma FirstNext(d: Dict, index: Index, stack: seq<seq<Cast>>, rest: seq<seq<Cast>>, b: Bound)
    requires !Has(d, KBox) && |stack| == 3 && rest == stack[..|stack| - 1]
    ensures Store(d, KBox, Pair(b), |stack| == 1).Ok?
    ensures var s := State(Items(stack, BoxSec), d, None, false, false, index, 5);
            s.(mode := Items(s.mode.stack[..|s.mode.stack| - 1], BoxSec),
               result := Store(s.result, KBox, Pair(b), |s.mode.stack| == 1).value, pos := s.pos + 1) ==
            State(Items(rest, BoxSec), d + [(KBox, OList([Pair(b)]))], None, false, false, index, 6)
  {
    StoreFirst(d, KBox, Pair(b));
  }

  /** A later box line is appended to the bounds. */
  lemma BoxMoreRun(lines: seq<string>, cfg: Config, d: Dict, index: Index, stack: seq<seq<Cast>>,
                   rest: seq<seq<Cast>>, pos: nat, items: seq<Obj>, items': seq<Obj>, b: Bound)
    requires pos < |lines| && !Has(d, KBox)
    requires CastAll([ToFloat, ToFloat], Split(lines[pos])) == Ok([OFloat(b.lo), OFloat(b.hi)])
    requires BoxTop(stack) && rest == stack[..|stack| - 1] && items' == items + [Pair(b)]
    ensures Run(lines, cfg, State(Items(stack, BoxSec), d + [(KBox, OList(items))], None, false, false, index, pos)) ==
              Run(lines, cfg, State(Items(rest, BoxSec), d + [(KBox, OList(items'))], None, false, false, index, pos + 1))
  {
    var s := State(Items(stack, BoxSec), d + [(KBox, OList(items))], None, false, false, index, pos);
    var next := State(Items(rest, BoxSec), d + [(KBox, OList(items'))], None, false, false, index, pos + 1);
    BoxMoreStep(cfg, d, index, stack, rest, pos, items, items', lines[pos], b);
    RunData(lines, cfg, s, next);
  }

  lemma BoxMoreStep(cfg: Config, d: Dict, index: Index, stack: seq<seq<Cast>>,
                    rest: seq<seq<Cast>>, pos: nat, items: seq<Obj>, items': seq<Obj>, line: string, b: Bound)
    requires !Has(d, KBox)
    requires CastAll([ToFloat, ToFloat], Split(line)) == Ok([OFloat(b.lo), OFloat(b.hi)])
    requires BoxTop(stack) && rest == stack[..|stack| - 1] && items' == items + [Pair(b)]
    ensures DataLine(cfg, State(Items(stack, BoxSec), d + [(KBox, OList(items))], None, false, false, index, pos), line) ==
              Continue(State(Items(rest, BoxSec), d + [(KBox, OList(items'))], None, false, false, index, pos + 1))
  {
    MoreNext(d, index, stack, rest, pos, items, items', b);
    BoxValueStep(cfg, State(Items(stack, BoxSec), d + [(KBox, OList(items))], None, false, false, index, pos), line, b);
  }

  /** The state after a later box line, as the data line leaves it. */
  lemma MoreNext(d: Dict, index: Index, stack: seq<seq<Cast>>, rest: seq<seq<Cast>>, pos: nat,
                 items: seq<Obj>, items': seq<Obj>, b: Bound)
    requires !Has(d, KBox) && |stack| > 0 && rest == stack[..|stack| - 1] && items' == items + [Pair(b)]
    ensures Store(d + [(KBox, OList(items))], KBox, Pair(b), |stack| == 1).Ok?
    ensures var s := State(Items(stack, BoxSec), d + [(KBox, OList(items))], None, false, false, index, pos);
            s.(mode := Items(s.mode.stack[..|s.mode.stack| - 1], BoxSec),
               result := Store(s.result, KBox, Pair(b), |s.mode.stack| == 1).value, pos := s.pos + 1) ==
            State(Items(rest, BoxSec), d + [(KBox, OList(items'))], None, false, false, index, pos + 1)
  {
    StoreMore(d, KBox, items, Pair(b), |stack| == 1);
    assert Store(d + [(KBox, OList(items))], KBox, Pair(b), |stack| == 1).value == d + [(KBox, OList(items'))];
  }

  /** The nine header lines of a written timestep read back: the reader
      reaches the atom rows with the header sections stored, the fixed and
      extras columns set up empty, and the index taken from the file. */
  lemma HeaderChain(lines: seq<string>, cfg: Config, t: Timestep)
    requires Headed(t) && |t.box.value.bounds| == 3 && |t.periodic.value| > 0 && Headings(t.extras.value)
    requires cfg.stepfilter.None? && |lines| >= 9 && lines[..9] == HeaderText(t)
    ensures Run(lines, cfg, Start(0, None)) ==
              Run(lines, cfg, State(AtomRows, AtomColumns(HeadDict(t), AtomHeadings + t.extras.value),
                                    XKeys(t.extras.value), false, false, t.index, 9))
  {
    HeadPart(lines, cfg, t);
    BoxPart(lines, cfg, t);
    AtomsPart(lines, cfg, t);
  }

  /** The nine header lines a timestep is written with. */
  function HeaderText(t: Timestep): seq<string>
    requires Headed(t)
  {
    HeadLines(t) + [Writer.BoxHeader(t.periodic.value)] + BoxLines(t.box.value.bounds) + [Writer.AtomsHeader(t.extras.value)]
  }

  /** The header lines one by one. */
  lemma HeaderAt(lines: seq<string>, t: Timestep)
    requires Headed(t) && |t.box.value.bounds| == 3 && |lines| >= 9 && lines[..9] == HeaderText(t)
    ensures lines[0] == TimestepHeader && lines[1] == IntText(t.index.value.i)
    ensures lines[2] == NumberHeader && lines[3] == IntText(Len(t)) && lines[4] == Writer.BoxHeader(t.periodic.value)
    ensures lines[5] == BoxLine(t.box.value.bounds[0]) && lines[6] == BoxLine(t.box.value.bounds[1]) && lines[7] == BoxLine(t.box.value.bounds[2])
    ensures lines[8] == Writer.AtomsHeader(t.extras.value)
  {
    forall k | 0 <= k < 9 ensures lines[k] == HeaderText(t)[k] {
      assert lines[k] == lines[..9][k];
    }
  }

  /** The header sections before BOX BOUNDS. */
  function CountsDict(t: Timestep): Dict
    requires Headed(t)
  {
    [(KTime, t.index.value), (KNAtoms, OInt(Len(t))), (KPeriodic, OList(Strs(PeriodTokens(t.periodic.value))))]
  }

  /** Lines 206-211 read back. */
  lemma HeadPart(lines: seq<string>, cfg: Config, t: Timestep)
    requires Headed(t) && |t.box.value.bounds| == 3 && |t.periodic.value| > 0
    requires cfg.stepfilter.None? && |lines| >= 9 && lines[..9] == HeaderText(t)
    ensures Run(lines, cfg, Start(0, None)) ==
              Run(lines, cfg, State(Items(BoxCasts, BoxSec), CountsDict(t), None, false, false, t.index, 5))
  {
    HeaderAt(lines, t);
    HeadRun(lines, cfg, t.index.value.i, Len(t), t.periodic.value);
  }

  /** Lines 212-220 read back. */
  lemma BoxPart(lines: seq<string>, cfg: Config, t: Timestep)
    requires Headed(t) && |t.box.value.bounds| == 3 && |lines| >= 9 && lines[..9] == HeaderText(t)
    ensures Run(lines, cfg, State(Items(BoxCasts, BoxSec), CountsDict(t), None, false, false, t.index, 5)) ==
              Run(lines, cfg, State(Items([], BoxSec), HeadDict(t), None, false, false, t.index, 8))
  {
    BoxLinesCast(lines, t);
    var d5 := CountsDict(t);
    assert Keys(d5) == [KTime, KNAtoms, KPeriodic];
    BoxRun(lines, cfg, d5, t.index, t.box.value.bounds);
    assert d5 + [(KBox, OList(Pairs(t.box.value.bounds)))] == HeadDict(t);
  }

  /** Line 221 read back. */
  lemma AtomsPart(lines: seq<string>, cfg: Config, t: Timestep)
    requires Headed(t) && |t.box.value.bounds| == 3 && Headings(t.extras.value)
    requires |lines| >= 9 && lines[..9] == HeaderText(t)
    ensures Run(lines, cfg, State(Items([], BoxSec), HeadDict(t), None, false, false, t.index, 8)) ==
              Run(lines, cfg, State(AtomRows, AtomColumns(HeadDict(t), AtomHeadings + t.extras.value),
                                    XKeys(t.extras.value), false, false, t.index, 9))
  {
    HeaderAt(lines, t);
    var e := t.extras.value;
    AtomsHeaderStep(cfg, HeadDict(t), t.index, e);
    RunStep(lines, cfg, State(Items([], BoxSec), HeadDict(t), None, false, false, t.index, 8),
            State(AtomRows, AtomColumns(HeadDict(t), AtomHeadings + e), XKeys(e), false, false, t.index, 9));
  }

  /** Every written atom line is ready to be read back as a row. */
  lemma LinesReady(t: Timestep, fs: seq<Field>)
    requires forall j :: 0 <= j < |fs| ==> fs[j].kind == KindOf(fs[j].values)
    requires AtomLines(t, fs).error.None?
    ensures Len(t) <= |t.types| && Len(t) <= |t.ids| && |AtomLines(t, fs).lines| == Len(t)
    ensures forall i :: 0 <= i < Len(t) ==> RowReady(t, fs, i) && AtomLines(t, fs).lines[i] == AtomText(t, fs, i)
  {
    AtomLinesText(t, fs);
    AtomLinesOk(t, fs);
  }

  /** The atom lines of a written timestep read back after its ATOMS
      header: every row is read, up to the end of the text. */
  lemma RowsRun(lines: seq<string>, cfg: Config, t: Timestep, fs: seq<Field>) returns (d: Dict)
    requires Headed(t) && Unique(t.extras.value) && |fs| == |t.extras.value|
    requires forall j :: 0 <= j < |fs| ==> fs[j].kind == KindOf(fs[j].values)
    requires AtomLines(t, fs).error.None?
    requires |lines| >= 9 && lines[9..] == AtomLines(t, fs).lines
    ensures Len(t) <= |t.types| && Len(t) <= |t.ids|
    ensures Run(lines, cfg, State(AtomRows, AtomColumns(HeadDict(t), AtomHeadings + t.extras.value),
                                  XKeys(t.extras.value), false, false, t.index, 9)) == Done(d, t.index, |lines|)
    ensures RowsRead(d, t, Len(t))
  {
    var e := t.extras.value;
    var rows := AtomLines(t, fs).lines;
    LinesReady(t, fs);
    var d0 := AtomColumns(HeadDict(t), AtomHeadings + e);
    var s9 := State(AtomRows, d0, XKeys(e), false, false, t.index, 9);
    RowsNoItem(lines, t, fs);
    ColumnsRead(t);
    RowsLoop(d0, t, fs, rows, 0);
    assert rows[0..] == rows;
    d := AddRows(d0, XKeys(e), rows).value;
    RowsEnd(lines, cfg, s9, rows, d);
  }

  /** Rows without "ITEM" up to the end of the text are all read. */
  lemma RowsEnd(lines: seq<string>, cfg: Config, s: State, rows: seq<string>, d: Dict)
    requires s.mode.AtomRows? && s.pos == 9 && |lines| >= 9 && lines[9..] == rows
    requires forall k :: 9 <= k < |lines| ==> !Contains(lines[k], "ITEM")
    requires AddRows(s.result, s.xkeys, rows) == Ok(d)
    ensures Run(lines, cfg, s) == Done(d, s.index, |lines|)
  {
    AtomRowsEnd(lines, cfg, s, |lines|);
    assert lines[9..|lines|] == rows;
  }

  /** No written atom line contains "ITEM". */
  lemma RowsNoItem(lines: seq<string>, t: Timestep, fs: seq<Field>)
    requires forall j :: 0 <= j < |fs| ==> fs[j].kind == KindOf(fs[j].values)
    requires AtomLines(t, fs).error.None?
    requires |lines| >= 9 && lines[9..] == AtomLines(t, fs).lines
    ensures forall k :: 9 <= k < |lines| ==> !Contains(lines[k], "ITEM")
  {
    var rows := AtomLines(t, fs).lines;
    LinesReady(t, fs);
    forall k | 9 <= k < |lines| ensures !Contains(lines[k], "ITEM") {
      assert lines[k] == rows[k - 9];
      AtomTextSplit(t, fs, k - 9);
    }
  }

  /** A written timestep read back from the start of its lines, with no
      step filter: the whole text is consumed, the index is the one
      written, and the dict holds every atom row. */
  lemma ReadWritten(t: Timestep, cfg: Config) returns (d: Dict)
    requires StepText(t).error.None? && t.index.Some? && t.index.value.OInt?
    requires t.box.Some? && t.box.value.PairBox? && |t.box.value.bounds| == 3 && |t.periodic.value| > 0 && Headings(t.extras.value)
    requires cfg.stepfilter.None?
    ensures Headed(t) && Len(t) <= |t.types| && Len(t) <= |t.ids|
    ensures Run(StepText(t).lines, cfg, Start(0, None)) == Done(d, t.index, |StepText(t).lines|)
    ensures RowsRead(d, t, Len(t))
  {
    var fs := Layout(t);
    var lines := StepText(t).lines;
    assert lines[..9] == HeaderText(t);
    assert lines[9..] == AtomLines(t, fs).lines;
    HeaderChain(lines, cfg, t);
    d := RowsRun(lines, cfg, t, fs);
  }

  // ---------------------------------------------------------------------
  // Building the timestep from the dict read back

  /** The column conversions of lines 99-101 and 110-111 undo what the
      reader stored for written values. */
  lemma TypesBack(xs: seq<int>)
    ensures AsInts(OList(TypeObjs(xs)), KType) == Ok(xs)
  {
    var o := OList(TypeObjs(xs));
    assert forall i :: 0 <= i < |o.items| ==> o.items[i].OInt?;
    var r := AsInts(o, KType).value;
    forall i | 0 <= i < |xs| ensures r[i] == xs[i] {
      assert o.items[i] == OInt(r[i]);
    }
    assert r == xs;
  }

  lemma IdsBack(ids: seq<Obj>)
    requires forall i :: 0 <= i < |ids| ==> ids[i].OInt?
    ensures AsInts(OList(ids), KId).Ok?
  {
  }

  lemma PositionsBack(ps: seq<Vec3>)
    ensures AsPositions(OList(Triples(ps))) == Ok(ps)
  {
    var o := OList(Triples(ps));
    assert forall i :: 0 <= i < |o.items| ==> IsTriple(o.items[i]);
    var r := AsPositions(o).value;
    forall i | 0 <= i < |ps| ensures r[i] == ps[i] {
      assert o.items[i] == Triple(ps[i]);
    }
    assert r == ps;
  }

  lemma BoundsBack(bs: seq<Bound>)
    ensures AsBox(OList(Pairs(bs))) == Ok(PairBox(bs))
  {
    var o := OList(Pairs(bs));
    assert forall i :: 0 <= i < |o.items| ==> IsPair(o.items[i]);
    var r := AsBox(o).value.bounds;
    forall i | 0 <= i < |bs| ensures r[i] == bs[i] {
      assert o.items[i] == Pair(bs[i]);
    }
    assert r == bs;
  }

  lemma FlagsBack(p: seq<bool>)
    ensures AsFlags(OList(Strs(PeriodTokens(p)))) == Ok(p)
  {
    var o := OList(Strs(PeriodTokens(p)));
    var r := AsFlags(o).value;
    forall i | 0 <= i < |p| ensures r[i] == p[i] {
      assert o.items[i] == OStr(if p[i] then "pp" else "ss");
      assert "ss" != "pp";
    }
    assert r == p;
  }

  /** A heading without a colon is its own quantity name. */
  lemma {:induction false} QuantPlain(h: string)
    requires ':' !in h
    ensures Quant(h) == h
  {
    if h != [] {
      assert h[0] in h && h == [h[0]] + h[1..];
      assert forall x :: x in h[1..] ==> x in h;
      QuantPlain(h[1..]);
    }
  }

  /** The quantity names of the keys read back are the extras names. */
  lemma QuantsBack(e: seq<string>)
    requires forall j :: 0 <= j < |e| ==> ':' !in e[j]
    ensures Quants(FixedKeys + AtomKeys(e)) == e
  {
    FixedNoAtoms();
    QuantsSkip(FixedKeys, AtomKeys(e));
    forall j | 0 <= j < |e| ensures Quant(e[j]) == e[j] {
      QuantPlain(e[j]);
    }
    QuantsAtoms(e);
  }

  lemma FixedNoAtoms()
    ensures forall i :: 0 <= i < |FixedKeys| ==> !FixedKeys[i].KAtom?
  {
  }

  /** Keys that are not "atom:" keys contribute no name. */
  lemma {:induction false} QuantsSkip(ks: seq<Key>, rest: seq<Key>)
    requires forall i :: 0 <= i < |ks| ==> !ks[i].KAtom?
    ensures Quants(ks + rest) == Quants(rest)
  {
    if ks != [] {
      assert (ks + rest)[1..] == ks[1..] + rest;
      QuantsSkip(ks[1..], rest);
    } else {
      assert ks + rest == rest;
    }
  }

  /** The "atom:" keys of headings that are their own quantity names give
      back the headings. */
  lemma {:induction false} QuantsAtoms(e: seq<string>)
    requires forall j :: 0 <= j < |e| ==> Quant(e[j]) == e[j]
    ensures Quants(AtomKeys(e)) == e
  {
    if e != [] {
      QuantsAtomsCons(e);
      SelfNamedTail(e);
      QuantsAtoms(e[1..]);
      assert e == [e[0]] + e[1..];
    }
  }

  /** The first "atom:" key gives the first heading's quantity name. */
  lemma QuantsAtomsCons(e: seq<string>)
    requires e != []
    ensures Quants(AtomKeys(e)) == [Quant(e[0])] + Quants(AtomKeys(e[1..]))
  {
    var ks, tail := AtomKeys(e), AtomKeys(e[1..]);
    assert ks == [KAtom(e[0])] + tail;
    assert ks[0] == KAtom(e[0]) && ks[1..] == tail;
  }

  lemma SelfNamedTail(e: seq<string>)
    requires e != [] && forall j :: 0 <= j < |e| ==> Quant(e[j]) == e[j]
    ensures forall j :: 0 <= j < |e[1..]| ==> Quant(e[1..][j]) == e[1..][j]
  {
    forall j | 0 <= j < |e[1..]| ensures Quant(e[1..][j]) == e[1..][j] {
      assert e[1..][j] == e[j + 1];
    }
  }

  /** With distinct keys, every pair is the one its key finds. */
  lemma GetDistinct(d: Dict, i: nat)
    requires i < |d| && UniqueKeys(d)
    ensures Has(d, d[i].0) && Get(d, d[i].0) == d[i].1
  {
    GetAt(d, i, d[i].0);
  }

  /** The keys read back are distinct. */
  lemma KeysDistinct(d: Dict, e: seq<string>)
    requires Unique(e) && Keys(d) == FixedKeys + AtomKeys(e)
    ensures UniqueKeys(d) && KNone !in Keys(d)
    ensures forall i :: 0 <= i < |d| && d[i].0.KAtom? ==> i >= 7 && d[i].0 == KAtom(e[i - 7])
  {
    var ks := FixedKeys + AtomKeys(e);
    forall i, j | 0 <= i < j < |d| ensures d[i].0 != d[j].0 {
      assert d[i].0 == ks[i] && d[j].0 == ks[j];
    }
  }

  /** Every extras column read back holds a list. */
  lemma RowsAtomLists(d: Dict, e: seq<string>)
    requires Unique(e) && Keys(d) == FixedKeys + AtomKeys(e)
    requires forall j :: 0 <= j < |e| ==> IsList(d, KAtom(e[j]))
    ensures AtomLists(d) && KNone !in Keys(d)
  {
    KeysDistinct(d, e);
    forall i | 0 <= i < |d| && d[i].0.KAtom? ensures d[i].1.OList? {
      GetDistinct(d, i);
      assert IsList(d, KAtom(e[i - 7]));
    }
  }

  /** Lines 90-114 on a dict holding the seven sections of a timestep
      as the reader stores them, each "atom:" key a list: the timestep is
      built from exactly those values, and `extras` is "ids" followed by
      the names of the "atom:" keys. */
  lemma FromDict(d: Dict, index: Index, types: seq<int>, ids: seq<Obj>, xyz: seq<Vec3>,
                 box: seq<Bound>, p: seq<bool>)
    requires |d| >= 6 && KNone !in Keys(d) && AtomLists(d)
    requires forall i :: 0 <= i < |ids| ==> ids[i].OInt?
    requires Has(d, KType) && Get(d, KType) == OList(TypeObjs(types))
    requires Has(d, KId) && Get(d, KId) == OList(ids)
    requires Has(d, KXyz) && Get(d, KXyz) == OList(Triples(xyz))
    requires Has(d, KPeriodic) && Get(d, KPeriodic) == OList(Strs(PeriodTokens(p)))
    requires Has(d, KBox) && Get(d, KBox) == OList(Pairs(box))
    requires Has(d, KNAtoms) && Get(d, KNAtoms) == OInt(|xyz|)
    ensures var r := FromRaw(d, index);
            && r.Ok? && r.value.index == index
            && r.value.types == types && r.value.xyz == xyz
            && r.value.box == Some(PairBox(box)) && r.value.periodic == Some(p)
            && r.value.extras == Some(["ids"] + Quants(Keys(d)))
            && ("ids" !in Quants(Keys(d)) ==> r.value.ids == ids)
  {
    TypesBack(types);
    IdsBack(ids);
    PositionsBack(xyz);
    AddAttrsFacts(Attrs(["ids"], ids, map[]), d);
    FlagsBack(p);
    BoundsBack(box);
  }

  /** Lines 90-114 on the dict read back from a written timestep: the
      timestep is built; its types, positions, box and periodicity are the
      written ones; `extras` is "ids" followed by every name written in the
      ATOMS header; and the ids are the written ones unless a column named
      "ids" was written too. */
  lemma FromRows(d: Dict, t: Timestep)
    requires Headed(t) && Headings(t.extras.value)
    requires Len(t) <= |t.types| && Len(t) <= |t.ids|
    requires forall k :: 0 <= k < Len(t) ==> t.ids[k].OInt?
    requires RowsRead(d, t, Len(t))
    ensures var r := FromRaw(d, t.index);
            && r.Ok? && r.value.index == t.index
            && r.value.types == t.types[..Len(t)] && r.value.xyz == t.xyz
            && r.value.box == t.box && r.value.periodic == t.periodic
            && r.value.extras == Some(["ids"] + t.extras.value)
            && ("ids" !in t.extras.value ==> r.value.ids == t.ids[..Len(t)])
  {
    var e, n := t.extras.value, Len(t);
    assert |d| == |Keys(d)| == 7 + |e|;
    assert t.xyz[..n] == t.xyz;
    RowsAtomLists(d, e);
    QuantsBack(e);
    FromDict(d, t.index, t.types[..n], t.ids[..n], t.xyz, t.box.value.bounds, t.periodic.value);
  }

  // ---------------------------------------------------------------------
  // The round trip

  /** A timestep written by `dump` (lines 197-244) and read back by the
      constructor (lines 83-114) from the start of the file, with no step
      filter, on a private or a shared file: the read consumes every line
      written; the index, types, positions, box and periodicity come back;
      the ids come back unless a column named "ids" was written; and
      `extras` comes back as "ids" followed by every name written, so the
      timestep read back is never `==` to the one written. */
  lemma WriteRead(t: Timestep, openf: Option<nat>)
    requires openf == None || openf == Some(0)
    requires StepText(t).error.None? && t.index.Some? && t.index.value.OInt?
    requires t.box.Some? && t.box.value.PairBox? && |t.box.value.bounds| == 3 && t.periodic.Some? && |t.periodic.value| > 0
    requires t.extras.Some? && Headings(t.extras.value)
    ensures var r := Load(StepText(t).lines, None, openf, None);
            && r.Ok? && r.value.pos == |StepText(t).lines|
            && r.value.step.index == t.index
            && r.value.step.xyz == t.xyz
            && |r.value.step.types| == Len(t) && r.value.step.types <= t.types
            && r.value.step.box == t.box && r.value.step.periodic == t.periodic
            && ("ids" !in t.extras.value ==> |r.value.step.ids| == Len(t) && r.value.step.ids <= t.ids)
            && r.value.step.extras == Some(["ids"] + t.extras.value)
            && !Eq(r.value.step, t)
  {
    var cfg := ConfigOf(openf, None);
    var d := ReadWritten(t, cfg);
    WriteOk(t);
    assert forall k :: 0 <= k < Len(t) ==> t.ids[k].OInt?;
    FromRows(d, t);
    assert |["ids"] + t.extras.value| != |t.extras.value|;
  }
}

