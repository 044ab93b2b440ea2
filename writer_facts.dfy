/** Properties of `Timestep.dump`: when it completes, and the layout of
    what it writes. */
module WriterFacts {
  import opened Text
  import opened Raw
  import opened Timesteps
  import opened Writer

  /** Every extras name has an attribute with at least one entry. */
  predicate ColumnsPresent(t: Timestep, names: seq<string>) {
    forall j :: 0 <= j < |names| ==> Column(t, names[j]).Some? && Column(t, names[j]).value != []
  }

  /** Lines 226-234 complete exactly when every extras name has an
      attribute and none is empty. */
  lemma {:induction false} FieldsOk(t: Timestep, names: seq<string>)
    ensures Fields(t, names).Ok? <==> ColumnsPresent(t, names)
  {
    if names != [] {
      FieldsOk(t, names[1..]);
      assert forall j :: 1 <= j < |names| ==> names[1..][j - 1] == names[j];
    }
  }

  /** Lines written one after another run through exactly when none of
      them raises. */
  lemma {:induction false} CollectComplete(rs: seq<Result<string>>)
    ensures Collect(rs).error.None? <==> forall k :: 0 <= k < |rs| ==> rs[k].Ok?
  {
    if rs != [] && rs[0].Ok? {
      CollectComplete(rs[1..]);
      assert forall k :: 1 <= k < |rs| ==> rs[k] == rs[1..][k - 1];
    }
  }

  /** When they run through, line `k` is the text of result `k`. */
  lemma {:induction false} CollectText(rs: seq<Result<string>>)
    requires Collect(rs).error.None?
    ensures |Collect(rs).lines| == |rs|
    ensures forall k :: 0 <= k < |rs| ==> rs[k] == Ok(Collect(rs).lines[k])
  {
    if rs != [] {
      CollectText(rs[1..]);
      var rest := Collect(rs[1..]).lines;
      forall k | 1 <= k < |rs| ensures rs[k] == Ok(Collect(rs).lines[k]) {
        assert rs[k] == rs[1..][k - 1] && Collect(rs).lines[k] == rest[k - 1];
      }
    }
  }

  /** Every field has an entry for each atom. */
  predicate FieldsCover(fs: seq<Field>, n: nat) {
    forall j :: 0 <= j < |fs| ==> n <= |fs[j].values|
  }

  /** Lines 236-242 run through exactly when ids and types cover every
      atom, so does each extras column, and the ids are integers. */
  lemma AtomLinesOk(t: Timestep, fs: seq<Field>)
    requires forall j :: 0 <= j < |fs| ==> fs[j].kind == KindOf(fs[j].values)
    ensures AtomLines(t, fs).error.None? <==>
              Len(t) == 0 || (Len(t) <= |t.ids| && Len(t) <= |t.types| && FieldsCover(fs, Len(t)) && KindOf(t.ids) == Int64)
  {
    var rs := AtomResults(t, fs);
    CollectComplete(rs);
    var n := Len(t);
    if n > 0 && AtomLines(t, fs).error.None? {
      assert rs[n - 1] == AtomLine(t, fs, n - 1);
      assert AtomLine(t, fs, n - 1).Ok?;
      assert ShortField(fs, n - 1).None?;
    }
    if n > 0 && n <= |t.ids| && n <= |t.types| && FieldsCover(fs, n) && KindOf(t.ids) == Int64 {
      forall k | 0 <= k < n ensures rs[k].Ok? {
        assert ShortField(fs, k).None?;
      }
    }
  }

  /** What lets `t.dump` run through: the timestep is not the empty one,
      its box rows are (lo, hi) pairs or there are none, every extras name
      has an attribute with at least one entry and, when
      there are atoms, ids, types and every extras column cover them and
      the ids are integers. */
  predicate Writable(t: Timestep) {
    && t.periodic.Some? && t.box.Some? && t.extras.Some?
    && (t.box.value.PairBox? || Rows(t.box.value) == 0)
    && ColumnsPresent(t, t.extras.value)
    && (Len(t) > 0 ==>
          && Len(t) <= |t.ids| && Len(t) <= |t.types| && KindOf(t.ids) == Int64
          && forall j :: 0 <= j < |t.extras.value| ==> Len(t) <= |Column(t, t.extras.value[j]).value|)
  }

  /** Lines 206-244 complete exactly for the writable timesteps. */
  lemma WriteOk(t: Timestep)
    ensures StepText(t).error.None? <==> Writable(t)
  {
    if t.periodic.Some? && t.box.Some? && t.extras.Some? {
      var e := t.extras.value;
      FieldsOk(t, e);
      var f := Fields(t, e);
      if f.Ok? {
        AtomLinesOk(t, f.value);
        var n := Len(t);
        assert FieldsCover(f.value, n) <==> forall j :: 0 <= j < |e| ==> n <= |Column(t, e[j]).value|;
      }
    }
  }

  /** Lines 205-242, when they complete: the TIMESTEP and NUMBER OF ATOMS
      lines, the BOX BOUNDS header, one line per (lo, hi) box row, the ATOMS header
      naming every entry of `extras`, then the atom lines, every one of
      which was written. */
  lemma Layout(t: Timestep) returns (fs: seq<Field>)
    requires StepText(t).error.None?
    ensures t.periodic.Some? && t.box.Some? && t.extras.Some?
    ensures t.box.value.PairBox? || Rows(t.box.value) == 0
    ensures Fields(t, t.extras.value) == Ok(fs)
    ensures AtomLines(t, fs).error.None?
    ensures StepText(t).lines ==
              ["ITEM: TIMESTEP", IndexText(t.index), "ITEM: NUMBER OF ATOMS", IntText(Len(t))]
              + [BoxHeader(t.periodic.value)] + (if t.box.value.PairBox? then BoxLines(t.box.value.bounds) else [])
              + [AtomsHeader(t.extras.value)] + AtomLines(t, fs).lines
  {
    fs := Fields(t, t.extras.value).value;
  }

  /** Lines 236-242, when they complete: one line per atom, line `k` being
      the text of atom `k`. */
  lemma AtomLinesText(t: Timestep, fs: seq<Field>)
    requires forall j :: 0 <= j < |fs| ==> fs[j].kind == KindOf(fs[j].values)
    requires AtomLines(t, fs).error.None?
    ensures |AtomLines(t, fs).lines| == Len(t)
    ensures forall k :: 0 <= k < Len(t) ==> AtomLine(t, fs, k) == Ok(AtomLines(t, fs).lines[k])
  {
    CollectText(AtomResults(t, fs));
  }

  /** Line 229 on a timestep without atoms: `extras` starts with "ids", the
      `ids` attribute is empty, and taking its first entry raises, unless
      writing the box raised before. */
  lemma ZeroAtomsFail(t: Timestep)
    requires t.periodic.Some? && t.box.Some? && t.extras.Some?
    requires |t.extras.value| > 0 && t.extras.value[0] == "ids" && t.ids == []
    ensures StepText(t).error ==
              if BoxText(t.box.value).error.Some? then BoxText(t.box.value).error else Some(EmptyColumn("ids"))
  {
  }
}
