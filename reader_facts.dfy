/** Properties of `Timestep._read`: where the cursor ends up, how atom rows
    are collected, how the step filter and the target index skip
    timesteps, and what the BOX BOUNDS header records. */
module ReaderFacts {
  import opened Text
  import opened Dicts
  import opened Raw
  import opened Reader

  // ---------------------------------------------------------------------
  // The cursor

  /** The loop never moves the cursor back past where it started, and
      stops at the end of the file at the latest. */
  lemma {:induction false} RunBounds(lines: seq<string>, cfg: Config, s: State)
    ensures var o := Run(lines, cfg, s);
            o.Done? ==> s.pos <= o.pos && (s.pos <= |lines| ==> o.pos <= |lines|)
    decreases |lines| - s.pos
  {
    if s.pos < |lines| {
      match Step(cfg, s, lines[s.pos])
      case Continue(s') => RunBounds(lines, cfg, s');
      case Stop(o) =>
    }
  }

  /** A read that returns a non-empty dict has consumed at least one line:
      the first line read can never end the read where it started. */
  lemma ReadAdvances(lines: seq<string>, cfg: Config, cursor: nat, index: Index)
    ensures var o := Read(lines, cfg, cursor, index);
            o.Done? && o.raw != [] ==> cursor < o.pos <= |lines|
  {
    var s := Start(cursor, index);
    if cursor < |lines| {
      match Step(cfg, s, lines[cursor])
      case Continue(s') => RunBounds(lines, cfg, s');
      case Stop(o) =>
    }
  }

  // ---------------------------------------------------------------------
  // Atom rows

  /** The atom rows `rows` appended one after another. */
  function AddRows(d: Dict, xkeys: Option<seq<Key>>, rows: seq<string>): Result<Dict>
    decreases |rows|
  {
    if rows == [] then Ok(d)
    else
      match AddRow(d, xkeys, rows[0])
      case Err(e) => Err(e)
      case Ok(d') => AddRows(d', xkeys, rows[1..])
  }

  /** Atom rows run up to the first line containing "ITEM" (or the end of
      the file). That line is not consumed on a shared file: the cursor is
      left on it, so the next read starts there. */
  lemma {:induction false} AtomRowsEnd(lines: seq<string>, cfg: Config, s: State, j: nat)
    requires s.mode.AtomRows? && s.pos <= j <= |lines|
    requires forall k :: s.pos <= k < j ==> !Contains(lines[k], "ITEM")
    requires j == |lines| || Contains(lines[j], "ITEM")
    ensures Run(lines, cfg, s) ==
      match AddRows(s.result, s.xkeys, lines[s.pos..j])
      case Err(e) => Failed(e)
      case Ok(r) => Done(r, s.index, if j < |lines| && !cfg.shared then j + 1 else j)
    decreases j - s.pos
  {
    if s.pos < j {
      assert lines[s.pos..j][1..] == lines[s.pos + 1..j];
      match AddRow(s.result, s.xkeys, lines[s.pos])
      case Err(e) =>
      case Ok(r) => AtomRowsEnd(lines, cfg, s.(result := r, pos := s.pos + 1), j);
    }
  }

  // ---------------------------------------------------------------------
  // TIMESTEP values

  /** The integer on a TIMESTEP value line (`int` of its first token). */
  function TimeValue(line: string): Option<int> {
    var toks := Split(line);
    if toks == [] then None else ParseInt(toks[0])
  }

  /** The values of a TIMESTEP value line: `int` of its first token, or
      the empty list when the line has no tokens. */
  lemma TimeValues(line: string)
    ensures var vals := CastAll([ToInt], Split(line));
            vals.Ok? ==> Collapse(vals.value).OInt? || Collapse(vals.value) == OList([])
    ensures Split(line) == [] ==> CastAll([ToInt], Split(line)) == Ok([]) && Collapse([]) == OList([])
  {
    var toks := Split(line);
    if toks != [] && ApplyCast(ToInt, toks[0]).Ok? {
      assert CastAll([ToInt][1..], toks[1..]) == Ok([]);
    }
  }

  /** `values` of a TIMESTEP value line is that integer. */
  lemma CastTime(line: string, v: int)
    requires TimeValue(line) == Some(v)
    ensures CastAll([ToInt], Split(line)) == Ok([OInt(v)])
  {
    var toks := Split(line);
    assert ApplyCast(ToInt, toks[0]) == Ok(OInt(v));
    assert [ToInt][1..] == [];
    assert CastAll([ToInt][1..], toks[1..]) == Ok([]);
    assert [OInt(v)] + [] == [OInt(v)];
  }

  /** A TIMESTEP header and its value line, read with nothing else
      pending: the value is checked against the filter and the index and,
      unless the read gives up, stored under "time". */
  lemma ReadTime(lines: seq<string>, cfg: Config, s: State, v: int)
    requires s.mode.Items? && s.mode.stack == [] && !s.laststep
    requires s.pos + 1 < |lines|
    requires Contains(lines[s.pos], TimestepHeader) && TimeValue(lines[s.pos + 1]) == Some(v)
    ensures Run(lines, cfg, s) ==
      match CheckTime(OInt(v), cfg, s.index, false, false)
      case Err(e) => Failed(e)
      case Ok(GiveUp) => Done([], s.index, s.pos + 2)
      case Ok(Keep(index, timeskip, laststep)) =>
        match Store(s.result, KTime, OInt(v), true)
        case Err(e) => Failed(e)
        case Ok(r) => Run(lines, cfg, State(Items([], Time), r, s.xkeys, timeskip, laststep, index, s.pos + 2))
  {
    var s1 := s.(mode := Items([[ToInt]], Time), timeskip := false, pos := s.pos + 1);
    assert s.mode.stack + [[ToInt]] == [[ToInt]];
    assert Step(cfg, s, lines[s.pos]) == Continue(s1);
    CastTime(lines[s.pos + 1], v);
    assert [[ToInt]][..0] == [];
  }

  /** A turn that continues leaves the rest of the loop to the new state. */
  lemma RunStep(lines: seq<string>, cfg: Config, s: State, s': State)
    requires s.pos < |lines| && Step(cfg, s, lines[s.pos]) == Continue(s')
    ensures Run(lines, cfg, s) == Run(lines, cfg, s')
  {
  }

  /** With no target index and no filter, as `Dump` reads, a TIMESTEP
      header followed by a line without tokens makes the index the empty
      list; the list is stored under "time" and reading goes on. */
  lemma BlankTime(lines: seq<string>, cfg: Config, c: nat)
    requires cfg.stepfilter.None?
    requires c + 1 < |lines| && Contains(lines[c], TimestepHeader) && Split(lines[c + 1]) == []
    ensures Read(lines, cfg, c, None) ==
              Run(lines, cfg, State(Items([], Time), [(KTime, OList([]))], None, false, false, Some(OList([])), c + 2))
  {
    var s := Start(c, None);
    var s1 := s.(mode := Items([[ToInt]], Time), timeskip := false, pos := c + 1);
    assert s.mode.stack + [[ToInt]] == [[ToInt]];
    assert Step(cfg, s, lines[c]) == Continue(s1);
    BlankValue(cfg, s1, lines[c + 1]);
    var s2 := State(Items([], Time), [(KTime, OList([]))], None, false, false, Some(OList([])), c + 2);
    RunStep(lines, cfg, s, s1);
    RunStep(lines, cfg, s1, s2);
  }

  /** A TIMESTEP line without tokens, read against a non-empty list given
      as the target index: `[] > xs` is false, so the timestep is skipped
      and the read goes on; against an integer target it raises. */
  lemma BlankAgainstTarget(cfg: Config, target: Obj, timeskip: bool, laststep: bool)
    requires cfg.stepfilter.None?
    ensures target.OList? && target.items != [] ==>
              CheckTime(OList([]), cfg, Some(target), timeskip, laststep) == Ok(Keep(Some(target), true, laststep))
    ensures target.OInt? ==> CheckTime(OList([]), cfg, Some(target), timeskip, laststep) == Err(Unorderable)
  {
  }

  /** The line without tokens after the header. */
  lemma BlankValue(cfg: Config, s: State, line: string)
    requires cfg.stepfilter.None? && s.mode == Items([[ToInt]], Time) && s.result == [] && s.index.None?
    requires Split(line) == []
    ensures Step(cfg, s, line) == Continue(s.(mode := Items([], Time), result := [(KTime, OList([]))],
                                               index := Some(OList([])), pos := s.pos + 1))
  {
    TimeValues(line);
    assert CheckTime(OList([]), cfg, None, s.timeskip, s.laststep) == Ok(Keep(Some(OList([])), s.timeskip, s.laststep));
    assert [[ToInt]][..0] == [];
    assert Put([], KTime, OList([])) == [(KTime, OList([]))];
  }

  /** While a timestep is skipped, every line up to the next TIMESTEP
      header is ignored: NUMBER OF ATOMS, BOX BOUNDS and ATOMS headers
      included. */
  lemma {:induction false} SkipToTimestep(lines: seq<string>, cfg: Config, s: State, j: nat)
    requires s.mode.Items? && s.mode.stack == [] && s.timeskip
    requires s.pos <= j <= |lines|
    requires forall k :: s.pos <= k < j ==> !Contains(lines[k], TimestepHeader)
    ensures Run(lines, cfg, s) == Run(lines, cfg, s.(pos := j))
    decreases j - s.pos
  {
    if s.pos < j {
      assert Step(cfg, s, lines[s.pos]) == Continue(s.(pos := s.pos + 1));
      SkipToTimestep(lines, cfg, s.(pos := s.pos + 1), j);
    }
  }

  /** The filter is applied before the index: a value outside the filter
      skips the timestep even when it equals the target index. */
  lemma FilterFirst(v: int, cfg: Config, index: Index, timeskip: bool, laststep: bool)
    requires cfg.stepfilter.Some? && v !in cfg.stepfilter.value
    ensures CheckTime(OInt(v), cfg, index, timeskip, laststep) == Ok(Keep(index, true, laststep))
  {
  }

  /** Past the target index on a private file, the read gives up at once
      and returns an empty dict. */
  lemma OvershootPrivate(lines: seq<string>, cfg: Config, c: nat, k: int, v: int)
    requires !cfg.shared && (cfg.stepfilter.None? || v in cfg.stepfilter.value)
    requires c + 1 < |lines| && Contains(lines[c], TimestepHeader) && TimeValue(lines[c + 1]) == Some(v)
    requires v > k
    ensures Read(lines, cfg, c, Some(OInt(k))) == Done([], Some(OInt(k)), c + 2)
  {
    ReadTime(lines, cfg, Start(c, Some(OInt(k))), v);
  }

  /** Past the target index on a shared file, the rest of that timestep is
      skipped and the cursor is left on the next TIMESTEP header (or at the
      end of the file); only its "time" value has been stored. */
  lemma OvershootShared(lines: seq<string>, cfg: Config, c: nat, k: int, v: int, j: nat)
    requires cfg.shared && (cfg.stepfilter.None? || v in cfg.stepfilter.value)
    requires c + 1 < |lines| && Contains(lines[c], TimestepHeader) && TimeValue(lines[c + 1]) == Some(v)
    requires v > k
    requires c + 2 <= j <= |lines|
    requires forall i :: c + 2 <= i < j ==> !Contains(lines[i], TimestepHeader)
    requires j == |lines| || Contains(lines[j], TimestepHeader)
    ensures Read(lines, cfg, c, Some(OInt(k))) == Done([(KTime, OInt(v))], Some(OInt(k)), j)
  {
    ReadTime(lines, cfg, Start(c, Some(OInt(k))), v);
    assert Put([], KTime, OInt(v)) == [(KTime, OInt(v))];
    var s := State(Items([], Time), [(KTime, OInt(v))], None, true, true, Some(OInt(k)), c + 2);
    SkipToTimestep(lines, cfg, s, j);
  }

  /** The TIMESTEP value is kept: reading goes on after it with the
      verdict's flags and the value stored. */
  lemma KeepTime(lines: seq<string>, cfg: Config, s: State, v: int, index: Index, timeskip: bool, laststep: bool, r: Dict)
    requires s.mode.Items? && s.mode.stack == [] && !s.laststep
    requires s.pos + 1 < |lines|
    requires Contains(lines[s.pos], TimestepHeader) && TimeValue(lines[s.pos + 1]) == Some(v)
    requires CheckTime(OInt(v), cfg, s.index, false, false) == Ok(Keep(index, timeskip, laststep))
    requires Store(s.result, KTime, OInt(v), true) == Ok(r)
    ensures Run(lines, cfg, s) == Run(lines, cfg, State(Items([], Time), r, s.xkeys, timeskip, laststep, index, s.pos + 2))
  {
    ReadTime(lines, cfg, s, v);
  }

  /** A TIMESTEP value read when "time" already holds an integer is
      appended to it, which raises, unless the check raises or a private
      read gives up first. */
  lemma SecondTimeFails(lines: seq<string>, cfg: Config, s: State, w: int)
    requires s.mode.Items? && s.mode.stack == [] && !s.laststep
    requires Has(s.result, KTime) && Get(s.result, KTime).OInt?
    requires s.pos + 1 < |lines|
    requires Contains(lines[s.pos], TimestepHeader) && TimeValue(lines[s.pos + 1]) == Some(w)
    requires CheckTime(OInt(w), cfg, s.index, false, false).Ok? && CheckTime(OInt(w), cfg, s.index, false, false).value.Keep?
    ensures Run(lines, cfg, s) == Failed(AppendToScalar(KTime))
  {
    ReadTime(lines, cfg, s, w);
  }

  /** A skipped timestep leaves its value stored under "time" as an
      integer; the next TIMESTEP value read in the same call is appended to
      it, which raises. So a read that has to skip a timestep (outside the
      filter, or before the target index) fails at the next timestep,
      unless that one makes a private read give up. */
  lemma SkipThenFail(lines: seq<string>, cfg: Config, c: nat, index: Index, v: int, j: nat, w: int)
    requires c + 1 < |lines| && Contains(lines[c], TimestepHeader) && TimeValue(lines[c + 1]) == Some(v)
    requires (cfg.stepfilter.Some? && v !in cfg.stepfilter.value) || (index.Some? && index.value.OInt? && v < index.value.i)
    requires c + 2 <= j && j + 1 < |lines|
    requires forall i :: c + 2 <= i < j ==> !Contains(lines[i], TimestepHeader)
    requires Contains(lines[j], TimestepHeader) && TimeValue(lines[j + 1]) == Some(w)
    requires CheckTime(OInt(w), cfg, index, false, false).Ok? && CheckTime(OInt(w), cfg, index, false, false).value.Keep?
    ensures Read(lines, cfg, c, index) == Failed(AppendToScalar(KTime))
  {
    var r: Dict := [(KTime, OInt(v))];
    FirstTime(v);
    KeepTime(lines, cfg, Start(c, index), v, index, true, false, r);
    SkippedFails(lines, cfg, r, index, c + 2, j, w);
  }

  /** While skipping, the loop runs on to the next TIMESTEP, whose value
      cannot be appended to an integer "time". */
  lemma SkippedFails(lines: seq<string>, cfg: Config, r: Dict, index: Index, pos: nat, j: nat, w: int)
    requires Has(r, KTime) && Get(r, KTime).OInt?
    requires pos <= j && j + 1 < |lines|
    requires forall i :: pos <= i < j ==> !Contains(lines[i], TimestepHeader)
    requires Contains(lines[j], TimestepHeader) && TimeValue(lines[j + 1]) == Some(w)
    requires CheckTime(OInt(w), cfg, index, false, false).Ok? && CheckTime(OInt(w), cfg, index, false, false).value.Keep?
    ensures Run(lines, cfg, State(Items([], Time), r, None, true, false, index, pos)) == Failed(AppendToScalar(KTime))
  {
    var s := State(Items([], Time), r, None, true, false, index, pos);
    SkipToTimestep(lines, cfg, s, j);
    SecondTimeFails(lines, cfg, State(Items([], Time), r, None, true, false, index, j), w);
  }

  /** The first TIMESTEP value stored in an empty result. */
  lemma FirstTime(v: int)
    ensures Store([], KTime, OInt(v), true) == Ok([(KTime, OInt(v))])
    ensures Has([(KTime, OInt(v))], KTime) && Get([(KTime, OInt(v))], KTime) == OInt(v)
  {
    var r: Dict := [(KTime, OInt(v))];
    var empty: Dict := [];
    assert Keys(empty) == [] && Keys(r) == [KTime];
    assert Put(empty, KTime, OInt(v)) == r;
  }

  // ---------------------------------------------------------------------
  // Columns

  /** `d[k]` is a list. */
  predicate IsList(d: Dict, k: Key) {
    Has(d, k) && Get(d, k).OList?
  }

  /** `r` is `d` after `d[k].append(v)`. */
  ghost predicate Appended(d: Dict, r: Dict, k: Key, v: Obj) {
    && IsList(d, k) && Keys(r) == Keys(d)
    && Get(r, k) == OList(Get(d, k).items + [v])
    && forall k' :: k' != k && Has(d, k') ==> Get(r, k') == Get(d, k')
  }

  /** `d[k].append(v)` succeeded: `d[k]` was a list and now has `v` at its
      end; every other key keeps its value, and no key is added. */
  lemma AppendToFacts(d: Dict, k: Key, v: Obj)
    requires AppendTo(d, k, v).Ok?
    ensures Appended(d, AppendTo(d, k, v).value, k, v)
  {
    PutFacts(d, k, OList(Get(d, k).items + [v]));
  }

  predicate Distinct(ks: seq<Key>) {
    forall i, j :: 0 <= i < j < |ks| ==> ks[i] != ks[j]
  }

  /** Token `i` of a row's tail goes to the end of extra column `i`; a row
      with more tokens than extra columns raises. */
  lemma {:induction false} AddExtrasFacts(d: Dict, xkeys: seq<Key>, toks: seq<string>)
    requires Distinct(xkeys)
    requires AddExtras(d, xkeys, toks).Ok?
    ensures |toks| <= |xkeys|
    ensures var r := AddExtras(d, xkeys, toks).value;
            && Keys(r) == Keys(d)
            && (forall i :: 0 <= i < |toks| ==> IsList(d, xkeys[i]) && Get(r, xkeys[i]) == OList(Get(d, xkeys[i]).items + [Eval(toks[i])]))
            && (forall k :: k !in xkeys[..|toks|] && Has(d, k) ==> Get(r, k) == Get(d, k))
    decreases |toks|
  {
    if toks != [] {
      var k0 := xkeys[0];
      var d' := AppendTo(d, k0, Eval(toks[0])).value;
      AppendToFacts(d, k0, Eval(toks[0]));
      var r := AddExtras(d', xkeys[1..], toks[1..]).value;
      AddExtrasFacts(d', xkeys[1..], toks[1..]);
      ExtrasStep(d, d', r, xkeys, toks);
    }
  }

  /** The inductive step of `AddExtrasFacts`, from the first token's
      append and the facts about the rest: the columns written. */
  lemma ExtrasStep(d: Dict, d': Dict, r: Dict, xkeys: seq<Key>, toks: seq<string>)
    requires Distinct(xkeys) && 0 < |toks| <= |xkeys|
    requires IsList(d, xkeys[0]) && Keys(d') == Keys(d) && Keys(r) == Keys(d')
    requires Get(d', xkeys[0]) == OList(Get(d, xkeys[0]).items + [Eval(toks[0])])
    requires forall k' :: k' != xkeys[0] && Has(d, k') ==> Get(d', k') == Get(d, k')
    requires forall i :: 0 <= i < |toks| - 1 ==> IsList(d', xkeys[1..][i]) && Get(r, xkeys[1..][i]) == OList(Get(d', xkeys[1..][i]).items + [Eval(toks[1..][i])])
    requires forall k :: k !in xkeys[1..][..|toks| - 1] && Has(d', k) ==> Get(r, k) == Get(d', k)
    ensures forall i :: 0 <= i < |toks| ==> IsList(d, xkeys[i]) && Get(r, xkeys[i]) == OList(Get(d, xkeys[i]).items + [Eval(toks[i])])
    ensures forall k :: k !in xkeys[..|toks|] && Has(d, k) ==> Get(r, k) == Get(d, k)
  {
    forall i | 1 <= i < |toks|
      ensures IsList(d, xkeys[i]) && Get(r, xkeys[i]) == OList(Get(d, xkeys[i]).items + [Eval(toks[i])])
    {
      ExtrasLater(d, d', r, xkeys, toks, i);
    }
    forall k | k !in xkeys[..|toks|] && Has(d, k) ensures Get(r, k) == Get(d, k) {
      ExtrasUntouched(xkeys, |toks|, k);
      assert Has(d', k) by { assert Keys(d') == Keys(d); }
    }
  }

  /** A key outside the first `n` extra keys is neither the first of them
      nor among the next `n - 1`. */
  lemma ExtrasUntouched(xkeys: seq<Key>, n: nat, k: Key)
    requires 0 < n <= |xkeys| && k !in xkeys[..n]
    ensures k != xkeys[0] && k !in xkeys[1..][..n - 1]
  {
    assert xkeys[..n] == [xkeys[0]] + xkeys[1..][..n - 1];
  }

  lemma ExtrasLater(d: Dict, d': Dict, r: Dict, xkeys: seq<Key>, toks: seq<string>, i: nat)
    requires Distinct(xkeys) && 1 <= i < |toks| <= |xkeys|
    requires Keys(d') == Keys(d) && Keys(r) == Keys(d')
    requires forall k' :: k' != xkeys[0] && Has(d, k') ==> Get(d', k') == Get(d, k')
    requires IsList(d', xkeys[1..][i - 1]) && Get(r, xkeys[1..][i - 1]) == OList(Get(d', xkeys[1..][i - 1]).items + [Eval(toks[1..][i - 1])])
    ensures IsList(d, xkeys[i]) && Get(r, xkeys[i]) == OList(Get(d, xkeys[i]).items + [Eval(toks[i])])
  {
    assert xkeys[1..][i - 1] == xkeys[i] && toks[1..][i - 1] == toks[i];
    assert xkeys[i] != xkeys[0];
    assert Has(d, xkeys[i]) by { assert Keys(d') == Keys(d); }
  }

  /** The integer a token casts to with `int`. */
  function IntOf(tok: string): int
    requires ParseInt(tok).Some?
  {
    ParseInt(tok).value
  }

  /** The first five tokens of a row that was read: id and type as integers,
      the position as three floats. */
  predicate RowHead(vals: seq<string>) {
    && |vals| >= 5
    && ParseInt(vals[0]).Some? && ParseInt(vals[1]).Some?
    && IsFloatLit(vals[2]) && IsFloatLit(vals[3]) && IsFloatLit(vals[4])
  }

  /** The three fixed columns, `type`, `id` and `xyz`, after one row. */
  predicate HeadAppended(d: Dict, r: Dict, vals: seq<string>)
    requires RowHead(vals)
  {
    && IsList(d, KType) && IsList(d, KId) && IsList(d, KXyz)
    && Has(r, KType) && Has(r, KId) && Has(r, KXyz)
    && Get(r, KType) == OList(Get(d, KType).items + [OInt(IntOf(vals[1]))])
    && Get(r, KId) == OList(Get(d, KId).items + [OInt(IntOf(vals[0]))])
    && Get(r, KXyz) == OList(Get(d, KXyz).items + [OList([OFloat(vals[2]), OFloat(vals[3]), OFloat(vals[4])])])
  }

  /** The prefix of `AddRow` that handles the five fixed tokens. */
  function RowFixed(result: Dict, vals: seq<string>): Result<Dict> {
    match CastAll([ToInt, ToInt], vals)
    case Err(e) => Err(e)
    case Ok(ids) =>
      if |ids| < 2 then Err(ShortRow)
      else
        match AppendTo(result, KType, ids[1])
        case Err(e) => Err(e)
        case Ok(r1) =>
          match AppendTo(r1, KId, ids[0])
          case Err(e) => Err(e)
          case Ok(r2) =>
            match CastAll([ToFloat, ToFloat, ToFloat], vals[2..])
            case Err(e) => Err(e)
            case Ok(xyz) =>
              if |xyz| < 3 then Err(ShortRow)
              else AppendTo(r2, KXyz, OList(xyz))
  }

  /** `AddRow` is the fixed tokens followed by the extra ones. */
  lemma AddRowSplit(result: Dict, xkeys: Option<seq<Key>>, line: string)
    ensures var vals := Split(line);
            AddRow(result, xkeys, line) ==
              match RowFixed(result, vals)
              case Err(e) => Err(e)
              case Ok(r3) => if |vals| > 5 && xkeys.Some? then AddExtras(r3, xkeys.value, vals[5..]) else Ok(r3)
  {
  }

  /** The fixed part of a row that is read has two integers and three
      floats, and appends them to `type`, `id` and `xyz`; no key is
      added and no other key changes. */
  lemma RowFixedFacts(result: Dict, vals: seq<string>)
    requires RowFixed(result, vals).Ok?
    ensures RowHead(vals)
    ensures var r := RowFixed(result, vals).value;
            && Keys(r) == Keys(result)
            && HeadAppended(result, r, vals)
            && forall k :: k != KType && k != KId && k != KXyz && Has(result, k) ==> Get(r, k) == Get(result, k)
  {
    var ids := CastAll([ToInt, ToInt], vals).value;
    CastIds(vals);
    var r1 := AppendTo(result, KType, ids[1]).value;
    AppendToFacts(result, KType, ids[1]);
    var r2 := AppendTo(r1, KId, ids[0]).value;
    AppendToFacts(r1, KId, ids[0]);
    var xyz := CastAll([ToFloat, ToFloat, ToFloat], vals[2..]).value;
    CastPosition(vals[2..]);
    assert RowFixed(result, vals) == AppendTo(r2, KXyz, OList(xyz));
    AppendToFacts(r2, KXyz, OList(xyz));
    HeadAppends(result, r1, r2, RowFixed(result, vals).value, vals);
  }

  /** Three appends in a row, to `type`, `id` and `xyz`. */
  lemma HeadAppends(d: Dict, r1: Dict, r2: Dict, r3: Dict, vals: seq<string>)
    requires RowHead(vals)
    requires Appended(d, r1, KType, OInt(IntOf(vals[1])))
    requires Appended(r1, r2, KId, OInt(IntOf(vals[0])))
    requires Appended(r2, r3, KXyz, OList([OFloat(vals[2]), OFloat(vals[3]), OFloat(vals[4])]))
    ensures Keys(r3) == Keys(d) && HeadAppended(d, r3, vals)
    ensures forall k :: k != KType && k != KId && k != KXyz && Has(d, k) ==> Get(r3, k) == Get(d, k)
  {
    assert Has(r1, KId) && Has(r1, KXyz) && Has(r2, KXyz) && Has(r2, KType) && Has(r3, KType) && Has(r3, KId);
  }

  /** `int(vals[0]), int(vals[1])`, when two values come out. */
  lemma CastIds(vals: seq<string>)
    requires CastAll([ToInt, ToInt], vals).Ok? && |CastAll([ToInt, ToInt], vals).value| >= 2
    ensures |vals| >= 2 && ParseInt(vals[0]).Some? && ParseInt(vals[1]).Some?
    ensures CastAll([ToInt, ToInt], vals).value == [OInt(IntOf(vals[0])), OInt(IntOf(vals[1]))]
  {
    CastAllPairs([ToInt, ToInt], vals);
  }

  /** `float(x), float(y), float(z)`, when three values come out. */
  lemma CastPosition(vals: seq<string>)
    requires CastAll([ToFloat, ToFloat, ToFloat], vals).Ok? && |CastAll([ToFloat, ToFloat, ToFloat], vals).value| >= 3
    ensures |vals| >= 3 && IsFloatLit(vals[0]) && IsFloatLit(vals[1]) && IsFloatLit(vals[2])
    ensures CastAll([ToFloat, ToFloat, ToFloat], vals).value == [OFloat(vals[0]), OFloat(vals[1]), OFloat(vals[2])]
  {
    CastAllPairs([ToFloat, ToFloat, ToFloat], vals);
  }

  /** Extra keys are columns of their own, apart from the fixed ones. */
  predicate ExtraKeys(xkeys: seq<Key>) {
    Distinct(xkeys) && KType !in xkeys && KId !in xkeys && KXyz !in xkeys
  }

  /** An atom row that is read (lines 318-326) holds the id and type as
      integers and the position as three floats, which go to the end of
      `id`, `type` and `xyz`; with extra headings, token `5 + i` goes to
      the end of extra column `i`, and a row with more tokens than that
      would have raised. Without extra headings, tokens past the fifth are
      dropped. No key is added. */
  lemma AddRowFacts(result: Dict, xkeys: Option<seq<Key>>, line: string)
    requires xkeys.Some? ==> ExtraKeys(xkeys.value)
    requires AddRow(result, xkeys, line).Ok?
    ensures var vals := Split(line);
            var r := AddRow(result, xkeys, line).value;
            && RowHead(vals)
            && Keys(r) == Keys(result)
            && HeadAppended(result, r, vals)
            && (xkeys.None? || |vals| == 5 ==> forall k :: k != KType && k != KId && k != KXyz && Has(result, k) ==> Get(r, k) == Get(result, k))
            && (forall k :: k != KType && k != KId && k != KXyz && (xkeys.None? || k !in xkeys.value) && Has(result, k) ==> Get(r, k) == Get(result, k))
            && (xkeys.Some? ==> |vals| - 5 <= |xkeys.value|)
            && (xkeys.Some? ==> forall i :: 0 <= i < |vals| - 5 ==>
                  IsList(result, xkeys.value[i]) && Get(r, xkeys.value[i]) == OList(Get(result, xkeys.value[i]).items + [Eval(vals[5 + i])]))
  {
    var vals := Split(line);
    AddRowSplit(result, xkeys, line);
    var r3 := RowFixed(result, vals).value;
    RowFixedFacts(result, vals);
    if |vals| > 5 && xkeys.Some? {
      var xs := xkeys.value;
      AddExtrasFacts(r3, xs, vals[5..]);
      RowExtras(result, r3, AddRow(result, xkeys, line).value, vals, xs);
    }
  }

  /** The extra tokens of a row, on top of its fixed part. */
  lemma RowExtras(d: Dict, r3: Dict, r: Dict, vals: seq<string>, xs: seq<Key>)
    requires RowHead(vals) && ExtraKeys(xs) && |vals| - 5 <= |xs|
    requires Keys(r3) == Keys(d) && HeadAppended(d, r3, vals)
    requires forall k :: k != KType && k != KId && k != KXyz && Has(d, k) ==> Get(r3, k) == Get(d, k)
    requires Keys(r) == Keys(r3)
    requires forall i :: 0 <= i < |vals[5..]| ==> IsList(r3, xs[i]) && Get(r, xs[i]) == OList(Get(r3, xs[i]).items + [Eval(vals[5..][i])])
    requires forall k :: k !in xs[..|vals[5..]|] && Has(r3, k) ==> Get(r, k) == Get(r3, k)
    ensures HeadAppended(d, r, vals)
    ensures forall i :: 0 <= i < |vals| - 5 ==> IsList(d, xs[i]) && Get(r, xs[i]) == OList(Get(d, xs[i]).items + [Eval(vals[5 + i])])
    ensures forall k :: k != KType && k != KId && k != KXyz && k !in xs && Has(d, k) ==> Get(r, k) == Get(d, k)
  {
    forall k | k != KType && k != KId && k != KXyz && k !in xs && Has(d, k) ensures Get(r, k) == Get(d, k) {
      assert k !in xs[..|vals[5..]|] by { assert forall k' :: k' in xs[..|vals[5..]|] ==> k' in xs; }
      assert Has(r3, k) by { assert Keys(r3) == Keys(d); }
    }
    assert KType !in xs[..|vals| - 5] && KId !in xs[..|vals| - 5] && KXyz !in xs[..|vals| - 5] by {
      assert forall k :: k in xs[..|vals| - 5] ==> k in xs;
    }
    assert Has(r3, KType) && Has(r3, KId) && Has(r3, KXyz);
    forall i | 0 <= i < |vals| - 5
      ensures IsList(d, xs[i]) && Get(r, xs[i]) == OList(Get(d, xs[i]).items + [Eval(vals[5 + i])])
    {
      assert vals[5..][i] == vals[5 + i];
      assert xs[i] in xs;
      assert Has(d, xs[i]) by { assert Has(r3, xs[i]); }
    }
  }

  // ---------------------------------------------------------------------
  // The three fixed columns stay aligned

  /** `type`, `id` and `xyz` are all absent, or all lists of one length. */
  predicate Aligned(d: Dict) {
    || (!Has(d, KType) && !Has(d, KId) && !Has(d, KXyz))
    || (&& IsList(d, KType) && IsList(d, KId) && IsList(d, KXyz)
        && |Get(d, KType).items| == |Get(d, KId).items| == |Get(d, KXyz).items|)
  }

  /** The extra keys are all "atom:" keys. */
  predicate AtomOnly(xkeys: Option<seq<Key>>) {
    xkeys.Some? ==> forall i :: 0 <= i < |xkeys.value| ==> xkeys.value[i].KAtom?
  }

  predicate Fixed(k: Key) {
    k == KType || k == KId || k == KXyz
  }

  /** Setting any other key keeps the columns aligned. */
  lemma PutAligned(d: Dict, k: Key, v: Obj)
    requires Aligned(d) && !Fixed(k)
    ensures Aligned(Put(d, k, v))
  {
    PutFacts(d, k, v);
    var r := Put(d, k, v);
    assert Has(r, KType) ==> Has(d, KType);
    assert Has(r, KId) ==> Has(d, KId);
    assert Has(r, KXyz) ==> Has(d, KXyz);
  }

  /** So does storing a section's values. */
  lemma StoreAligned(d: Dict, k: Key, v: Obj, last: bool)
    requires Aligned(d) && !Fixed(k) && Store(d, k, v, last).Ok?
    ensures Aligned(Store(d, k, v, last).value)
  {
    if last && !Has(d, k) {
      PutAligned(d, k, v);
    } else {
      var r := if Has(d, k) then d else Put(d, k, OList([]));
      if !Has(d, k) {
        PutAligned(d, k, OList([]));
      }
      PutAligned(r, k, OList(Get(r, k).items + [v]));
    }
  }

  /** Empty extra columns leave the fixed keys alone. */
  lemma {:induction false} PutEmptyFrame(d: Dict, names: seq<string>)
    ensures var r := PutEmpty(d, names);
            forall k :: Fixed(k) ==> (Has(r, k) <==> Has(d, k)) && (Has(d, k) ==> Get(r, k) == Get(d, k))
    decreases |names|
  {
    if names != [] {
      var p := Put(d, KAtom(names[0]), OList([]));
      PutEmptyFrame(p, names[1..]);
      assert PutEmpty(d, names) == PutEmpty(p, names[1..]);
      forall k | Fixed(k) ensures (Has(p, k) <==> Has(d, k)) && (Has(d, k) ==> Get(p, k) == Get(d, k)) {
        PutAtomFixed(d, names[0], k);
      }
    }
  }

  /** An extra column's key is no fixed key. */
  lemma PutAtomFixed(d: Dict, name: string, k: Key)
    requires Fixed(k)
    ensures Has(Put(d, KAtom(name), OList([])), k) <==> Has(d, k)
    ensures Has(d, k) ==> Get(Put(d, KAtom(name), OList([])), k) == Get(d, k)
  {
    PutFacts(d, KAtom(name), OList([]));
  }

  /** The ATOMS header starts all three columns empty. */
  lemma AtomColumnsAligned(d: Dict, headings: seq<string>)
    ensures Aligned(AtomColumns(d, headings))
  {
    var r1 := Put(d, KType, OList([]));
    var r2 := Put(r1, KId, OList([]));
    var r := Put(r2, KXyz, OList([]));
    PutGet(d, KType, OList([]));
    PutGet(r1, KId, OList([]));
    PutGet(r2, KXyz, OList([]));
    PutOther(r1, KId, OList([]), KType);
    PutOther(r2, KXyz, OList([]), KType);
    PutOther(r2, KXyz, OList([]), KId);
    assert Aligned(r);
    if |headings| > 7 {
      PutEmptyFrame(r, headings[7..]);
    }
  }

  /** After `d[k] = v`, `d[k]` is `v`. */
  lemma PutGet(d: Dict, k: Key, v: Obj)
    ensures Has(Put(d, k, v), k) && Get(Put(d, k, v), k) == v
  {
    PutFacts(d, k, v);
  }

  /** Appending to extra columns leaves every other key alone. */
  lemma {:induction false} AddExtrasFrame(d: Dict, xkeys: seq<Key>, toks: seq<string>)
    requires AddExtras(d, xkeys, toks).Ok?
    ensures var r := AddExtras(d, xkeys, toks).value;
            && Keys(r) == Keys(d)
            && forall k :: k !in xkeys && Has(d, k) ==> Get(r, k) == Get(d, k)
    decreases |toks|
  {
    if toks != [] {
      var d' := AppendTo(d, xkeys[0], Eval(toks[0])).value;
      AppendToFacts(d, xkeys[0], Eval(toks[0]));
      AddExtrasFrame(d', xkeys[1..], toks[1..]);
      var r := AddExtras(d', xkeys[1..], toks[1..]).value;
      forall k | k !in xkeys && Has(d, k) ensures Get(r, k) == Get(d, k) {
        assert k !in xkeys[1..] && k != xkeys[0];
        assert Has(d', k) by { assert Keys(d') == Keys(d); }
      }
    }
  }

  /** An atom row grows each of the three columns by one. */
  lemma AddRowAligned(d: Dict, xkeys: Option<seq<Key>>, line: string)
    requires Aligned(d) && AtomOnly(xkeys) && AddRow(d, xkeys, line).Ok?
    ensures Aligned(AddRow(d, xkeys, line).value)
  {
    var vals := Split(line);
    AddRowSplit(d, xkeys, line);
    var r3 := RowFixed(d, vals).value;
    RowFixedAligned(d, vals);
    if |vals| > 5 && xkeys.Some? {
      ExtrasAligned(r3, xkeys.value, vals[5..]);
    }
  }

  /** The fixed part of a row grows all three columns by one. */
  lemma RowFixedAligned(d: Dict, vals: seq<string>)
    requires RowFixed(d, vals).Ok?
    ensures Aligned(d) ==> Aligned(RowFixed(d, vals).value)
  {
    RowFixedFacts(d, vals);
  }

  /** Appending to "atom:" columns keeps the fixed columns aligned. */
  lemma ExtrasAligned(d: Dict, xkeys: seq<Key>, toks: seq<string>)
    requires Aligned(d) && AtomOnly(Some(xkeys)) && AddExtras(d, xkeys, toks).Ok?
    ensures Aligned(AddExtras(d, xkeys, toks).value)
  {
    AddExtrasFrame(d, xkeys, toks);
    assert KType !in xkeys && KId !in xkeys && KXyz !in xkeys;
    var r := AddExtras(d, xkeys, toks).value;
    assert Has(r, KType) == Has(d, KType) && Has(r, KId) == Has(d, KId) && Has(r, KXyz) == Has(d, KXyz);
  }

  /** A data line stores under a section key, never a fixed one. */
  lemma DataLineAligned(cfg: Config, s: State, line: string)
    requires s.mode.Items? && |s.mode.stack| > 0 && Aligned(s.result)
    ensures var n := DataLine(cfg, s, line);
            && (n.Continue? ==> Aligned(n.next.result) && n.next.xkeys == s.xkeys)
            && (n.Stop? && n.outcome.Done? ==> Aligned(n.outcome.raw))
  {
    var vals := CastAll(s.mode.stack[|s.mode.stack| - 1], Split(line));
    if vals.Ok? {
      DataValuesAligned(cfg, s, Collapse(vals.value));
    }
  }

  lemma DataValuesAligned(cfg: Config, s: State, values: Obj)
    requires s.mode.Items? && |s.mode.stack| > 0 && Aligned(s.result)
    ensures var n := DataValues(cfg, s, values);
            && (n.Continue? ==> Aligned(n.next.result) && n.next.xkeys == s.xkeys)
            && (n.Stop? && n.outcome.Done? ==> Aligned(n.outcome.raw))
  {
    var verdict :=
      if s.mode.current == Time then CheckTime(values, cfg, s.index, s.timeskip, s.laststep)
      else Ok(Keep(s.index, s.timeskip, s.laststep));
    if verdict.Ok? && verdict.value.Keep? {
      StoreDataAligned(s, values, verdict.value.index, verdict.value.timeskip, verdict.value.laststep);
    }
  }

  lemma StoreDataAligned(s: State, values: Obj, index: Index, timeskip: bool, laststep: bool)
    requires s.mode.Items? && |s.mode.stack| > 0 && Aligned(s.result)
    ensures var n := StoreData(s, values, index, timeskip, laststep);
            && (n.Continue? ==> Aligned(n.next.result) && n.next.xkeys == s.xkeys)
            && (n.Stop? && n.outcome.Done? ==> Aligned(n.outcome.raw))
  {
    var last := |s.mode.stack[..|s.mode.stack| - 1]| == 0;
    var key := SectionKey(s.mode.current);
    if Store(s.result, key, values, last).Ok? {
      StoreAligned(s.result, key, values, last);
    }
  }

  /** A header line keeps the columns aligned; an ATOMS header restarts
      them and records "atom:" keys only. */
  lemma HeaderLineAligned(s: State, line: string)
    requires s.mode.Items? && Aligned(s.result) && AtomOnly(s.xkeys)
    ensures var n := HeaderLine(s, line);
            && (n.Continue? ==> Aligned(n.next.result) && AtomOnly(n.next.xkeys))
            && (n.Stop? && n.outcome.Done? ==> Aligned(n.outcome.raw))
  {
    if !Contains(line, TimestepHeader) && !s.timeskip && !Contains(line, NumberHeader) {
      if Contains(line, BoxHeader) {
        PutAligned(s.result, KPeriodic, OList(Strs(PeriodicTokens(line))));
      } else if Contains(line, AtomsHeader) {
        AtomColumnsAligned(s.result, Split(line));
      }
    }
  }

  /** One turn of the loop keeps the columns aligned. */
  lemma StepAligned(cfg: Config, s: State, line: string)
    requires Aligned(s.result) && AtomOnly(s.xkeys)
    ensures var n := Step(cfg, s, line);
            && (n.Continue? ==> Aligned(n.next.result) && AtomOnly(n.next.xkeys))
            && (n.Stop? && n.outcome.Done? ==> Aligned(n.outcome.raw))
  {
    if s.mode.Items? && |s.mode.stack| > 0 {
      DataLineAligned(cfg, s, line);
    } else if s.mode.AtomRows? {
      if !Contains(line, "ITEM") && AddRow(s.result, s.xkeys, line).Ok? {
        AddRowAligned(s.result, s.xkeys, line);
      }
    } else {
      HeaderLineAligned(s, line);
    }
  }

  /** Whatever `_read` returns has `type`, `id` and `xyz` all absent, or
      all lists of one length: each atom row adds one entry to each. */
  lemma {:induction false} RunAligned(lines: seq<string>, cfg: Config, s: State)
    requires Aligned(s.result) && AtomOnly(s.xkeys)
    ensures var o := Run(lines, cfg, s); o.Done? ==> Aligned(o.raw)
    decreases |lines| - s.pos
  {
    if s.pos < |lines| {
      StepAligned(cfg, s, lines[s.pos]);
      match Step(cfg, s, lines[s.pos])
      case Continue(s') => RunAligned(lines, cfg, s');
      case Stop(o) =>
    }
  }

  /** `_read` from the start. */
  lemma ReadAligned(lines: seq<string>, cfg: Config, cursor: nat, index: Index)
    ensures var o := Read(lines, cfg, cursor, index); o.Done? ==> Aligned(o.raw)
  {
    var empty: Dict := [];
    assert Keys(empty) == [];
    RunAligned(lines, cfg, Start(cursor, index));
  }
}
