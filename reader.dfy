/** `Timestep._read`: the line-driven state machine that reads one timestep
    from a dump file. The file is its sequence of lines (without their
    newlines) and the file cursor is a line number, so `f.tell()` is the
    number of the next line and `f.seek(p)` sets it back.

    `Step` is one turn of the source's `while` loop and `Run` the whole
    loop; `ReadStep` is the loop written out imperatively and is proved to
    compute `Run`. */
module Reader {
  import opened Text
  import opened Dicts
  import opened Raw

  const TimestepHeader := "ITEM: TIMESTEP"
  const NumberHeader := "ITEM: NUMBER OF ATOMS"
  const BoxHeader := "ITEM: BOX BOUNDS"
  const AtomsHeader := "ITEM: ATOMS"

  /** The section a data line belongs to (`current`). */
  datatype Section = NoSection | Time | NAtoms | BoxSec

  /** The dict key a section's values are stored under. `current` starts
      as `None`, so a value stored before any header would go under `None`. */
  function SectionKey(sec: Section): Key {
    match sec
    case NoSection => KNone
    case Time => KTime
    case NAtoms => KNAtoms
    case BoxSec => KBox
  }

  /** `itemstack` and `current` together: a stack of casts for the data
      lines still expected, or `None` while reading atom rows. */
  datatype Mode = Items(stack: seq<seq<Cast>>, current: Section) | AtomRows

  /** The loop's variables. `index` is the timestep's `self.index`. */
  datatype State = State(
    mode: Mode,
    result: Dict,
    xkeys: Option<seq<Key>>,
    timeskip: bool,
    laststep: bool,
    index: Index,
    pos: nat)

  /** How the reader was called: whether the file is an open file shared
      with the caller (`openf is not None`), and the step filter. */
  datatype Config = Config(shared: bool, stepfilter: Option<set<int>>)

  /** What `_read` returns: the dict with the timestep's index and the
      file position afterwards, or the exception it raised. */
  datatype Outcome = Done(raw: Dict, index: Index, pos: nat) | Failed(error: Error)

  datatype Next = Continue(next: State) | Stop(outcome: Outcome)

  function Start(cursor: nat, index: Index): State {
    State(Items([], NoSection), [], None, false, false, index, cursor)
  }

  // ---------------------------------------------------------------------
  // Pieces of one turn of the loop

  /** What the TIMESTEP check decides. */
  datatype Verdict = Keep(index: Index, timeskip: bool, laststep: bool) | GiveUp

  /** `values in stepfilter` for a list of integers. */
  predicate InFilter(values: Obj, filter: set<int>) {
    values.OInt? && values.i in filter
  }

  /** Lines 287-301: the TIMESTEP value against the filter and the target
      index. `GiveUp` is the early `return {}` on a private file. Without a
      target index the value becomes the index, whatever it is: a line
      without tokens makes it the empty list. A value that differs from
      the target is ordered against it by Python's `>` (`Raw.Greater`),
      which raises on an integer against a list. */
  function CheckTime(values: Obj, cfg: Config, index: Index, timeskip: bool, laststep: bool): Result<Verdict> {
    if cfg.stepfilter.Some? && !InFilter(values, cfg.stepfilter.value) then
      Ok(Keep(index, true, laststep))
    else if index.Some? && values != index.value then
      match Greater(values, index.value)
      case Err(e) => Err(e)
      case Ok(later) =>
        if later then
          if !cfg.shared then Ok(GiveUp) else Ok(Keep(index, true, true))
        else Ok(Keep(index, true, laststep))
    else if index.None? then Ok(Keep(Some(values), timeskip, laststep))
    else Ok(Keep(index, false, laststep))
  }

  /** Lines 303-308: the last value of a section is stored as it is unless
      the key is already there; otherwise the values are appended to a
      list under the key. */
  function Store(result: Dict, key: Key, values: Obj, last: bool): Result<Dict> {
    if last && !Has(result, key) then Ok(Put(result, key, values))
    else
      var r := if Has(result, key) then result else Put(result, key, OList([]));
      Append(r, key, values)
  }

  /** `result[key].append(v)`, failing with a KeyError when absent. */
  function AppendTo(d: Dict, k: Key, v: Obj): Result<Dict> {
    if Has(d, k) then Append(d, k, v) else Err(MissingKey(k))
  }

  /** Lines 325-326: token `ikey` of the row's tail is evaluated and
      appended to the column of extra key `ikey`. */
  function AddExtras(d: Dict, xkeys: seq<Key>, toks: seq<string>): Result<Dict>
    decreases |toks|
  {
    if toks == [] then Ok(d)
    else if |xkeys| == 0 then Err(TooManyFields)
    else
      match AppendTo(d, xkeys[0], Eval(toks[0]))
      case Err(e) => Err(e)
      case Ok(d') => AddExtras(d', xkeys[1..], toks[1..])
  }

  /** Lines 318-326: one atom row appended to the columns. */
  function AddRow(result: Dict, xkeys: Option<seq<Key>>, line: string): Result<Dict> {
    var vals := Split(line);
    match CastAll([ToInt, ToInt], vals)
    case Err(e) => Err(e)
    case Ok(ids) =>
      if |ids| < 2 then Err(ShortRow)
      else
        match AppendTo(result, KType, ids[1])
        case Err(e) => Err(e)
        case Ok(r1) =>
          match AppendTo(r1, KId, ids[0])
          case Err(e) => Err(e)
          case Ok(r2) =>
            match CastAll([ToFloat, ToFloat, ToFloat], vals[2..])
            case Err(e) => Err(e)
            case Ok(xyz) =>
              if |xyz| < 3 then Err(ShortRow)
              else
                match AppendTo(r2, KXyz, OList(xyz))
                case Err(e) => Err(e)
                case Ok(r3) =>
                  if |vals| > 5 && xkeys.Some? then AddExtras(r3, xkeys.value, vals[5..])
                  else Ok(r3)
  }

  /** Lines 341-345: the periodicity tokens after "BOX BOUNDS", or three
      "ss" when there are none. */
  function PeriodicTokens(line: string): seq<string> {
    var period := SplitOn(Strip(line), "BOX BOUNDS");
    if |period| == 2 && period[1] != "" then Split(Strip(period[1]))
    else ["ss", "ss", "ss"]
  }

  function Strs(ws: seq<string>): (os: seq<Obj>)
    ensures |os| == |ws| && forall i :: 0 <= i < |ws| ==> os[i] == OStr(ws[i])
  {
    if ws == [] then [] else [OStr(ws[0])] + Strs(ws[1..])
  }

  /** Lines 351-365: the empty core columns, then one empty column per
      heading after the seventh, in order. */
  function AtomColumns(result: Dict, headings: seq<string>): Dict {
    var r := Put(Put(Put(result, KType, OList([])), KId, OList([])), KXyz, OList([]));
    if |headings| > 7 then PutEmpty(r, headings[7..]) else r
  }

  function PutEmpty(d: Dict, names: seq<string>): Dict
    decreases |names|
  {
    if names == [] then d else PutEmpty(Put(d, KAtom(names[0]), OList([])), names[1..])
  }

  function AtomKeys(names: seq<string>): (ks: seq<Key>)
    ensures |ks| == |names| && forall i :: 0 <= i < |names| ==> ks[i] == KAtom(names[i])
  {
    if names == [] then [] else [KAtom(names[0])] + AtomKeys(names[1..])
  }

  // ---------------------------------------------------------------------
  // One turn of the loop

  /** A data line (lines 279-309): pop the casts, cast the tokens, check a
      TIMESTEP value, store. */
  function DataLine(cfg: Config, s: State, line: string): Next
    requires s.mode.Items? && |s.mode.stack| > 0
  {
    match CastAll(s.mode.stack[|s.mode.stack| - 1], Split(line))
    case Err(e) => Stop(Failed(e))
    case Ok(vals) => DataValues(cfg, s, Collapse(vals))
  }

  /** Lines 286-301: the cast values of a data line, checked when they
      are a TIMESTEP value. */
  function DataValues(cfg: Config, s: State, values: Obj): Next
    requires s.mode.Items? && |s.mode.stack| > 0
  {
    var verdict :=
      if s.mode.current == Time then CheckTime(values, cfg, s.index, s.timeskip, s.laststep)
      else Ok(Keep(s.index, s.timeskip, s.laststep));
    match verdict
    case Err(e) => Stop(Failed(e))
    case Ok(GiveUp) => Stop(Done([], s.index, s.pos + 1))
    case Ok(Keep(index, timeskip, laststep)) => StoreData(s, values, index, timeskip, laststep)
  }

  /** Lines 303-309: the values stored under the section's key; the cast they
      used leaves the stack. */
  function StoreData(s: State, values: Obj, index: Index, timeskip: bool, laststep: bool): Next
    requires s.mode.Items? && |s.mode.stack| > 0
  {
    var rest := s.mode.stack[..|s.mode.stack| - 1];
    match Store(s.result, SectionKey(s.mode.current), values, |rest| == 0)
    case Err(e) => Stop(Failed(e))
    case Ok(r) => Continue(State(Items(rest, s.mode.current), r, s.xkeys, timeskip, laststep, index, s.pos + 1))
  }

  /** A line outside data (lines 329-365): a section header, or a line
      ignored. */
  function HeaderLine(s: State, line: string): Next
    requires s.mode.Items?
  {
    var s' := s.(pos := s.pos + 1);
    if Contains(line, TimestepHeader) then
      if s.laststep then Stop(Done(s.result, s.index, s.pos))
      else Continue(s'.(mode := Items(s.mode.stack + [[ToInt]], Time), timeskip := false))
    else if s.timeskip then Continue(s')
    else if Contains(line, NumberHeader) then
      Continue(s'.(mode := Items(s.mode.stack + [[ToInt]], NAtoms)))
    else if Contains(line, BoxHeader) then
      Continue(s'.(mode := Items(s.mode.stack + [[ToFloat, ToFloat], [ToFloat, ToFloat], [ToFloat, ToFloat]], BoxSec),
                   result := Put(s.result, KPeriodic, OList(Strs(PeriodicTokens(line))))))
    else if Contains(line, AtomsHeader) then
      var headings := Split(line);
      Continue(s'.(mode := AtomRows,
                   result := AtomColumns(s.result, headings),
                   xkeys := if |headings| > 7 then Some(AtomKeys(headings[7..])) else s.xkeys))
    else Continue(s')
  }

  /** One turn of the `while` loop on the line under the cursor. */
  function Step(cfg: Config, s: State, line: string): (n: Next)
    ensures n.Continue? ==> n.next.pos == s.pos + 1
    ensures n.Stop? && n.outcome.Done? ==> s.pos <= n.outcome.pos <= s.pos + 1
  {
    if s.mode.Items? && |s.mode.stack| > 0 then DataLine(cfg, s, line)
    else if s.mode.AtomRows? then
      if Contains(line, "ITEM") then Stop(Done(s.result, s.index, if cfg.shared then s.pos else s.pos + 1))
      else
        match AddRow(s.result, s.xkeys, line)
        case Err(e) => Stop(Failed(e))
        case Ok(r) => Continue(s.(result := r, pos := s.pos + 1))
    else HeaderLine(s, line)
  }

  /** The whole loop, from state `s` to the end of the file or a `break`. */
  function Run(lines: seq<string>, cfg: Config, s: State): Outcome
    decreases |lines| - s.pos
  {
    if s.pos >= |lines| then Done(s.result, s.index, s.pos)
    else
      match Step(cfg, s, lines[s.pos])
      case Continue(s') => Run(lines, cfg, s')
      case Stop(o) => o
  }

  /** `_read` called with the cursor at `cursor` and `self.index == index`. */
  function Read(lines: seq<string>, cfg: Config, cursor: nat, index: Index): Outcome {
    Run(lines, cfg, Start(cursor, index))
  }

  // ---------------------------------------------------------------------
  // The loop itself

  /** `Timestep._read`: the `while` loop over `readline`. Each turn reads
      the line under the cursor; the loop ends at the end of the file, on
      the early `return {}` or an exception, or at a `break` (after the
      `seek` back to the line just read). */
  method ReadStep(lines: seq<string>, cfg: Config, cursor: nat, index0: Index) returns (o: Outcome)
    ensures o == Read(lines, cfg, cursor, index0)
  {
    var s := Start(cursor, index0);
    while s.pos < |lines|
      invariant Run(lines, cfg, s) == Read(lines, cfg, cursor, index0)
      decreases |lines| - s.pos
    {
      var n := Turn(cfg, s, lines[s.pos]);
      match n
      case Stop(out) =>
        return out;
      case Continue(next) =>
        s := next;
    }
    return Done(s.result, s.index, s.pos);
  }

  /** One turn of the loop: a data line while casts are pending (line 279),
      an atom row or the `break` at the next item line (lines 310-327),
      otherwise a header (lines 329-365). */
  method Turn(cfg: Config, s: State, line: string) returns (n: Next)
    ensures n == Step(cfg, s, line)
  {
    if s.mode.Items? && |s.mode.stack| > 0 {
      n := ReadData(cfg, s, line);
    } else if s.mode.AtomRows? {
      if Contains(line, "ITEM") {
        return Stop(Done(s.result, s.index, if cfg.shared then s.pos else s.pos + 1));
      }
      n := ReadRow(s, line);
    } else {
      n := ReadHeader(s, line);
    }
  }

  /** Lines 279-309: a data line of the current section. */
  method ReadData(cfg: Config, s: State, line: string) returns (n: Next)
    requires s.mode.Items? && |s.mode.stack| > 0
    ensures n == DataLine(cfg, s, line)
  {
    var cast := s.mode.stack[|s.mode.stack| - 1];
    var stack := s.mode.stack[..|s.mode.stack| - 1];
    var cast' := CastAll(cast, Split(line));
    if cast'.Err? {
      return Stop(Failed(cast'.error));
    }
    var values := Collapse(cast'.value);
    var verdict := Ok(Keep(s.index, s.timeskip, s.laststep));
    if s.mode.current == Time {
      verdict := TimeTurn(values, cfg, s.index, s.timeskip, s.laststep);
    }
    if verdict.Err? {
      return Stop(Failed(verdict.error));
    }
    if verdict.value.GiveUp? {
      return Stop(Done([], s.index, s.pos + 1));
    }
    var index, timeskip, laststep := verdict.value.index, verdict.value.timeskip, verdict.value.laststep;
    var stored := StoreValues(s.result, SectionKey(s.mode.current), values, |stack| == 0);
    if stored.Err? {
      return Stop(Failed(stored.error));
    }
    var result := stored.value;
    return Continue(State(Items(stack, s.mode.current), result, s.xkeys, timeskip, laststep, index, s.pos + 1));
  }

  /** Lines 316-327: an atom row appended to the columns. */
  method ReadRow(s: State, line: string) returns (n: Next)
    ensures n == match AddRow(s.result, s.xkeys, line)
                 case Err(e) => Stop(Failed(e))
                 case Ok(r) => Continue(s.(result := r, pos := s.pos + 1))
  {
    var vals := Split(line);
    var ids := CastAll([ToInt, ToInt], vals);
    if ids.Err? {
      return Stop(Failed(ids.error));
    }
    if |ids.value| < 2 {
      return Stop(Failed(ShortRow));
    }
    var step := AppendTo(s.result, KType, ids.value[1]);
    if step.Err? {
      return Stop(Failed(step.error));
    }
    step := AppendTo(step.value, KId, ids.value[0]);
    if step.Err? {
      return Stop(Failed(step.error));
    }
    var result := step.value;
    var xyz := CastAll([ToFloat, ToFloat, ToFloat], vals[2..]);
    if xyz.Err? {
      return Stop(Failed(xyz.error));
    }
    if |xyz.value| < 3 {
      return Stop(Failed(ShortRow));
    }
    step := AppendTo(result, KXyz, OList(xyz.value));
    if step.Err? {
      return Stop(Failed(step.error));
    }
    result := step.value;
    if |vals| > 5 && s.xkeys.Some? {
      step := AppendExtras(result, s.xkeys.value, vals[5..]);
      if step.Err? {
        return Stop(Failed(step.error));
      }
      result := step.value;
    }
    return Continue(s.(result := result, pos := s.pos + 1));
  }

  /** Lines 329-365: a section header, or a line that is ignored. */
  method ReadHeader(s: State, line: string) returns (n: Next)
    requires s.mode.Items?
    ensures n == HeaderLine(s, line)
  {
    var mode, result, xkeys, timeskip := s.mode, s.result, s.xkeys, s.timeskip;
    if Contains(line, TimestepHeader) {
      if s.laststep {
        return Stop(Done(result, s.index, s.pos));
      }
      mode := Items(mode.stack + [[ToInt]], Time);
      timeskip := false;
    } else if !timeskip {
      if Contains(line, NumberHeader) {
        mode := Items(mode.stack + [[ToInt]], NAtoms);
      } else if Contains(line, BoxHeader) {
        result := Put(result, KPeriodic, OList(Strs(PeriodicTokens(line))));
        mode := Items(mode.stack + [[ToFloat, ToFloat], [ToFloat, ToFloat], [ToFloat, ToFloat]], BoxSec);
      } else if Contains(line, AtomsHeader) {
        mode := AtomRows;
        result := Put(Put(Put(result, KType, OList([])), KId, OList([])), KXyz, OList([]));
        var headings := Split(line);
        if |headings| > 7 {
          var keys;
          result, keys := AddColumns(result, headings[7..]);
          xkeys := Some(keys);
        }
      }
    }
    return Continue(State(mode, result, xkeys, timeskip, s.laststep, s.index, s.pos + 1));
  }

  /** Lines 360-365: an empty column and a key for each extra heading. */
  method AddColumns(d: Dict, names: seq<string>) returns (r: Dict, keys: seq<Key>)
    ensures r == PutEmpty(d, names)
    ensures keys == AtomKeys(names)
  {
    r, keys := d, [];
    var i := 0;
    while i < |names|
      invariant 0 <= i <= |names|
      invariant PutEmpty(r, names[i..]) == PutEmpty(d, names)
      invariant |keys| == i && forall j :: 0 <= j < i ==> keys[j] == KAtom(names[j])
    {
      assert names[i..][1..] == names[i + 1..];
      r := Put(r, KAtom(names[i]), OList([]));
      keys := keys + [KAtom(names[i])];
      i := i + 1;
    }
  }

  /** Lines 325-326: `for ikey, v in enumerate(toks)`, appending the
      evaluated token to the column of `xkeys[ikey]`. */
  method AppendExtras(d: Dict, xkeys: seq<Key>, toks: seq<string>) returns (r: Result<Dict>)
    ensures r == AddExtras(d, xkeys, toks)
  {
    var result := d;
    var ikey := 0;
    while ikey < |toks|
      invariant 0 <= ikey <= |toks| && ikey <= |xkeys|
      invariant AddExtras(result, xkeys[ikey..], toks[ikey..]) == AddExtras(d, xkeys, toks)
    {
      if ikey >= |xkeys| {
        return Err(TooManyFields);
      }
      var step := AppendTo(result, xkeys[ikey], Eval(toks[ikey]));
      if step.Err? {
        return Err(step.error);
      }
      assert xkeys[ikey..][1..] == xkeys[ikey + 1..];
      assert toks[ikey..][1..] == toks[ikey + 1..];
      result := step.value;
      ikey := ikey + 1;
    }
    return Ok(result);
  }

  /** Lines 286-301: the TIMESTEP value checked against the filter first
      and the target index second. */
  method TimeTurn(values: Obj, cfg: Config, index: Index, timeskip: bool, laststep: bool)
    returns (v: Result<Verdict>)
    ensures v == CheckTime(values, cfg, index, timeskip, laststep)
  {
    var idx, skip, last := index, timeskip, laststep;
    if cfg.stepfilter.Some? && !InFilter(values, cfg.stepfilter.value) {
      skip := true;
    } else if idx.Some? && values != idx.value {
      var later := Greater(values, idx.value);
      if later.Err? {
        return Err(later.error);
      }
      if later.value {
        if !cfg.shared {
          return Ok(GiveUp);
        }
        skip, last := true, true;
      } else {
        skip := true;
      }
    } else if idx.None? {
      idx := Some(values);
    } else {
      skip := false;
    }
    return Ok(Keep(idx, skip, last));
  }

  /** Lines 303-308: store the values under the section's key. */
  method StoreValues(d: Dict, key: Key, values: Obj, last: bool) returns (r: Result<Dict>)
    ensures r == Store(d, key, values, last)
  {
    var result := d;
    if last && !Has(result, key) {
      result := Put(result, key, values);
    } else {
      if !Has(result, key) {
        result := Put(result, key, OList([]));
      }
      var appended := Append(result, key, values);
      if appended.Err? {
        return Err(appended.error);
      }
      result := appended.value;
    }
    return Ok(result);
  }
}
