/** `Dump`: every timestep of a dump file, read one after another from a
    shared file, kept in a dict keyed by timestep index; and writing them
    all back. */
module Dumps {
  import opened Text
  import opened Dicts
  import opened Raw
  import opened Reader
  import opened ReaderFacts
  import opened Timesteps
  import opened Writer

  /** `self.steps`, in insertion order. */
  type Steps = seq<(Index, Timestep)>

  /** On a shared file, a timestep with atoms moved the cursor forward. */
  lemma LoadAdvances(lines: seq<string>, cursor: nat, stepfilter: Option<set<int>>)
    ensures var r := Load(lines, None, Some(cursor), stepfilter);
            r.Ok? && Len(r.value.step) > 0 ==> cursor < r.value.pos <= |lines|
  {
    ReadAdvances(lines, ConfigOf(Some(cursor), stepfilter), cursor, None);
  }

  /** Lines 24-28 from cursor `cursor` on, with the steps read so far. */
  function ReadFrom(lines: seq<string>, stepfilter: Option<set<int>>, cursor: nat, acc: Steps): Result<Steps>
    decreases |lines| - cursor
  {
    match Load(lines, None, Some(cursor), stepfilter)
    case Err(e) => Err(e)
    case Ok(Loaded(t, pos)) =>
      if Len(t) == 0 then Ok(acc)
      else if t.index.Some? && t.index.value.OList? then Err(Unhashable)
      else
        LoadAdvances(lines, cursor, stepfilter);
        ReadFrom(lines, stepfilter, pos, Put(acc, t.index, t))
  }

  /** `Dump(filepath, stepfilter).steps`: timesteps are read until one has
      no atoms; each is stored under its index, and an index read from a
      TIMESTEP line without tokens is a list, which cannot be a key. */
  function ReadAll(lines: seq<string>, stepfilter: Option<set<int>>): Result<Steps> {
    ReadFrom(lines, stepfilter, 0, [])
  }

  /** The dicts that `ReadFrom` builds keep their keys unique. */
  lemma {:induction false} ReadFromUnique(lines: seq<string>, stepfilter: Option<set<int>>, cursor: nat, acc: Steps)
    requires UniqueKeys(acc)
    ensures var r := ReadFrom(lines, stepfilter, cursor, acc); r.Ok? ==> UniqueKeys(r.value)
    decreases |lines| - cursor
  {
    match Load(lines, None, Some(cursor), stepfilter)
    case Err(e) =>
    case Ok(Loaded(t, pos)) =>
      if Len(t) > 0 && !(t.index.Some? && t.index.value.OList?) {
        LoadAdvances(lines, cursor, stepfilter);
        PutUnique(acc, t.index, t);
        ReadFromUnique(lines, stepfilter, pos, Put(acc, t.index, t));
      }
  }

  /** A file whose last two lines are a TIMESTEP header and a line without
      tokens ends the dump there without raising: the index becomes the
      empty list, and the timestep read has no atoms. */
  lemma BlankTimeEnds(lines: seq<string>, cursor: nat, acc: Steps)
    requires cursor + 2 == |lines| && Contains(lines[cursor], TimestepHeader) && Split(lines[cursor + 1]) == []
    ensures ReadFrom(lines, None, cursor, acc) == Ok(acc)
  {
    BlankTime(lines, ConfigOf(Some(cursor), None), cursor);
  }

  /** Every timestep kept has atoms and is stored under its own index. */
  predicate Stored(steps: Steps) {
    forall i :: 0 <= i < |steps| ==> Len(steps[i].1) > 0 && steps[i].0 == steps[i].1.index
  }

  lemma {:induction false} ReadFromStored(lines: seq<string>, stepfilter: Option<set<int>>, cursor: nat, acc: Steps)
    requires Stored(acc)
    ensures var r := ReadFrom(lines, stepfilter, cursor, acc); r.Ok? ==> Stored(r.value)
    decreases |lines| - cursor
  {
    match Load(lines, None, Some(cursor), stepfilter)
    case Err(e) =>
    case Ok(Loaded(t, pos)) =>
      if Len(t) > 0 && !(t.index.Some? && t.index.value.OList?) {
        LoadAdvances(lines, cursor, stepfilter);
        PutStored(acc, t);
        ReadFromStored(lines, stepfilter, pos, Put(acc, t.index, t));
      }
  }

  /** `steps[t.index] = t` for a timestep with atoms keeps `Stored`. */
  lemma PutStored(acc: Steps, t: Timestep)
    requires Stored(acc) && Len(t) > 0
    ensures Stored(Put(acc, t.index, t))
  {
    var acc' := Put(acc, t.index, t);
    PutFacts(acc, t.index, t);
    forall i | 0 <= i < |acc'| ensures Len(acc'[i].1) > 0 && acc'[i].0 == acc'[i].1.index {
      if Has(acc, t.index) {
        assert acc'[i] == acc[i] || acc'[i] == (t.index, t);
      } else {
        assert i < |acc| ==> acc'[i] == acc[i];
      }
    }
  }

  /** `a == b for a, b in zip(self, other)`: the items paired up by
      position agree in index and by `Timestep.__eq__`, over the shorter
      of the two dumps. */
  predicate ZipEq(a: Steps, b: Steps)
  {
    a == [] || b == [] || (a[0].0 == b[0].0 && Eq(a[0].1, b[0].1) && ZipEq(a[1..], b[1..]))
  }

  /** `Dump.__eq__` compares the pairs at equal positions, and only as far
      as the shorter dump goes. */
  lemma {:induction false} ZipEqPairs(a: Steps, b: Steps)
    ensures ZipEq(a, b) <==> forall i :: 0 <= i < |a| && i < |b| ==> a[i].0 == b[i].0 && Eq(a[i].1, b[i].1)
  {
    if a != [] && b != [] {
      ZipEqPairs(a[1..], b[1..]);
      assert forall i :: 1 <= i < |a| && i < |b| ==> a[1..][i - 1] == a[i] && b[1..][i - 1] == b[i];
    }
  }

  /** Writing the steps one after another, stopping at the first that
      raises. */
  function WriteAll(steps: Steps, prior: seq<string>): Written {
    if steps == [] then Written(prior, None)
    else
      var w := StepText(steps[0].1);
      if w.error.Some? then Written(prior + w.lines, w.error)
      else WriteAll(steps[1..], prior + w.lines)
  }

  /** Every step's text, one after another. */
  function AllText(steps: Steps): seq<string> {
    if steps == [] then [] else StepText(steps[0].1).lines + AllText(steps[1..])
  }

  predicate WritesClean(steps: Steps) {
    forall i :: 0 <= i < |steps| ==> StepText(steps[i].1).error.None?
  }

  /** A clean run of steps starts with a step that writes cleanly and
      goes on with a clean run. */
  lemma CleanTail(steps: Steps)
    requires |steps| > 0 && WritesClean(steps)
    ensures StepText(steps[0].1).error.None? && WritesClean(steps[1..])
  {
    var rest := steps[1..];
    forall i | 0 <= i < |rest| ensures StepText(rest[i].1).error.None? {
      assert rest[i] == steps[i + 1];
    }
  }

  /** When no timestep raises, the file gains every step's text in order
      and nothing is raised. */
  lemma {:induction false} WriteAllClean(steps: Steps, prior: seq<string>)
    requires WritesClean(steps)
    ensures WriteAll(steps, prior) == Written(prior + AllText(steps), None)
  {
    if steps != [] {
      var w := StepText(steps[0].1);
      CleanTail(steps);
      WriteAllClean(steps[1..], prior + w.lines);
      assert prior + w.lines + AllText(steps[1..]) == prior + AllText(steps);
    }
  }

  /** When step `k` is the first to raise, the file gains the texts of
      steps `0..k`, the partial text step `k` wrote, and step `k`'s error
      is raised. */
  lemma {:induction false} WriteAllStops(steps: Steps, prior: seq<string>, k: nat)
    requires k < |steps| && WritesClean(steps[..k]) && StepText(steps[k].1).error.Some?
    ensures WriteAll(steps, prior) == Written(prior + AllText(steps[..k + 1]), StepText(steps[k].1).error)
  {
    var w := StepText(steps[0].1);
    var head := steps[..k + 1];
    assert head[0] == steps[0];
    if k == 0 {
      assert AllText(head) == w.lines + AllText(head[1..]);
      assert head[1..] == [];
    } else {
      var rest := steps[1..];
      CleanTail(steps[..k]);
      assert steps[..k][0] == steps[0];
      assert steps[..k][1..] == rest[..k - 1];
      assert rest[k - 1] == steps[k];
      WriteAllStops(rest, prior + w.lines, k - 1);
      assert head[1..] == rest[..k];
      assert AllText(head) == w.lines + AllText(rest[..k]);
      assert prior + w.lines + AllText(rest[..k]) == prior + AllText(head);
    }
  }

  /** The key an integer timestep index is stored under. */
  function KeyOf(ts: Option<int>): Index {
    if ts.None? then None else Some(OInt(ts.value))
  }

  class Dump {
    var steps: Steps

    /** The keys of `steps` are unique, and every step has atoms and is
        stored under its own index. */
    predicate Valid()
      reads this
    {
      UniqueKeys(steps) && Stored(steps)
    }

    constructor Empty()
      ensures steps == [] && Valid()
    {
      steps := [];
    }

    /** The timestep indices present. */
    function Indices(): set<Index>
      reads this
    {
      set i | 0 <= i < |steps| :: steps[i].0
    }

    /** `len(dump)`: the number of distinct indices. */
    function Count(): (n: nat)
      reads this
      requires Valid()
      ensures n == |Indices()|
    {
      DistinctCount(steps);
      |steps|
    }

    /** `ts in dump`. */
    predicate Contains(ts: Option<int>)
      reads this
    {
      Has(steps, KeyOf(ts))
    }

    /** `dump[ts]`: the timestep stored under `ts`, or a KeyError. */
    function At(ts: Option<int>): (r: Result<Timestep>)
      reads this
      requires Valid()
      ensures r.Ok? <==> KeyOf(ts) in Indices()
      ensures r.Ok? ==> exists i :: 0 <= i < |steps| && steps[i] == (KeyOf(ts), r.value)
    {
      var k := KeyOf(ts);
      HasPair(steps, k);
      if Has(steps, k) then
        var i := Slot(steps, k);
        assert steps[i] == (k, Get(steps, k));
        Ok(Get(steps, k))
      else Err(NoStep(ts))
    }

    /** `self == other`. */
    predicate Equals(other: Dump)
      reads this, other
    {
      ZipEq(steps, other.steps)
    }

    /** `dump.dump(filename, mode)`: with mode 'w' the file is emptied
        first; each timestep is then appended in order. */
    method Write(prior: seq<string>, mode: OpenMode) returns (file: seq<string>, err: Option<Error>)
      ensures Written(file, err) == WriteAll(steps, Opened(prior, mode))
    {
      file := Opened(prior, mode);
      var i := 0;
      while i < |steps|
        invariant 0 <= i <= |steps|
        invariant WriteAll(steps[i..], file) == WriteAll(steps, Opened(prior, mode))
      {
        assert steps[i..][1..] == steps[i + 1..];
        var e;
        file, e := WriteStep(steps[i].1, file, AppendMode);
        if e.Some? {
          return file, e;
        }
        i := i + 1;
      }
      return file, None;
    }
  }

  /** Keys that are unique count as many as there are pairs. */
  lemma {:induction false} DistinctCount<K, V>(d: seq<(K, V)>)
    requires UniqueKeys(d)
    ensures |set i | 0 <= i < |d| :: d[i].0| == |d|
  {
    if d != [] {
      var rest := d[..|d| - 1];
      DistinctCount(rest);
      var s := set i | 0 <= i < |d| :: d[i].0;
      var s' := set i | 0 <= i < |rest| :: rest[i].0;
      assert s == s' + {d[|d| - 1].0};
      assert d[|d| - 1].0 !in s';
    }
  }

  /** `Dump(filepath, stepfilter)`: the timesteps of the file, or the
      exception one of them raised. */
  method Open(lines: seq<string>, stepfilter: Option<set<int>>) returns (r: Result<Dump>)
    ensures r.Ok? <==> ReadAll(lines, stepfilter).Ok?
    ensures r.Ok? ==> fresh(r.value) && r.value.steps == ReadAll(lines, stepfilter).value && r.value.Valid()
    ensures r.Err? ==> r.error == ReadAll(lines, stepfilter).error
  {
    var d := new Dump.Empty();
    var cursor := 0;
    var t := Init(lines, None, Some(cursor), stepfilter);
    if t.Err? {
      return Err(t.error);
    }
    while Len(t.value.step) > 0
      invariant cursor <= |lines|
      invariant t == Load(lines, None, Some(cursor), stepfilter) && t.Ok?
      invariant ReadFrom(lines, stepfilter, cursor, d.steps) == ReadAll(lines, stepfilter)
      invariant fresh(d) && d.Valid()
      decreases |lines| - cursor
    {
      LoadAdvances(lines, cursor, stepfilter);
      var step := t.value.step;
      if step.index.Some? && step.index.value.OList? {
        return Err(Unhashable);
      }
      PutUnique(d.steps, step.index, step);
      PutStored(d.steps, step);
      d.steps := Put(d.steps, step.index, step);
      cursor := t.value.pos;
      t := Init(lines, None, Some(cursor), stepfilter);
      if t.Err? {
        return Err(t.error);
      }
    }
    return Ok(d);
  }
}
