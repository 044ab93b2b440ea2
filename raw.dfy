/** The values the reader produces before a timestep is built: the Python
    objects stored in the `result` dict of `Timestep._read`, the dict
    itself (insertion-ordered, as Python dicts are), the casts applied to
    data lines, and the errors the source raises along the way. */
module Raw {
  import opened Text
  import opened Dicts

  /** Text of a number that `float()` accepts. Float values are kept as
      the token they were read from; nothing here does floating-point
      arithmetic. */
  type FloatText = s: string | IsFloatLit(s) witness "0"

  /** The Python objects that end up in the `result` dict. */
  datatype Obj =
    | OInt(i: int)             // an `int`
    | OFloat(f: FloatText)     // a `float`
    | OStr(s: string)          // a `str` (periodicity tokens)
    | OOther(tok: string)      // whatever `eval` makes of any other token
    | OList(items: seq<Obj>)   // a `list` or `tuple`

  /** `self.index` of a timestep: `None`, or whatever object was given or
      read. */
  type Index = Option<Obj>

  /** Keys of the `result` dict: the fixed section names, one key per
      extra ATOMS heading (`"atom:" + heading`), and `None`. */
  datatype Key =
    | KTime | KNAtoms | KBox | KPeriodic | KType | KId | KXyz
    | KAtom(heading: string)
    | KNone

  /** Exceptions the source raises, by where they come from. */
  datatype Error =
    | BadInt(token: string)          // int(token) raises ValueError
    | BadFloat(token: string)        // float(token) raises ValueError
    | ShortRow                       // unpacking a row with too few tokens
    | AppendToScalar(key: Key)       // `.append` on a stored int (line 308)
    | Unorderable                    // `>` between objects of different kinds (line 290)
    | TooManyFields                  // more row tokens than extra headings (line 326)
    | NoneKey                        // `"atom:" in None` while building columns
    | MissingKey(missing: Key)       // KeyError while building columns
    | Malformed(what: Key)           // a stored value of the wrong shape
    | CountMismatch(declared: Obj, actual: nat) // the warning's format call raises
    | NotIterable                    // iterating over `None`, or `*` on a number (lines 212-221)
    | MissingColumn(name: string)    // getattr of an extras name fails
    | EmptyColumn(name: string)      // `column[0]` of an empty column
    | ShortColumn(name: string)      // `column[iatom]` past the end
    | NonIntegerId                   // "{0:d}" of a non-integer id
    | NoStep(step: Option<int>)      // `Dump[ts]` for an index not read
    | Unhashable                     // a list used as a dict key (line 26)
    | MissingArgument                // a format field with no argument (line 221)

  datatype Result<T> = Ok(value: T) | Err(error: Error)

  /** The `result` dict of `_read`. */
  type Dict = seq<(Key, Obj)>

  /** `d[k].append(v)`: fails unless `d[k]` is a list. */
  function Append(d: Dict, k: Key, v: Obj): Result<Dict>
    requires Has(d, k)
  {
    match Get(d, k)
    case OList(items) => Ok(Put(d, k, OList(items + [v])))
    case _ => Err(AppendToScalar(k))
  }

  // ---------------------------------------------------------------------
  // Casts

  /** The cast functions pushed on `itemstack`: `int` and `float`. */
  datatype Cast = ToInt | ToFloat

  function ParseFloat(tok: string): (r: Result<Obj>)
    ensures r.Ok? <==> IsFloatLit(tok)
    ensures r.Ok? ==> r.value == OFloat(tok)
  {
    if IsFloatLit(tok) then Ok(OFloat(tok)) else Err(BadFloat(tok))
  }

  function ApplyCast(c: Cast, tok: string): (r: Result<Obj>)
  {
    match c
    case ToInt => (match ParseInt(tok) case Some(n) => Ok(OInt(n)) case None => Err(BadInt(tok)))
    case ToFloat => ParseFloat(tok)
  }

  /** `int(tok)` succeeds exactly when the token parses as an integer and
      gives that integer; `float(tok)` succeeds on the float literals and
      keeps the token. */
  lemma ApplyCastFacts(c: Cast, tok: string)
    ensures c == ToInt ==> (ApplyCast(c, tok).Ok? <==> ParseInt(tok).Some?)
    ensures c == ToInt && ApplyCast(c, tok).Ok? ==> ApplyCast(c, tok).value == OInt(ParseInt(tok).value)
    ensures c == ToFloat ==> (ApplyCast(c, tok).Ok? <==> IsFloatLit(tok))
    ensures c == ToFloat && ApplyCast(c, tok).Ok? ==> ApplyCast(c, tok).value == OFloat(tok)
  {
  }

  /** `[t(r) for t, r in zip(cast, raw)]`: pairs up casts and tokens as far
      as the shorter of the two goes; the first failing cast raises. */
  function CastAll(casts: seq<Cast>, toks: seq<string>): (r: Result<seq<Obj>>)
    ensures r.Ok? ==> |r.value| == if |casts| < |toks| then |casts| else |toks|
  {
    if casts == [] || toks == [] then Ok([])
    else
      match ApplyCast(casts[0], toks[0])
      case Err(e) => Err(e)
      case Ok(v) =>
        match CastAll(casts[1..], toks[1..])
        case Err(e) => Err(e)
        case Ok(vs) => Ok([v] + vs)
  }

  /** The zip casts each token with the cast beside it, and fails exactly
      when one of those casts fails. */
  lemma {:induction false} CastAllPairs(casts: seq<Cast>, toks: seq<string>)
    ensures var r := CastAll(casts, toks);
            && (r.Ok? ==> forall i :: 0 <= i < |r.value| ==> ApplyCast(casts[i], toks[i]) == Ok(r.value[i]))
            && (r.Ok? <==> forall i :: 0 <= i < |casts| && i < |toks| ==> ApplyCast(casts[i], toks[i]).Ok?)
  {
    if casts != [] && toks != [] {
      CastAllPairs(casts[1..], toks[1..]);
      var r := CastAll(casts, toks);
      if ApplyCast(casts[0], toks[0]).Ok? && CastAll(casts[1..], toks[1..]).Ok? {
        assert forall i :: 1 <= i < |r.value| ==> r.value[i] == CastAll(casts[1..], toks[1..]).value[i - 1];
      }
      if forall i :: 0 <= i < |casts| && i < |toks| ==> ApplyCast(casts[i], toks[i]).Ok? {
        assert forall i :: 0 <= i < |casts| - 1 && i < |toks| - 1 ==> ApplyCast(casts[1..][i], toks[1..][i]).Ok?;
      }
    }
  }

  /** Python's `a > b` on the objects a TIMESTEP check compares: integers
      by value, lists element by element, the first unequal pair deciding
      and otherwise the longer list being greater; any other pair cannot
      be ordered. */
  function Greater(a: Obj, b: Obj): Result<bool>
    decreases a, 1
  {
    match (a, b)
    case (OInt(x), OInt(y)) => Ok(x > y)
    case (OList(xs), OList(ys)) => GreaterItems(xs, ys)
    case _ => Err(Unorderable)
  }

  function GreaterItems(xs: seq<Obj>, ys: seq<Obj>): Result<bool>
    decreases xs, 0
  {
    if xs == [] || ys == [] then Ok(|xs| > |ys|)
    else if xs[0] != ys[0] then Greater(xs[0], ys[0])
    else GreaterItems(xs[1..], ys[1..])
  }

  /** `>` is asymmetric: when `a > b` holds, `b > a` is false and does not
      raise. */
  lemma {:induction false} GreaterAsymmetric(a: Obj, b: Obj)
    requires Greater(a, b) == Ok(true)
    ensures Greater(b, a) == Ok(false)
    decreases a, 1
  {
    if a.OList? {
      GreaterItemsAsymmetric(a.items, b.items);
    }
  }

  lemma {:induction false} GreaterItemsAsymmetric(xs: seq<Obj>, ys: seq<Obj>)
    requires GreaterItems(xs, ys) == Ok(true)
    ensures GreaterItems(ys, xs) == Ok(false)
    decreases xs, 0
  {
    if xs != [] && ys != [] {
      if xs[0] != ys[0] {
        GreaterAsymmetric(xs[0], ys[0]);
      } else {
        GreaterItemsAsymmetric(xs[1..], ys[1..]);
      }
    }
  }

  /** `values[0] if len(values) == 1 else values`. */
  function Collapse(vals: seq<Obj>): Obj {
    if |vals| == 1 then vals[0] else OList(vals)
  }

  /** What `eval` makes of an extra per-atom token: an `int` or `float`
      literal gives that number; any other token is kept opaque. */
  function Eval(tok: string): (o: Obj)
    ensures IsEvalInt(tok) ==> ParseInt(tok).Some? && o == OInt(ParseInt(tok).value)
    ensures !IsEvalInt(tok) && IsEvalFloat(tok) ==> o == OFloat(tok)
    ensures !IsEvalInt(tok) && !IsEvalFloat(tok) ==> o == OOther(tok)
  {
    if IsEvalInt(tok) then
      var t := if tok[0] == '+' || tok[0] == '-' then tok[1..] else tok;
      var m: int := DigitsValue(t);
      OInt(if tok[0] == '-' then 0 - m else m)
    else if IsEvalFloat(tok) then OFloat(tok)
    else OOther(tok)
  }
}
