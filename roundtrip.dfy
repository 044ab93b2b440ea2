/** Reading back what the writer wrote: the BOX BOUNDS header carries the
    periodicity through, except that a timestep with no axes comes back
    with three non-periodic ones. */
module RoundTrip {
  import opened Text
  import opened Raw
  import opened Reader
  import opened Timesteps
  import opened Writer

  /** No token of `ws` holds `c`, so neither does their join. */
  lemma {:induction false} JoinAvoids(ws: seq<string>, c: char)
    requires c != ' '
    requires forall i, j :: 0 <= i < |ws| && 0 <= j < |ws[i]| ==> ws[i][j] != c
    ensures forall k :: 0 <= k < |Join(ws)| ==> Join(ws)[k] != c
  {
    if |ws| > 1 {
      JoinAvoids(ws[1..], c);
      var rest := Join(ws[1..]);
      assert Join(ws) == ws[0] + " " + rest;
      forall k | 0 <= k < |Join(ws)| ensures Join(ws)[k] != c {
        if k > |ws[0]| {
          assert Join(ws)[k] == rest[k - |ws[0]| - 1];
        }
      }
    }
  }

  /** The join of words starts with the first word's first character and
      ends with the last word's last one. */
  lemma {:induction false} JoinEnds(ws: seq<string>)
    requires |ws| > 0 && forall i :: 0 <= i < |ws| ==> IsWord(ws[i])
    ensures var j := Join(ws);
            && |ws[0]| > 0 && |ws[|ws| - 1]| > 0
            && |j| > 0 && j[0] == ws[0][0]
            && j[|j| - 1] == ws[|ws| - 1][|ws[|ws| - 1]| - 1]
  {
    if |ws| > 1 {
      JoinEnds(ws[1..]);
      assert ws[1..][|ws| - 2] == ws[|ws| - 1];
    }
  }

  lemma StripClean(s: string)
    requires |s| > 0 && !IsSpace(s[0]) && !IsSpace(s[|s| - 1])
    ensures Strip(s) == s
  {
  }

  const Sep := "BOX BOUNDS"

  /** "BOX BOUNDS" first occurs in a written header right after "ITEM: ". */
  lemma FindSep(h: string, rest: string)
    requires h == Reader.BoxHeader + rest
    ensures Find(h, Sep) == Some(6)
  {
    assert OccursAt(h, Sep, 6) by { assert h[6..16] == Sep; }
    forall i | 0 <= i < 6 ensures !OccursAt(h, Sep, i) {
      assert h[i] != 'B';
      assert h[i..i + |Sep|][0] == h[i];
    }
    FindFirst(h, Sep, 6);
  }

  /** `s.find(sep)` is the first place `sep` occurs. */
  lemma FindFirst(s: string, sep: string, i: nat)
    requires |sep| > 0 && OccursAt(s, sep, i)
    requires forall j :: 0 <= j < i ==> !OccursAt(s, sep, j)
    ensures Find(s, sep) == Some(i)
  {
    assert Contains(s, sep);
  }

  /** `s.split(sep)` when `sep` occurs exactly once, at `i`. */
  lemma SplitOnce(s: string, sep: string, i: nat)
    requires |sep| > 0 && Find(s, sep) == Some(i)
    requires !Contains(s[i + |sep|..], sep)
    ensures SplitOn(s, sep) == [s[..i], s[i + |sep|..]]
  {
  }

  /** `h.split("BOX BOUNDS")` of a header whose tail has no 'B'. */
  lemma SplitOnHeader(h: string, j: string)
    requires h == Reader.BoxHeader + " " + j
    requires forall k :: 0 <= k < |j| ==> j[k] != 'B'
    ensures SplitOn(h, Sep) == ["ITEM: ", " " + j]
  {
    assert h == Reader.BoxHeader + (" " + j);
    FindSep(h, " " + j);
    HeaderEnds(h, " " + j);
    NoFirstChar(h[16..], Sep);
    SplitOnce(h, Sep, 6);
  }

  /** A BOX BOUNDS header starts with "ITEM: " and has its rest after the
      sixteenth character. */
  lemma HeaderEnds(h: string, rest: string)
    requires h == Reader.BoxHeader + rest
    ensures h[..6] == "ITEM: " && h[16..] == rest
  {
  }

  /** A written header is already stripped and splits around "BOX
      BOUNDS" into "ITEM: " and the rest. */
  lemma HeaderParts(h: string, j: string)
    requires h == Reader.BoxHeader + " " + j
    requires |j| > 0 && !IsSpace(j[|j| - 1])
    requires forall k :: 0 <= k < |j| ==> j[k] != 'B'
    ensures Strip(h) == h && SplitOn(Strip(h), "BOX BOUNDS") == ["ITEM: ", " " + j]
  {
    HeaderClean(h, j);
    SplitOnHeader(h, j);
  }

  /** Lines 341-345 when the stripped line splits in two around "BOX
      BOUNDS", the second part being a space and a clean `j`. */
  lemma TailTokens(line: string, before: string, j: string)
    requires SplitOn(Strip(line), "BOX BOUNDS") == [before, " " + j]
    requires |j| > 0 && !IsSpace(j[0]) && !IsSpace(j[|j| - 1])
    ensures PeriodicTokens(line) == Split(j)
  {
    StripLeadSpace(j);
    StripClean(j);
  }

  lemma HeaderClean(h: string, j: string)
    requires h == Reader.BoxHeader + " " + j
    requires |j| > 0 && !IsSpace(j[|j| - 1])
    ensures Strip(h) == h
  {
    assert h[0] == 'I' && h[|h| - 1] == j[|j| - 1];
    StripClean(h);
  }

  lemma StripLeadSpace(j: string)
    ensures Strip(" " + j) == Strip(j)
  {
    assert (" " + j)[1..] == j;
  }

  /** Lines 209-211 then lines 341-345: with at least one axis, reading
      back the written BOX BOUNDS header gives the periodicity tokens that
      were written. */
  lemma BoxHeaderTokens(p: seq<bool>)
    requires |p| > 0
    ensures PeriodicTokens(Writer.BoxHeader(p)) == PeriodTokens(p)
  {
    var toks := PeriodTokens(p);
    forall i | 0 <= i < |toks| ensures IsWord(toks[i]) {
      assert toks[i] == "pp" || toks[i] == "ss";
    }
    JoinEnds(toks);
    JoinAvoids(toks, 'B');
    HeaderParts(Writer.BoxHeader(p), Join(toks));
    TailTokens(Writer.BoxHeader(p), "ITEM: ", Join(toks));
    SplitJoin(toks);
  }

  /** With no axes the writer leaves "ITEM: BOX BOUNDS " with nothing after
      it, which reads back as three non-periodic axes. */
  lemma BareBoxHeader()
    ensures PeriodicTokens(Writer.BoxHeader([])) == ["ss", "ss", "ss"]
  {
    var h := Reader.BoxHeader;
    assert Writer.BoxHeader([]) == h + " ";
    assert Strip(h + " ") == h by {
      assert (h + " ")[..|h|] == h;
      StripClean(h);
    }
    assert h == h + [];
    FindSep(h, []);
    NoFirstChar([], Sep);
    SplitOnce(h, Sep, 6);
  }
}
