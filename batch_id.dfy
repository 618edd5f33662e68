/**
 * `extract_batch_id_from_url`: the search `re.search(r'/batch/([a-zA-Z0-9]+)', url)`
 * written out as a string search, with the fallback to `url.strip()`.
 * Both versions of the bot define the same function.
 */
module BatchId {
  import opened Wrappers
  import opened Text

  const Marker: string := "/batch/"

  /** The pattern matches at index `i`: `/batch/` there, then an alphanumeric. */
  predicate MatchesAt(url: string, i: nat)
  {
    i + |Marker| < |url|
    && (forall k | 0 <= k < |Marker| :: url[i + k] == Marker[k])
    && IsAlnum(url[i + |Marker|])
  }

  /** The leftmost index at or after `from` where the pattern matches. */
  function FirstMatch(url: string, from: nat): (r: Option<nat>)
    decreases |url| - from
    ensures r.Some? ==> from <= r.value && MatchesAt(url, r.value)
    ensures r.Some? ==> forall j | from <= j < r.value :: !MatchesAt(url, j)
    ensures r.None? ==> forall j | from <= j :: !MatchesAt(url, j)
  {
    if |url| <= from + |Marker| then None
    else if MatchesAt(url, from) then Some(from)
    else FirstMatch(url, from + 1)
  }

  /** The greedy `[a-zA-Z0-9]+` run of `s` that starts at `start`. */
  function AlnumRun(s: string, start: nat): (r: string)
    requires start <= |s|
    decreases |s| - start
    ensures start + |r| <= |s| && r == s[start..start + |r|]
    ensures forall k | 0 <= k < |r| :: IsAlnum(r[k])
    ensures start + |r| < |s| ==> !IsAlnum(s[start + |r|])
  {
    if start < |s| && IsAlnum(s[start]) then [s[start]] + AlnumRun(s, start + 1) else []
  }

  /**
   * The batch id: the captured group of the leftmost match (non-empty,
   * alphanumeric, and not followed by another alphanumeric), or the
   * stripped input when the pattern matches nowhere.
   */
  function ExtractBatchId(url: string): (r: string)
    ensures FirstMatch(url, 0).Some? ==>
      var start := FirstMatch(url, 0).value + |Marker|;
      r != [] && start + |r| <= |url| && r == url[start..start + |r|]
      && (forall k | 0 <= k < |r| :: IsAlnum(r[k]))
      && (start + |r| < |url| ==> !IsAlnum(url[start + |r|]))
    ensures FirstMatch(url, 0).None? ==> r == Strip(url)
  {
    match FirstMatch(url, 0)
    case Some(i) => AlnumRun(url, i + |Marker|)
    case None => Strip(url)
  }

  /** A match at `i` with none before it is the one `ExtractBatchId` uses. */
  lemma ExtractAtFirstMatch(url: string, i: nat)
    requires MatchesAt(url, i)
    requires forall j | 0 <= j < i :: !MatchesAt(url, j)
    ensures ExtractBatchId(url) == AlnumRun(url, i + |Marker|)
  {
    var m := FirstMatch(url, 0);
    assert m.Some?;
    assert m.value == i;
  }

  /** Without a match anywhere the id is the stripped input. */
  lemma ExtractWithoutMatch(url: string)
    requires forall j :: !MatchesAt(url, j)
    ensures ExtractBatchId(url) == Strip(url)
  {
    assert FirstMatch(url, 0).None?;
  }

  /** Every match in `t` lies inside `Strip(t)`, at the same place. */
  lemma MatchInsideStrip(t: string, p: nat)
    requires MatchesAt(t, p)
    ensures StripOffset(t) <= p && p + |Marker| < StripOffset(t) + |Strip(t)|
    ensures MatchesAt(Strip(t), p - StripOffset(t))
  {
    var a, r := StripOffset(t), Strip(t);
    StripSpec(t);
    assert t[p] == Marker[0];
    assert !IsSpace(t[p]);
    assert !IsSpace(t[p + |Marker|]);
    var q := p - a;
    StripWindow(t);
    forall k | 0 <= k < |Marker|
      ensures r[q + k] == Marker[k]
    {
      assert t[p + k] == Marker[k];
    }
    assert r[q + |Marker|] == t[p + |Marker|];
  }

  /** Every match in `Strip(t)` is a match in `t`, shifted by the leading whitespace. */
  lemma MatchFromStrip(t: string, i: nat)
    requires MatchesAt(Strip(t), i)
    ensures MatchesAt(t, StripOffset(t) + i)
  {
    var a, r := StripOffset(t), Strip(t);
    StripWindow(t);
    forall k | 0 <= k < |Marker|
      ensures t[a + i + k] == Marker[k]
    {
      assert r[i + k] == Marker[k];
    }
    assert r[i + |Marker|] == t[a + i + |Marker|];
  }

  /** The run is the longest alphanumeric stretch: any such stretch is it. */
  lemma {:induction false} AlnumRunUnique(s: string, start: nat, w: string)
    requires start + |w| <= |s| && w == s[start..start + |w|]
    requires forall k | 0 <= k < |w| :: IsAlnum(w[k])
    requires start + |w| < |s| ==> !IsAlnum(s[start + |w|])
    ensures AlnumRun(s, start) == w
    decreases |w|
  {
    if w != [] {
      assert s[start] == w[0];
      AlnumRunUnique(s, start + 1, w[1..]);
      assert [w[0]] + w[1..] == w;
    }
  }

  /** A run that starts inside `Strip(t)` is the same run in `t`. */
  lemma RunInsideStrip(t: string, start: nat)
    requires StripOffset(t) <= start < StripOffset(t) + |Strip(t)|
    ensures AlnumRun(Strip(t), start - StripOffset(t)) == AlnumRun(t, start)
  {
    var a, r := StripOffset(t), Strip(t);
    StripSpec(t);
    var w := AlnumRun(t, start);
    if a + |r| < |t| {
      assert IsSpace(t[a + |r|]);
      assert !IsAlnum(t[a + |r|]);
    }
    assert start + |w| <= a + |r|;
    var q := start - a;
    forall k | 0 <= k < |w|
      ensures r[q + k] == w[k]
    {
      assert w[k] == t[start + k];
    }
    assert r[q..q + |w|] == w;
    if q + |w| < |r| {
      assert r[q + |w|] == t[start + |w|];
    }
    AlnumRunUnique(r, q, w);
  }

  lemma NoEarlierMatchInStrip(t: string, p: nat)
    requires StripOffset(t) <= p
    requires forall j | 0 <= j < p :: !MatchesAt(t, j)
    ensures forall j | 0 <= j < p - StripOffset(t) :: !MatchesAt(Strip(t), j)
  {
    forall j | 0 <= j < p - StripOffset(t)
      ensures !MatchesAt(Strip(t), j)
    {
      if MatchesAt(Strip(t), j) {
        MatchFromStrip(t, j);
      }
    }
  }

  /** `Strip(t)` has its first match where `t` has it, shifted by the leading whitespace. */
  lemma FirstMatchInStrip(t: string, p: nat)
    requires MatchesAt(t, p)
    requires forall j | 0 <= j < p :: !MatchesAt(t, j)
    ensures StripOffset(t) <= p && p + |Marker| < StripOffset(t) + |Strip(t)|
    ensures FirstMatch(Strip(t), 0) == Some(p - StripOffset(t))
  {
    MatchInsideStrip(t, p);
    NoEarlierMatchInStrip(t, p);
  }

  /** With a match in `t`, extracting from `Strip(t)` captures the same run. */
  lemma ExtractStripWithMatch(t: string, p: nat)
    requires FirstMatch(t, 0) == Some(p)
    ensures ExtractBatchId(Strip(t)) == ExtractBatchId(t)
  {
    FirstMatchInStrip(t, p);
    RunInsideStrip(t, p + |Marker|);
    ExtractCapturesRun(Strip(t), p - StripOffset(t));
    ExtractCapturesRun(t, p);
  }

  lemma ExtractCapturesRun(url: string, i: nat)
    requires FirstMatch(url, 0) == Some(i)
    ensures ExtractBatchId(url) == AlnumRun(url, i + |Marker|)
  {
    var m := FirstMatch(url, 0);
    assert m.value == i;
  }

  /** Without a match in `t` there is none in `Strip(t)` either. */
  lemma ExtractStripWithoutMatch(t: string)
    requires FirstMatch(t, 0).None?
    ensures ExtractBatchId(Strip(t)) == ExtractBatchId(t)
  {
    var r := Strip(t);
    forall j
      ensures !MatchesAt(r, j)
    {
      if MatchesAt(r, j) {
        MatchFromStrip(t, j);
      }
    }
    ExtractWithoutMatch(r);
    StripIdempotent(t);
  }

  /**
   * Both handlers strip the message before extracting the id; that strip
   * changes nothing, since a match never touches surrounding whitespace.
   */
  lemma ExtractIgnoresSurroundingSpace(t: string)
    ensures ExtractBatchId(Strip(t)) == ExtractBatchId(t)
  {
    match FirstMatch(t, 0)
    case Some(p) => ExtractStripWithMatch(t, p);
    case None => ExtractStripWithoutMatch(t);
  }

  /** An extracted id extracts to itself. */
  lemma ExtractIdempotent(url: string)
    ensures ExtractBatchId(ExtractBatchId(url)) == ExtractBatchId(url)
  {
    var r := ExtractBatchId(url);
    match FirstMatch(url, 0)
    case Some(p) =>
      forall j: nat
        ensures !MatchesAt(r, j)
      {
        if j + |Marker| < |r| {
          assert IsAlnum(r[j]);
          assert r[j + 0] != Marker[0];
        }
      }
      ExtractWithoutMatch(r);
      StripNoSpace(r);
    case None =>
      ExtractIgnoresSurroundingSpace(url);
  }
}
