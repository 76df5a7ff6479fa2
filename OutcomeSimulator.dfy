/** The outcome-simulator view (components/OutcomeSimulator.tsx): its request
    state machine (`handleSimulate`), the run-button condition, the chart
    projections of the last result, the confidence colour band and the
    "primary risk" label, which the view obtains by sorting the stored
    `riskFactors` in place. */
module OutcomeSimulator {
  import opened Types

  const RiskFill := "#ef4444"
  const ConfidenceFill := "#10b981"
  const ConfidenceLabel := "Confidence"
  const NoPrimaryRisk := "None"

  // ---------------------------------------------------------------------
  // The run button and the request state machine

  /** `disabled={isSimulating || !hypothesis || !parameters}`: the only
      protection against a second dispatch while one is pending, since
      `handleSimulate` itself does not look at `isSimulating`. */
  function RunDisabled(isSimulating: bool, hypothesis: string, parameters: string): (disabled: bool)
    ensures isSimulating ==> disabled
    ensures !disabled <==> !isSimulating && hypothesis != "" && parameters != ""
  {
    isSimulating || hypothesis == "" || parameters == ""
  }

  /** The state held by the view. */
  class SimulatorView {
    var hypothesis: string
    var parameters: string
    var isSimulating: bool
    var result: Option<SimulationResult>

    /** While a simulation is pending no result is shown. */
    ghost predicate Valid()
      reads this
    {
      isSimulating ==> result.None?
    }

    constructor ()
      ensures Valid()
      ensures hypothesis == "" && parameters == "" && !isSimulating && result == None
    {
      hypothesis, parameters, isSimulating, result := "", "", false, None;
    }

    /** The two text areas' `onChange`. */
    method SetInputs(h: string, p: string)
      requires Valid()
      modifies this`hypothesis, this`parameters
      ensures Valid() && hypothesis == h && parameters == p
    {
      hypothesis, parameters := h, p;
    }

    /** `handleSimulate` up to the `await`. An empty hypothesis or empty
        parameters change nothing and dispatch nothing (no trimming here);
        otherwise the view turns pending, the previous result is cleared and
        both inputs are dispatched unchanged. */
    method HandleSimulate() returns (request: Option<(string, string)>)
      requires Valid()
      modifies this
      ensures Valid() && hypothesis == old(hypothesis) && parameters == old(parameters)
      ensures request.None? <==> hypothesis == "" || parameters == ""
      ensures request.None? ==> isSimulating == old(isSimulating) && result == old(result)
      ensures request.Some? ==> request.value == (hypothesis, parameters) && isSimulating && result == None
    {
      if hypothesis == "" || parameters == "" {
        return None;
      }
      isSimulating := true;
      result := None;
      request := Some((hypothesis, parameters));
    }

    /** `handleSimulate` after the `await`: success stores the returned
        value, failure leaves the result empty (the user is only alerted),
        and the `finally` clears the pending flag either way. */
    method Resolve(outcome: Result<SimulationResult, Thrown>)
      requires Valid() && isSimulating
      modifies this
      ensures Valid() && !isSimulating
      ensures hypothesis == old(hypothesis) && parameters == old(parameters)
      ensures outcome.Ok? ==> result == Some(outcome.value)
      ensures outcome.Err? ==> result == None
    {
      if outcome.Ok? {
        result := Some(outcome.value);
      }
      isSimulating := false;
    }

    /** The "Primary Risk" card, rendered only when a result is present:
        `result.riskFactors.sort((a,b) => b.value - a.value)[0]?.name || "None"`.
        The sort works in place, so the stored result's `riskFactors` is
        left in sorted order; everything else is unchanged. */
    method ShowPrimaryRisk() returns (primary: string)
      requires Valid() && result.Some?
      modifies this`result
      ensures Valid() && result.Some?
      ensures result.value == old(result.value).(riskFactors := SortedByValue(old(result.value.riskFactors)))
      ensures primary == PrimaryRisk(old(result.value.riskFactors))
    {
      var factors := result.value.riskFactors;
      var a := new RiskFactor[|factors|](i requires 0 <= i < |factors| => factors[i]);
      assert a[..] == factors;
      SortByValueDescending(a);
      result := Some(result.value.(riskFactors := a[..]));
      primary := PrimaryLabel(a[..]);
    }
  }

  // ---------------------------------------------------------------------
  // Chart projections and the confidence colour

  /** One bar of the risk chart: `{ ...r, fill: '#ef4444' }`. */
  datatype RiskBar = RiskBar(name: string, value: int, fill: string)

  /** The single entry of the confidence gauge. */
  datatype GaugeEntry = GaugeEntry(name: string, value: int, fill: string)

  function BarsOf(factors: seq<RiskFactor>): (bars: seq<RiskBar>)
    ensures |bars| == |factors|
    ensures forall i :: 0 <= i < |factors| ==>
              bars[i].name == factors[i].name && bars[i].value == factors[i].value && bars[i].fill == RiskFill
  {
    if factors == [] then []
    else [RiskBar(factors[0].name, factors[0].value, RiskFill)] + BarsOf(factors[1..])
  }

  /** `riskData`: one red bar per risk factor, same order, same names and
      values; no bars without a result. */
  function RiskData(result: Option<SimulationResult>): (bars: seq<RiskBar>)
    ensures result.None? ==> bars == []
    ensures result.Some? ==> |bars| == |result.value.riskFactors|
    ensures result.Some? ==> forall i :: 0 <= i < |bars| ==>
              bars[i] == RiskBar(result.value.riskFactors[i].name, result.value.riskFactors[i].value, RiskFill)
  {
    match result
    case None => []
    case Some(r) => BarsOf(r.riskFactors)
  }

  /** `confidenceData`: exactly one gauge entry carrying the score when a
      result is present, none otherwise. */
  function ConfidenceData(result: Option<SimulationResult>): (entries: seq<GaugeEntry>)
    ensures |entries| == if result.Some? then 1 else 0
    ensures result.Some? ==> entries[0].value == result.value.confidenceScore
  {
    match result
    case None => []
    case Some(r) => [GaugeEntry(ConfidenceLabel, r.confidenceScore, ConfidenceFill)]
  }

  /** The colour of the confidence figure. */
  datatype Band = Red | Yellow | Green

  function BandRank(b: Band): nat {
    match b
    case Red => 0
    case Yellow => 1
    case Green => 2
  }

  /** Green above 70, yellow above 40 up to 70, red at 40 and below. */
  function ConfidenceBand(score: int): (b: Band)
    ensures b == Green <==> score > 70
    ensures b == Yellow <==> 40 < score <= 70
    ensures b == Red <==> score <= 40
  {
    if score > 70 then Green else if score > 40 then Yellow else Red
  }

  /** A higher score never gets a worse colour. */
  lemma ConfidenceBandMonotone(s: int, t: int)
    requires s <= t
    ensures BandRank(ConfidenceBand(s)) <= BandRank(ConfidenceBand(t))
  {
  }

  // ---------------------------------------------------------------------
  // Sorting the risk factors (stable, by descending value)

  /** Non-increasing by `value`. */
  predicate NonIncreasing(s: seq<RiskFactor>) {
    forall i, j :: 0 <= i < j < |s| ==> s[i].value >= s[j].value
  }

  /** Insert `x` into `s` in front of the first factor whose value is not
      larger than `x`'s; `x` therefore lands before factors of equal value,
      which came after it in the input. */
  function Insert(x: RiskFactor, s: seq<RiskFactor>): (r: seq<RiskFactor>)
    ensures |r| == |s| + 1
  {
    if s == [] || x.value >= s[0].value then [x] + s
    else [s[0]] + Insert(x, s[1..])
  }

  /** The order a stable sort with comparator `(a, b) => b.value - a.value`
      produces: by descending value, ties in input order. */
  function SortedByValue(s: seq<RiskFactor>): (sorted: seq<RiskFactor>)
    ensures |sorted| == |s|
  {
    if s == [] then [] else Insert(s[0], SortedByValue(s[1..]))
  }

  lemma {:induction false} InsertPermutes(x: RiskFactor, s: seq<RiskFactor>)
    ensures multiset(Insert(x, s)) == multiset(s) + multiset{x}
  {
    if s != [] && x.value < s[0].value {
      InsertPermutes(x, s[1..]);
      assert s == [s[0]] + s[1..];
    }
  }

  lemma ConsKeepsOrder(h: RiskFactor, t: seq<RiskFactor>)
    requires NonIncreasing(t) && (t == [] || h.value >= t[0].value)
    ensures NonIncreasing([h] + t)
  {
  }

  lemma {:induction false} InsertKeepsOrder(x: RiskFactor, s: seq<RiskFactor>)
    requires NonIncreasing(s)
    ensures NonIncreasing(Insert(x, s))
  {
    if s == [] || x.value >= s[0].value {
      ConsKeepsOrder(x, s);
    } else {
      var tail := s[1..];
      assert NonIncreasing(tail) by {
        forall m, n | 0 <= m < n < |tail| ensures tail[m].value >= tail[n].value {
          assert tail[m] == s[m + 1] && tail[n] == s[n + 1];
        }
      }
      InsertKeepsOrder(x, tail);
      var t := Insert(x, tail);
      assert t[0] == x || t[0] == s[1];
      ConsKeepsOrder(s[0], t);
    }
  }

  /** The sorted sequence is in non-increasing order. */
  lemma {:induction false} SortedByValueSorts(s: seq<RiskFactor>)
    ensures NonIncreasing(SortedByValue(s))
  {
    if s != [] {
      SortedByValueSorts(s[1..]);
      InsertKeepsOrder(s[0], SortedByValue(s[1..]));
    }
  }

  /** The sorted sequence is a permutation of the input. */
  lemma {:induction false} SortedByValuePermutes(s: seq<RiskFactor>)
    ensures multiset(SortedByValue(s)) == multiset(s)
    ensures |SortedByValue(s)| == |s|
  {
    if s != [] {
      SortedByValuePermutes(s[1..]);
      InsertPermutes(s[0], SortedByValue(s[1..]));
      assert s == [s[0]] + s[1..];
    }
  }

  /** The factors of `s` whose value is `v`, in their order in `s`. */
  function WithValue(s: seq<RiskFactor>, v: int): seq<RiskFactor> {
    if s == [] then []
    else (if s[0].value == v then [s[0]] else []) + WithValue(s[1..], v)
  }

  /** `Insert` puts `x` in front of every factor of equal value. */
  lemma {:induction false} InsertStable(x: RiskFactor, s: seq<RiskFactor>, v: int)
    ensures WithValue(Insert(x, s), v) == (if x.value == v then [x] else []) + WithValue(s, v)
  {
    var mine: seq<RiskFactor> := if x.value == v then [x] else [];
    if s == [] || x.value >= s[0].value {
      var r := [x] + s;
      assert r[0] == x && r[1..] == s;
      assert WithValue(r, v) == mine + WithValue(s, v);
    } else {
      var t := Insert(x, s[1..]);
      var r := [s[0]] + t;
      assert r[0] == s[0] && r[1..] == t;
      var head: seq<RiskFactor> := if s[0].value == v then [s[0]] else [];
      InsertStable(x, s[1..], v);
      assert WithValue(t, v) == mine + WithValue(s[1..], v);
      assert WithValue(r, v) == head + (mine + WithValue(s[1..], v));
      // `x` is strictly smaller than `s[0]`, so at most one of them has value `v`.
      assert head + mine == mine + head;
      assert WithValue(s, v) == head + WithValue(s[1..], v);
    }
  }

  /** The sort is stable: the factors of any one value keep their received
      order. With `SortedByValueSorts` this fixes the whole result, ties
      included. */
  lemma {:induction false} SortedByValueStable(s: seq<RiskFactor>, v: int)
    ensures WithValue(SortedByValue(s), v) == WithValue(s, v)
  {
    if s != [] {
      SortedByValueStable(s[1..], v);
      InsertStable(s[0], SortedByValue(s[1..]), v);
    }
  }

  /** Sorting an already sorted sequence changes nothing, so sorting again
      on every later render leaves the stored order as it is. */
  lemma {:induction false} SortedByValueIdempotent(s: seq<RiskFactor>)
    ensures SortedByValue(SortedByValue(s)) == SortedByValue(s)
  {
    SortedByValueSorts(s);
    SortedFixed(SortedByValue(s));
  }

  lemma {:induction false} SortedFixed(s: seq<RiskFactor>)
    requires NonIncreasing(s)
    ensures SortedByValue(s) == s
  {
    if s != [] {
      SortedFixed(s[1..]);
      assert s == [s[0]] + s[1..];
    }
  }

  /** Because the primary-risk card sorts the stored `riskFactors` in
      place, the risk chart of every later render is built from the sorted
      order: it differs from the chart of the received order exactly when
      the factors did not arrive in non-increasing order. */
  lemma ChartReorderedUnlessAlreadySorted(r: SimulationResult)
    ensures var after := r.(riskFactors := SortedByValue(r.riskFactors));
            RiskData(Some(after)) == RiskData(Some(r)) <==> NonIncreasing(r.riskFactors)
  {
    var s := r.riskFactors;
    var t := SortedByValue(s);
    if NonIncreasing(s) {
      SortedFixed(s);
    } else {
      SortedByValueSorts(s);
      SortedByValuePermutes(s);
      assert t != s;
      var k :| 0 <= k < |s| && t[k] != s[k];
      assert RiskData(Some(r.(riskFactors := t)))[k] != RiskData(Some(r))[k];
    }
  }

  /** Reference definition of the primary risk: the position of the first
      factor with the largest value. */
  function FirstMaxIndex(s: seq<RiskFactor>): (k: nat)
    requires s != []
    ensures k < |s|
    ensures forall j :: 0 <= j < |s| ==> s[j].value <= s[k].value
    ensures forall j :: 0 <= j < k ==> s[j].value < s[k].value
  {
    if |s| == 1 then 0
    else
      var k := FirstMaxIndex(s[1..]) + 1;
      if s[0].value >= s[k].value then 0 else k
  }

  /** The head of the stable descending sort is the first factor of
      maximum value in the input. */
  lemma {:induction false} SortedHeadIsFirstMax(s: seq<RiskFactor>)
    requires s != []
    ensures SortedByValue(s) != [] && SortedByValue(s)[0] == s[FirstMaxIndex(s)]
  {
    if |s| > 1 {
      SortedHeadIsFirstMax(s[1..]);
    }
  }

  /** `sorted[0]?.name || "None"`: no factor, or an empty name, shows "None". */
  function PrimaryLabel(sorted: seq<RiskFactor>): (shown: string)
    ensures shown != ""
  {
    if sorted == [] || sorted[0].name == "" then NoPrimaryRisk else sorted[0].name
  }

  /** The primary-risk text for the factors as received: "None" for no
      factors, and otherwise either "None" or the name of one of them. */
  function PrimaryRisk(factors: seq<RiskFactor>): (shown: string)
    ensures shown != ""
    ensures factors == [] ==> shown == NoPrimaryRisk
    ensures shown != NoPrimaryRisk ==> exists k :: 0 <= k < |factors| && factors[k].name == shown
  {
    var sorted := SortedByValue(factors);
    assert factors != [] ==> sorted[0] == factors[FirstMaxIndex(factors)] by {
      if factors != [] {
        SortedHeadIsFirstMax(factors);
      }
    }
    PrimaryLabel(sorted)
  }

  /** The card shows "None" for no factors; otherwise the name of the first
      factor (in received order) of maximum value, or "None" if that name is
      empty. */
  lemma PrimaryRiskIsFirstMaximum(factors: seq<RiskFactor>)
    ensures factors == [] ==> PrimaryRisk(factors) == NoPrimaryRisk
    ensures factors != [] ==>
              var top := factors[FirstMaxIndex(factors)];
              PrimaryRisk(factors) == if top.name == "" then NoPrimaryRisk else top.name
  {
    if factors != [] {
      SortedHeadIsFirstMax(factors);
    }
  }

  lemma ConsSplit(r: seq<RiskFactor>, p: nat, x: RiskFactor)
    requires 0 < p <= |r|
    ensures [r[0]] + (r[1..][..p - 1] + [x] + r[1..][p - 1..]) == r[..p] + [x] + r[p..]
  {
  }

  /** `Insert` puts `x` right after the leading factors of `rest` that are
      strictly larger than it. */
  lemma {:induction false} InsertAt(x: RiskFactor, rest: seq<RiskFactor>, p: nat)
    requires p <= |rest|
    requires forall k :: 0 <= k < p ==> rest[k].value > x.value
    requires p < |rest| ==> rest[p].value <= x.value
    ensures Insert(x, rest) == rest[..p] + [x] + rest[p..]
  {
    if p == 0 {
      assert rest[..0] == [] && rest[0..] == rest;
    } else {
      var tail := rest[1..];
      assert forall k :: 0 <= k < p - 1 ==> tail[k] == rest[k + 1];
      InsertAt(x, tail, p - 1);
      assert Insert(x, rest) == [rest[0]] + Insert(x, tail);
      ConsSplit(rest, p, x);
    }
  }

  /** After moving `o[i]` rightwards past the larger factors `o[i + 1..j]`,
      which each moved one place to the left, up to a factor that is not
      larger (or the end), the prefix before `i` is untouched and the suffix
      from `i` is `o[i]` inserted into `o[i + 1..]`. */
  lemma Reassemble(s: seq<RiskFactor>, o: seq<RiskFactor>, i: nat, j: nat)
    requires |s| == |o| && i <= j < |o|
    requires forall k :: 0 <= k < i ==> s[k] == o[k]
    requires forall k :: i <= k < j ==> s[k] == o[k + 1]
    requires forall k :: i < k <= j ==> o[k].value > o[i].value
    requires s[j] == o[i]
    requires forall k :: j < k < |s| ==> s[k] == o[k]
    requires j + 1 < |o| ==> o[j + 1].value <= o[i].value
    ensures s[..i] == o[..i]
    ensures s[i..] == Insert(o[i], o[i + 1..])
  {
    var x, rest := o[i], o[i + 1..];
    var p := j - i;
    forall k | 0 <= k < p ensures rest[k].value > x.value {
      assert rest[k] == o[i + 1 + k];
    }
    assert p < |rest| ==> rest[p] == o[j + 1];
    InsertAt(x, rest, p);
    var u := rest[..p] + [x] + rest[p..];
    assert |s[i..]| == |u|;
    forall n | 0 <= n < |u| ensures s[i..][n] == u[n] {
      if n < p {
      } else if n == p {
      } else {
        assert u[n] == rest[n - 1];
      }
    }
  }

  /** Moves `a[i]` rightwards by adjacent swaps while the factor after it
      is larger, so that `a[i..]` becomes `a[i]` inserted into the old
      `a[i + 1..]`. */
  method InsertForward(a: array<RiskFactor>, i: nat)
    requires i < a.Length
    modifies a
    ensures a[..i] == old(a[..i])
    ensures a[i..] == Insert(old(a[i]), old(a[i + 1..]))
  {
    ghost var o := a[..];
    var j := i;
    while j + 1 < a.Length && a[j].value < a[j + 1].value
      invariant i <= j < a.Length
      invariant forall k :: 0 <= k < i ==> a[k] == o[k]
      invariant forall k :: i <= k < j ==> a[k] == o[k + 1]
      invariant forall k :: i < k <= j ==> o[k].value > o[i].value
      invariant forall k :: j < k < a.Length ==> a[k] == o[k]
      invariant a[j] == o[i]
    {
      assert a[j + 1] == o[j + 1];
      a[j], a[j + 1] := a[j + 1], a[j];
      j := j + 1;
    }
    assert j + 1 < a.Length ==> a[j + 1] == o[j + 1];
    ghost var s := a[..];
    assert forall k :: 0 <= k < i ==> s[k] == o[k];
    assert forall k :: i <= k < j ==> s[k] == o[k + 1];
    assert forall k :: j < k < |s| ==> s[k] == o[k];
    Reassemble(s, o, i, j);
  }

  /** `riskFactors.sort(...)` on the array: afterwards the array holds
      exactly the stable descending order of what it held before. The loop
      builds the sorted suffix from the back, inserting one element per
      round. */
  method SortByValueDescending(a: array<RiskFactor>)
    modifies a
    ensures a[..] == SortedByValue(old(a[..]))
  {
    ghost var orig := a[..];
    var i := a.Length;
    while i > 0
      invariant 0 <= i <= a.Length
      invariant a[..i] == orig[..i]
      invariant a[i..] == SortedByValue(orig[i..])
    {
      i := i - 1;
      assert orig[i..] == [orig[i]] + orig[i + 1..];
      InsertForward(a, i);
    }
  }
}
