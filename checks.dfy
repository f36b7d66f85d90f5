/** The checks page: switching a check on or off (required checks are locked) and
    counting how many are enabled. */
module ChecksPage {
  import opened Domain

  /** One entry after the switch for `id` was flipped. */
  function ToggleOne(c: Check, id: string): Check
  {
    if c.id == id && !c.required then c.(enabled := !c.enabled) else c
  }

  /** handleToggle: the list after the switch for `id` was flipped. */
  function Toggle(checks: seq<Check>, id: string): (r: seq<Check>)
    ensures |r| == |checks|
    // a required check, or a check with another id, is left exactly as it was
    ensures forall k :: 0 <= k < |checks| && (checks[k].required || checks[k].id != id) ==> r[k] == checks[k]
    // the matching optional check has its switch flipped and nothing else changed
    ensures forall k :: 0 <= k < |checks| && checks[k].id == id && !checks[k].required ==>
              r[k] == checks[k].(enabled := !checks[k].enabled)
  {
    if checks == [] then [] else [ToggleOne(checks[0], id)] + Toggle(checks[1..], id)
  }

  /** The checks that are switched on, in list order. */
  function EnabledChecks(checks: seq<Check>): (r: seq<Check>)
    ensures |r| <= |checks|
    ensures forall c :: c in r <==> c in checks && c.enabled
    ensures |r| == |checks| <==> forall k :: 0 <= k < |checks| ==> checks[k].enabled
    ensures r == [] <==> forall k :: 0 <= k < |checks| ==> !checks[k].enabled
  {
    if checks == [] then []
    else if checks[0].enabled then [checks[0]] + EnabledChecks(checks[1..])
    else EnabledChecks(checks[1..])
  }

  /** The filter keeps every enabled check as often as it occurs and drops every disabled one. */
  lemma {:induction false} EnabledChecksMultiset(checks: seq<Check>)
    ensures forall c :: multiset(EnabledChecks(checks))[c] == if c.enabled then multiset(checks)[c] else 0
  {
    if checks != [] {
      EnabledChecksMultiset(checks[1..]);
      assert checks == [checks[0]] + checks[1..];
    }
  }

  /** The positions, from `m` on, of the checks that are switched on. */
  function EnabledPositions(checks: seq<Check>, m: nat): set<nat>
    requires m <= |checks|
  {
    set k: nat | m <= k < |checks| && checks[k].enabled
  }

  /** One position fewer loses one enabled position exactly when that check is on. */
  lemma EnabledPositionsStep(checks: seq<Check>, m: nat)
    requires m < |checks|
    ensures |EnabledPositions(checks, m)| ==
            |EnabledPositions(checks, m + 1)| + if checks[m].enabled then 1 else 0
  {
    var above, here := EnabledPositions(checks, m + 1), EnabledPositions(checks, m);
    assert m !in above;
    if checks[m].enabled {
      assert here == above + {m};
    } else {
      assert here == above;
    }
  }

  /** Filtering the checks from position `m` on keeps as many as there are enabled positions there. */
  lemma {:induction false} EnabledChecksCountsPositions(checks: seq<Check>, m: nat)
    requires m <= |checks|
    ensures |EnabledChecks(checks[m..])| == |EnabledPositions(checks, m)|
    decreases |checks| - m
  {
    if m == |checks| {
      assert EnabledPositions(checks, m) == {};
    } else {
      EnabledChecksCountsPositions(checks, m + 1);
      assert checks[m..][1..] == checks[m + 1..];
      EnabledPositionsStep(checks, m);
    }
  }

  /** enabledCount: how many checks are switched on. */
  function EnabledCount(checks: seq<Check>): (n: nat)
    ensures n == |set k: nat | k < |checks| && checks[k].enabled|
    ensures n <= |checks|
    ensures n == |checks| <==> forall k :: 0 <= k < |checks| ==> checks[k].enabled
    ensures n == 0 <==> forall k :: 0 <= k < |checks| ==> !checks[k].enabled
  {
    EnabledChecksCountsPositions(checks, 0);
    assert checks[0..] == checks;
    assert EnabledPositions(checks, 0) == set k: nat | k < |checks| && checks[k].enabled;
    |EnabledChecks(checks)|
  }

  predicate UniqueIds(checks: seq<Check>)
  {
    forall a, b :: 0 <= a < b < |checks| ==> checks[a].id != checks[b].id
  }

  /** Toggling the same check twice gives back the original list. */
  lemma ToggleTwice(checks: seq<Check>, id: string)
    ensures Toggle(Toggle(checks, id), id) == checks
  {
    var once := Toggle(checks, id);
    var twice := Toggle(once, id);
    assert forall k :: 0 <= k < |checks| ==> twice[k] == checks[k];
  }

  /** Toggling an id that no optional check carries changes nothing; in particular
      required checks can never be switched. */
  lemma ToggleLocked(checks: seq<Check>, id: string)
    requires forall k :: 0 <= k < |checks| && checks[k].id == id ==> checks[k].required
    ensures Toggle(checks, id) == checks
  {
    var r := Toggle(checks, id);
    assert forall k :: 0 <= k < |checks| ==> r[k] == checks[k];
  }

  /** With unique ids, toggling the optional check at position `k` moves the enabled
      count by exactly one, up when it was off and down when it was on. */
  lemma {:induction false} ToggleMovesCountByOne(checks: seq<Check>, k: nat)
    requires k < |checks| && UniqueIds(checks) && !checks[k].required
    ensures EnabledCount(Toggle(checks, checks[k].id)) ==
            if checks[k].enabled then EnabledCount(checks) - 1 else EnabledCount(checks) + 1
    decreases |checks|
  {
    var id := checks[k].id;
    var r := Toggle(checks, id);
    assert r[1..] == Toggle(checks[1..], id);
    if k == 0 {
      assert forall j :: 0 <= j < |checks[1..]| ==> checks[1..][j].id != id;
      ToggleLocked(checks[1..], id);
    } else {
      assert checks[0].id != id;
      assert UniqueIds(checks[1..]);
      ToggleMovesCountByOne(checks[1..], k - 1);
    }
  }
}
