/**
 * The in-memory store (internal/storage/memory.go): an append-only list of
 * validation runs and a table of alert states per source. Access is sequential;
 * the read/write lock of the source only serialises these operations.
 */
module Storage {
  import opened Wrappers
  import opened Domain
  import Alerting

  /** The runs that `GetRecentRuns` keeps: those of `sourceID`, or all when it is "". */
  function Filter(runs: seq<ValidationResult>, sourceID: string): seq<ValidationResult>
    decreases |runs|
  {
    if runs == [] then []
    else
      var r := runs[|runs| - 1];
      Filter(runs[..|runs| - 1], sourceID) + (if sourceID == "" || r.sourceID == sourceID then [r] else [])
  }

  // ---- The stable newest-first order ----

  /** Places `x` before the first run that is not strictly newer than it. */
  function Insert(x: ValidationResult, sorted: seq<ValidationResult>): (r: seq<ValidationResult>)
    ensures multiset(r) == multiset(sorted) + multiset{x}
    ensures |r| == |sorted| + 1
    decreases |sorted|
  {
    if sorted == [] || x.timestamp >= sorted[0].timestamp then [x] + sorted
    else
      assert sorted == [sorted[0]] + sorted[1..];
      [sorted[0]] + Insert(x, sorted[1..])
  }

  /** `sort.SliceStable` by "timestamp is after": newest first, ties in input order. */
  function SortNewestFirst(runs: seq<ValidationResult>): seq<ValidationResult>
    decreases |runs|
  {
    if runs == [] then [] else Insert(runs[0], SortNewestFirst(runs[1..]))
  }

  predicate NewestFirst(runs: seq<ValidationResult>) {
    forall i, j :: 0 <= i < j < |runs| ==> runs[i].timestamp >= runs[j].timestamp
  }

  /** The runs with timestamp `t`, in order. */
  function WithTimestamp(runs: seq<ValidationResult>, t: int): seq<ValidationResult>
    decreases |runs|
  {
    if runs == [] then []
    else (if runs[0].timestamp == t then [runs[0]] else []) + WithTimestamp(runs[1..], t)
  }

  /** A run no older than every run of an ordered list can go in front of it. */
  lemma ConsKeepsOrder(h: ValidationResult, rest: seq<ValidationResult>)
    requires NewestFirst(rest)
    requires forall k :: 0 <= k < |rest| ==> rest[k].timestamp <= h.timestamp
    ensures NewestFirst([h] + rest)
  {
    var l := [h] + rest;
    forall i, j | 0 <= i < j < |l| ensures l[i].timestamp >= l[j].timestamp {
      assert l[j] == rest[j - 1];
      if i > 0 {
        assert l[i] == rest[i - 1];
      }
    }
  }

  lemma {:induction false} InsertKeepsOrder(x: ValidationResult, sorted: seq<ValidationResult>)
    requires NewestFirst(sorted)
    ensures NewestFirst(Insert(x, sorted))
    ensures Insert(x, sorted) != [] && (Insert(x, sorted)[0] == x || (sorted != [] && Insert(x, sorted)[0] == sorted[0]))
    decreases |sorted|
  {
    if sorted != [] && x.timestamp < sorted[0].timestamp {
      var s1 := sorted[1..];
      InsertKeepsOrder(x, s1);
      var rest := Insert(x, s1);
      forall k | 0 <= k < |rest| ensures rest[k].timestamp <= sorted[0].timestamp {
        assert rest[k] in multiset(rest);
        if rest[k] != x {
          assert rest[k] in multiset(s1);
          var m :| 0 <= m < |s1| && s1[m] == rest[k];
          assert s1[m] == sorted[m + 1];
        }
      }
      ConsKeepsOrder(sorted[0], rest);
    } else {
      ConsKeepsOrder(x, sorted);
    }
  }

  lemma {:induction false} SortIsOrdered(runs: seq<ValidationResult>)
    ensures NewestFirst(SortNewestFirst(runs))
    decreases |runs|
  {
    if runs != [] {
      SortIsOrdered(runs[1..]);
      InsertKeepsOrder(runs[0], SortNewestFirst(runs[1..]));
    }
  }

  lemma {:induction false} SortIsPermutation(runs: seq<ValidationResult>)
    ensures multiset(SortNewestFirst(runs)) == multiset(runs)
    decreases |runs|
  {
    if runs != [] {
      SortIsPermutation(runs[1..]);
      MultisetOfHeadAndTail(runs);
    }
  }

  lemma MultisetOfHeadAndTail<T>(s: seq<T>)
    requires s != []
    ensures multiset(s) == multiset(s[1..]) + multiset{s[0]}
  {
    assert s == [s[0]] + s[1..];
  }

  /** The result is ordered newest first and holds exactly the input runs. */
  lemma SortIsOrderedPermutation(runs: seq<ValidationResult>)
    ensures NewestFirst(SortNewestFirst(runs))
    ensures multiset(SortNewestFirst(runs)) == multiset(runs)
    ensures |SortNewestFirst(runs)| == |runs|
  {
    SortIsOrdered(runs);
    SortIsPermutation(runs);
    assert |multiset(SortNewestFirst(runs))| == |multiset(runs)|;
  }

  lemma {:induction false} InsertKeepsTies(x: ValidationResult, sorted: seq<ValidationResult>, t: int)
    ensures WithTimestamp(Insert(x, sorted), t) == (if x.timestamp == t then [x] else []) + WithTimestamp(sorted, t)
    decreases |sorted|
  {
    if sorted == [] || x.timestamp >= sorted[0].timestamp {
      assert ([x] + sorted)[1..] == sorted;
    } else {
      var rest := Insert(x, sorted[1..]);
      InsertKeepsTies(x, sorted[1..], t);
      assert ([sorted[0]] + rest)[1..] == rest;
      assert WithTimestamp(sorted, t) == (if sorted[0].timestamp == t then [sorted[0]] else []) + WithTimestamp(sorted[1..], t);
      var tail := WithTimestamp(sorted[1..], t);
      if x.timestamp == t {
        assert WithTimestamp([sorted[0]] + rest, t) == [] + WithTimestamp(rest, t) == [x] + tail;
        assert WithTimestamp(sorted, t) == [] + tail == tail;
      } else {
        var head := if sorted[0].timestamp == t then [sorted[0]] else [];
        assert WithTimestamp([sorted[0]] + rest, t) == head + WithTimestamp(rest, t);
        assert WithTimestamp(rest, t) == [] + tail == tail;
        assert WithTimestamp(sorted, t) == head + tail;
      }
    }
  }

  /** Stability: the runs sharing any one timestamp keep their input order. */
  lemma {:induction false} SortIsStable(runs: seq<ValidationResult>, t: int)
    ensures WithTimestamp(SortNewestFirst(runs), t) == WithTimestamp(runs, t)
    decreases |runs|
  {
    if runs != [] {
      SortIsStable(runs[1..], t);
      InsertKeepsTies(runs[0], SortNewestFirst(runs[1..]), t);
    }
  }

  lemma {:induction false} WithTimestampMembers(runs: seq<ValidationResult>, t: int, x: ValidationResult)
    ensures x in WithTimestamp(runs, t) <==> x in runs && x.timestamp == t
    decreases |runs|
  {
    if runs != [] {
      WithTimestampMembers(runs[1..], t, x);
      assert runs == [runs[0]] + runs[1..];
    }
  }

  lemma WithTimestampOfTail(runs: seq<ValidationResult>, t: int)
    requires runs != []
    ensures WithTimestamp(runs[1..], t) ==
              if runs[0].timestamp == t then WithTimestamp(runs, t)[1..] else WithTimestamp(runs, t)
  {
    var rest := WithTimestamp(runs[1..], t);
    if runs[0].timestamp == t {
      assert WithTimestamp(runs, t) == [runs[0]] + rest;
      assert ([runs[0]] + rest)[1..] == rest;
    } else {
      assert WithTimestamp(runs, t) == [] + rest;
    }
  }

  lemma FirstTimestampIsPresent(runs: seq<ValidationResult>)
    ensures runs != [] ==> WithTimestamp(runs, runs[0].timestamp) != []
  {
  }

  /**
   * A newest-first order that keeps every timestamp's runs in their input order
   * is unique: any stable sort by "timestamp is after" returns `SortNewestFirst`.
   */
  lemma {:induction false} StableNewestFirstIsUnique(a: seq<ValidationResult>, b: seq<ValidationResult>)
    requires NewestFirst(a) && NewestFirst(b)
    requires forall t :: WithTimestamp(a, t) == WithTimestamp(b, t)
    ensures a == b
    decreases |a|
  {
    EmptyTogether(a, b);
    if a != [] {
      HeadsAgree(a, b);
      TailsAgree(a, b);
      StableNewestFirstIsUnique(a[1..], b[1..]);
      assert a == [a[0]] + a[1..] && b == [b[0]] + b[1..];
    }
  }

  /** Runs of the same timestamps: one order is empty exactly when the other is. */
  lemma EmptyTogether(a: seq<ValidationResult>, b: seq<ValidationResult>)
    requires forall t :: WithTimestamp(a, t) == WithTimestamp(b, t)
    ensures a == [] <==> b == []
  {
    FirstTimestampIsPresent(a);
    FirstTimestampIsPresent(b);
    if a != [] {
      assert WithTimestamp(b, a[0].timestamp) == WithTimestamp(a, a[0].timestamp);
    }
    if b != [] {
      assert WithTimestamp(a, b[0].timestamp) == WithTimestamp(b, b[0].timestamp);
    }
  }

  /** After equal heads, the tails are again newest first with the same runs per timestamp. */
  lemma TailsAgree(a: seq<ValidationResult>, b: seq<ValidationResult>)
    requires a != [] && b != [] && NewestFirst(a) && NewestFirst(b) && a[0] == b[0]
    requires forall t :: WithTimestamp(a, t) == WithTimestamp(b, t)
    ensures NewestFirst(a[1..]) && NewestFirst(b[1..])
    ensures forall t :: WithTimestamp(a[1..], t) == WithTimestamp(b[1..], t)
  {
    forall t
      ensures WithTimestamp(a[1..], t) == WithTimestamp(b[1..], t)
    {
      WithTimestampOfTail(a, t);
      WithTimestampOfTail(b, t);
    }
  }

  /** In a newest-first order no run is newer than the first. */
  lemma HeadIsNewest(runs: seq<ValidationResult>, x: ValidationResult)
    requires NewestFirst(runs) && x in runs
    ensures x.timestamp <= runs[0].timestamp
  {
    var k :| 0 <= k < |runs| && runs[k] == x;
    if k > 0 {
      assert runs[0].timestamp >= runs[k].timestamp;
    }
  }

  /** Two newest-first orders with the same runs per timestamp start with the same run. */
  lemma HeadsAgree(a: seq<ValidationResult>, b: seq<ValidationResult>)
    requires a != [] && b != [] && NewestFirst(a) && NewestFirst(b)
    requires forall t :: WithTimestamp(a, t) == WithTimestamp(b, t)
    ensures a[0] == b[0]
  {
    var ta, tb := a[0].timestamp, b[0].timestamp;
    FirstTimestampIsPresent(a);
    FirstTimestampIsPresent(b);
    assert WithTimestamp(a, ta) == WithTimestamp(b, ta) && WithTimestamp(a, tb) == WithTimestamp(b, tb);
    WithTimestampMembers(a, tb, b[0]);
    WithTimestampMembers(b, tb, b[0]);
    WithTimestampMembers(a, ta, a[0]);
    WithTimestampMembers(b, ta, a[0]);
    HeadIsNewest(a, b[0]);
    HeadIsNewest(b, a[0]);
    assert ta == tb;
    assert WithTimestamp(a, ta)[0] == a[0];
    assert WithTimestamp(b, ta)[0] == b[0];
  }

  /** The functional sort is what any stable newest-first sort of the same runs yields. */
  lemma SortMatchesAnyStableSort(runs: seq<ValidationResult>, sorted: seq<ValidationResult>)
    requires NewestFirst(sorted)
    requires forall t :: WithTimestamp(sorted, t) == WithTimestamp(runs, t)
    ensures sorted == SortNewestFirst(runs)
  {
    SortIsOrderedPermutation(runs);
    forall t
      ensures WithTimestamp(sorted, t) == WithTimestamp(SortNewestFirst(runs), t)
    {
      SortIsStable(runs, t);
    }
    StableNewestFirstIsUnique(sorted, SortNewestFirst(runs));
  }

  /** The first `limit` runs, or all of them when there are fewer. */
  function Take(runs: seq<ValidationResult>, limit: nat): (r: seq<ValidationResult>)
    ensures |r| == if |runs| > limit then limit else |runs|
    ensures r <= runs
  {
    if |runs| > limit then runs[..limit] else runs
  }

  // ---- The store ----

  class MemoryStore {
    var runs: seq<ValidationResult>
    var alertStates: map<string, Alerting.State>

    constructor ()
      ensures runs == [] && alertStates == map[]
    {
      runs := [];
      alertStates := map[];
    }

    /** What `GetLastState` answers: the stored state, or "" for a source never updated. */
    function StateOf(sourceID: string): Alerting.State
      reads this
    {
      if sourceID in alertStates then alertStates[sourceID] else ""
    }

    /** Appends one run; the alert states are untouched. */
    method SaveResult(res: ValidationResult)
      modifies this
      ensures runs == old(runs) + [res]
      ensures alertStates == old(alertStates)
    {
      runs := runs + [res];
    }

    /** Never fails: an unknown source answers "" with no error. */
    method GetLastState(sourceID: string) returns (state: Alerting.State, err: Option<Alerting.AlertError>)
      ensures err.None?
      ensures sourceID in alertStates ==> state == alertStates[sourceID]
      ensures sourceID !in alertStates ==> state == ""
      ensures state == StateOf(sourceID)
    {
      if sourceID !in alertStates {
        return "", None;
      }
      return alertStates[sourceID], None;
    }

    /** Stores the state of one source; the runs and the other sources are untouched. */
    method UpdateState(sourceID: string, state: Alerting.State)
      modifies this
      ensures alertStates == old(alertStates)[sourceID := state]
      ensures runs == old(runs)
      ensures StateOf(sourceID) == state
      ensures forall s :: s != sourceID ==> StateOf(s) == old(StateOf(s))
    {
      alertStates := alertStates[sourceID := state];
    }

    /**
     * The runs of a source (all runs for ""), newest first with ties in
     * insertion order, cut to at most `limit`. A negative limit would make the
     * slice expression panic.
     */
    method GetRecentRuns(sourceID: string, limit: int) returns (result: seq<ValidationResult>)
      requires limit >= 0
      ensures result == Take(SortNewestFirst(Filter(runs, sourceID)), limit)
    {
      var filtered: seq<ValidationResult> := [];
      for i := 0 to |runs|
        invariant filtered == Filter(runs[..i], sourceID)
      {
        var r := runs[i];
        assert runs[..i + 1][..i] == runs[..i];
        if sourceID == "" || r.sourceID == sourceID {
          filtered := filtered + [r];
        }
      }
      assert runs[..|runs|] == runs;
      filtered := SortNewestFirst(filtered);
      if |filtered| > limit {
        filtered := filtered[..limit];
      }
      result := filtered;
    }
  }

  // ---- Properties of the recent-runs query ----

  /** The filter keeps exactly the runs of the source, in order; "" keeps every run. */
  lemma {:induction false} FilterKeepsTheSourceRuns(runs: seq<ValidationResult>, sourceID: string, r: ValidationResult)
    ensures r in Filter(runs, sourceID) <==> r in runs && (sourceID == "" || r.sourceID == sourceID)
    ensures sourceID == "" ==> Filter(runs, sourceID) == runs
    decreases |runs|
  {
    if runs != [] {
      FilterKeepsTheSourceRuns(runs[..|runs| - 1], sourceID, r);
      assert runs == runs[..|runs| - 1] + [runs[|runs| - 1]];
    }
  }

  /** The positions of `runs` that the filter keeps, in ascending order. */
  ghost function FilterIndices(runs: seq<ValidationResult>, sourceID: string): seq<int>
    decreases |runs|
  {
    if runs == [] then []
    else
      var n := |runs| - 1;
      FilterIndices(runs[..n], sourceID) + (if sourceID == "" || runs[n].sourceID == sourceID then [n] else [])
  }

  /**
   * For every source ID the filter is the subsequence of the history at exactly the
   * positions holding a run of that source, ascending: insertion order is kept.
   */
  lemma {:induction false} FilterIsOrderedSelection(runs: seq<ValidationResult>, sourceID: string)
    ensures SelectsInOrder(Filter(runs, sourceID), runs, FilterIndices(runs, sourceID))
    ensures forall i :: 0 <= i < |runs| ==> (i in FilterIndices(runs, sourceID) <==> sourceID == "" || runs[i].sourceID == sourceID)
    decreases |runs|
  {
    if runs != [] {
      var n := |runs| - 1;
      var pre := runs[..n];
      FilterIsOrderedSelection(pre, sourceID);
      assert runs == pre + [runs[n]];
      SelectsInOrderExtend(Filter(pre, sourceID), pre, FilterIndices(pre, sourceID), runs[n]);
      forall i | 0 <= i < |runs|
        ensures i in FilterIndices(runs, sourceID) <==> sourceID == "" || runs[i].sourceID == sourceID
      {
        if i < n {
          assert runs[i] == pre[i];
        }
      }
    }
  }

  /**
   * The answer of `GetRecentRuns`: at most `limit` runs, ordered newest first,
   * all of the source, and the newest ones: a prefix of the whole matching history
   * in the stable newest-first order, which holds every matching run exactly once.
   */
  lemma RecentRunsShape(runs: seq<ValidationResult>, sourceID: string, limit: nat)
    ensures var all := SortNewestFirst(Filter(runs, sourceID));
            var result := Take(all, limit);
            && |result| <= limit
            && |result| == (if |Filter(runs, sourceID)| < limit then |Filter(runs, sourceID)| else limit)
            && NewestFirst(result)
            && result <= all
            && multiset(all) == multiset(Filter(runs, sourceID))
            && (forall k :: 0 <= k < |result| ==> sourceID == "" || result[k].sourceID == sourceID)
  {
    var filtered := Filter(runs, sourceID);
    var all := SortNewestFirst(filtered);
    SortIsOrderedPermutation(filtered);
    var result := Take(all, limit);
    forall k | 0 <= k < |result|
      ensures sourceID == "" || result[k].sourceID == sourceID
    {
      assert result[k] == all[k];
      assert all[k] in multiset(filtered);
      FilterKeepsTheSourceRuns(runs, sourceID, all[k]);
    }
  }

  /**
   * The in-memory store as the alert manager's state collaborator: a manager that
   * answers "" for an unknown source, over the store's state map, looks up exactly
   * what `GetLastState` answers.
   */
  lemma StoreIsTheManagersCollaborator(store: MemoryStore, m: Alerting.Manager, sourceID: string)
    requires m.states == store.alertStates && !m.unknownIsError
    ensures m.LastState(sourceID, false) == Success(store.StateOf(sourceID))
  {
  }
}
