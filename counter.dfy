/** The vote counter (socialpoll/counter/main.go): a handler adds each vote
    that arrives to an in-memory tally, and doCount periodically flushes the
    tally to the polls collection, one update per option, clearing the tally
    only when every update succeeded. The database is an input: which
    options' updates succeed. */
module Counter {

  /** `counts`: nil until the first vote arrives, then a map from option to
      the votes it received since the last successful flush. */
  datatype Counts = Nil | Made(m: map<string, nat>)

  /** The entries of the tally; a nil map has none. */
  function Entries(c: Counts): map<string, nat>
  {
    if c.Made? then c.m else map[]
  }

  /** counts[option], which is 0 for a missing option or a nil map. */
  function CountOf(c: Counts, option: string): nat
  {
    if option in Entries(c) then Entries(c)[option] else 0
  }

  /** The handler's effect: make the map if it is nil, then add one vote. */
  function Increment(c: Counts, vote: string): (r: Counts)
    ensures r.Made? && r.m.Keys == Entries(c).Keys + {vote}
    ensures CountOf(r, vote) == CountOf(c, vote) + 1
    ensures forall o :: o in Entries(c) && o != vote ==> r.m[o] == Entries(c)[o]
  {
    Made(Entries(c)[vote := CountOf(c, vote) + 1])
  }

  /** The number of votes a tally holds. */
  ghost function Total(m: map<string, nat>): nat
    decreases |m.Keys|
  {
    if m == map[] then 0
    else
      var k :| k in m;
      m[k] + Total(m - {k})
  }

  /** Total may take the entries in any order. */
  lemma {:induction false} TotalRemove(m: map<string, nat>, k: string)
    requires k in m
    ensures Total(m) == m[k] + Total(m - {k})
    decreases |m.Keys|
  {
    var j :| j in m && Total(m) == m[j] + Total(m - {j});
    if j != k {
      var mj := m - {j};
      var mk := m - {k};
      assert k in mj && j in mk;
      TotalRemove(mj, k);
      TotalRemove(mk, j);
      assert mj - {k} == mk - {j};
    }
  }

  /** Each vote adds exactly one to the total. */
  lemma IncrementTotal(c: Counts, vote: string)
    ensures Total(Entries(Increment(c, vote))) == Total(Entries(c)) + 1
  {
    var before := Entries(c);
    var after := Entries(Increment(c, vote));
    TotalRemove(after, vote);
    assert after - {vote} == before - {vote};
    if vote in before {
      TotalRemove(before, vote);
    } else {
      assert before - {vote} == before;
    }
  }

  /** The options an update list touches. */
  function Options(updates: seq<(string, nat)>): set<string>
    decreases |updates|
  {
    if updates == [] then {} else Options(updates[..|updates| - 1]) + {updates[|updates| - 1].0}
  }

  /** No option is updated twice. */
  ghost predicate Distinct(updates: seq<(string, nat)>)
  {
    forall i, j :: 0 <= i < j < |updates| ==> updates[i].0 != updates[j].0
  }

  /** Updates of distinct options touch as many options as there are
      updates, and only options they carry. */
  lemma {:induction false} DistinctOptions(updates: seq<(string, nat)>)
    requires Distinct(updates)
    ensures |Options(updates)| == |updates|
    ensures forall o :: o in Options(updates) ==> exists i :: 0 <= i < |updates| && updates[i].0 == o
    decreases |updates|
  {
    if updates != [] {
      var front := updates[..|updates| - 1];
      var last := updates[|updates| - 1].0;
      assert Distinct(front);
      DistinctOptions(front);
      forall o | o in Options(updates)
        ensures exists i :: 0 <= i < |updates| && updates[i].0 == o
      {
        if o != last {
          var i :| 0 <= i < |front| && front[i].0 == o;
          assert updates[i].0 == o;
        }
      }
    }
  }

  /** As many distinct options as the map has keys, all of them keys: every
      option of the map is updated, exactly once. */
  lemma EveryOptionOnce(updates: seq<(string, nat)>, m: map<string, nat>)
    requires Distinct(updates) && |updates| == |m|
    requires forall i :: 0 <= i < |updates| ==> updates[i].0 in m
    ensures Options(updates) == m.Keys
  {
    DistinctOptions(updates);
    var opts := Options(updates);
    assert opts <= m.Keys;
    assert |m.Keys - opts| == |m.Keys| - |opts|;
  }

  /** The tally behind the handler and doCount. `received` counts the votes
      that arrived since the tally was last cleared. */
  class Tally {
    var counts: Counts
    ghost var received: nat

    ghost predicate Valid()
      reads this
    {
      Total(Entries(counts)) == received
    }

    constructor ()
      ensures Valid() && counts == Nil && received == 0
    {
      counts := Nil;
      received := 0;
    }

    /** The nsq handler: one more vote for `vote`. */
    method HandleVote(vote: string)
      requires Valid()
      modifies this
      ensures Valid() && received == old(received) + 1
      ensures counts == Increment(old(counts), vote)
    {
      if counts == Nil {
        counts := Made(map[]);
      }
      counts := Made(counts.m[vote := CountOf(counts, vote) + 1]);
      IncrementTotal(old(counts), vote);
      received := received + 1;
    }

    /** doCount: nothing to do for an empty tally; otherwise send one update
        per option carrying its count, and clear the tally only if every
        update succeeded. `succeeds(o)` says whether the update for `o` does. */
    method DoCount(succeeds: string -> bool) returns (updates: seq<(string, nat)>)
      requires Valid()
      modifies this
      ensures Valid()
      ensures |updates| == |Entries(old(counts))| && Distinct(updates)
      ensures Options(updates) == Entries(old(counts)).Keys
      ensures forall i :: 0 <= i < |updates| ==> updates[i].0 in Entries(old(counts)) && updates[i].1 == Entries(old(counts))[updates[i].0]
      ensures Entries(old(counts)) == map[] ==> counts == old(counts) && received == old(received)
      ensures Entries(old(counts)) != map[] && (forall o :: o in Entries(old(counts)) ==> succeeds(o)) ==>
        counts == Nil && received == 0
      ensures (exists o :: o in Entries(old(counts)) && !succeeds(o)) ==>
        counts == old(counts) && received == old(received)
    {
      var m := Entries(counts);
      if |m| == 0 {
        updates := [];
        assert Options(updates) == {};
        return;
      }
      var ok;
      updates, ok := SendUpdates(m, succeeds);
      EveryOptionOnce(updates, m);
      if ok {
        counts := Nil;
        received := 0;
      }
    }
  }

  /** What the loop of doCount knows about the updates sent for the options
      in `done`. */
  ghost predicate SentFor(updates: seq<(string, nat)>, done: set<string>, m: map<string, nat>)
  {
    && |updates| == |done| && Distinct(updates)
    && forall i :: 0 <= i < |updates| ==> updates[i].0 in done && updates[i].0 in m && updates[i].1 == m[updates[i].0]
  }

  /** Sending the update for one more option. */
  lemma SendOneMore(updates: seq<(string, nat)>, done: set<string>, m: map<string, nat>, option: string)
    requires SentFor(updates, done, m) && option in m && option !in done
    ensures SentFor(updates + [(option, m[option])], done + {option}, m)
  {
    var all := updates + [(option, m[option])];
    forall i | 0 <= i < |all|
      ensures all[i].0 in done + {option} && all[i].0 in m && all[i].1 == m[all[i].0]
    {
      if i < |updates| {
        assert all[i] == updates[i];
      }
    }
  }

  /** The loop of doCount: one update per option of `m` carrying its count, in
      the map's order, and whether all of them succeeded. */
  method SendUpdates(m: map<string, nat>, succeeds: string -> bool) returns (updates: seq<(string, nat)>, ok: bool)
    ensures |updates| == |m| && Distinct(updates)
    ensures forall i :: 0 <= i < |updates| ==> updates[i].0 in m && updates[i].1 == m[updates[i].0]
    ensures ok <==> forall o :: o in m ==> succeeds(o)
  {
    updates := [];
    ok := true;
    var pending := m.Keys;
    ghost var done: set<string> := {};
    while pending != {}
      invariant done !! pending && done + pending == m.Keys
      invariant SentFor(updates, done, m)
      invariant ok <==> forall o :: o in done ==> succeeds(o)
      decreases pending
    {
      var option :| option in pending;
      SendOneMore(updates, done, m, option);
      updates := updates + [(option, m[option])];
      if !succeeds(option) {
        ok := false;
      }
      done := done + {option};
      pending := pending - {option};
    }
  }
}
