/** Paging through the calls list of a campaign while the service runs. */
module CallsList {
  import opened Types
  import opened Tables
  import opened Protocol
  import opened Shape
  import opened Paging

  /** The sort keys of the calls list: each call's updated_at. */
  function Listing(s: State, k: CampaignId): Table {
    map c | c in s.db.calls && s.db.calls[c].campaign == k :: s.db.calls[c].updatedAt
  }

  /** No row was written in the future. */
  predicate Stamped(s: State) {
    forall c :: c in s.db.calls ==> s.db.calls[c].updatedAt <= s.now
  }

  lemma MoveStamps(s: State, step: Step)
    requires Enabled(s, step) && MoveOf(s, step).Some?
    ensures MoveOf(s, step).value.row.updatedAt == s.now
  {
  }

  lemma TimeOnlyRises(s: State, step: Step)
    requires Enabled(s, step)
    ensures s.now <= Apply(s, step).now
  {
  }

  lemma StepRises(s: State, s': State, step: Step, m: Option<Move>)
    requires Stamped(s) && Effect(s, s', step, m) && s.now <= s'.now
    requires m.Some? ==> m.value.row.updatedAt == s.now
    ensures Stamped(s')
    ensures forall c :: c in s.db.calls ==>
              && c in s'.db.calls && s'.db.calls[c].campaign == s.db.calls[c].campaign
              && s.db.calls[c].updatedAt <= s'.db.calls[c].updatedAt
  {
  }

  /** `later` lists every call that `earlier` does, none with a smaller key. */
  predicate Grows(earlier: Table, later: Table) {
    forall c :: c in earlier ==> c in later && earlier[c] <= later[c]
  }

  lemma {:induction false} RunRises(p: Premises, s: State, steps: seq<Step>, k: CampaignId)
    requires Stamped(s) && IsRun(p, s, steps)
    ensures Stamped(Run(p, s, steps)) && Grows(Listing(s, k), Listing(Run(p, s, steps), k))
    decreases |steps|
  {
    if steps != [] {
      StepEffect(s, steps[0]);
      TimeOnlyRises(s, steps[0]);
      if MoveOf(s, steps[0]).Some? {
        MoveStamps(s, steps[0]);
      }
      StepRises(s, Apply(s, steps[0]), steps[0], MoveOf(s, steps[0]));
      RunRises(p, Apply(s, steps[0]), steps[1..], k);
    }
  }

  /** The listings that a client sees who fetches a page, waits for a stretch of the run, and fetches the next. */
  ghost predicate Watches(p: Premises, s: State, stretches: seq<seq<Step>>, k: CampaignId, tables: seq<Table>)
    decreases |stretches|
  {
    && |tables| == |stretches| + 1 && tables[0] == Listing(s, k)
    && (stretches != [] ==>
          IsRun(p, s, stretches[0]) && Watches(p, Run(p, s, stretches[0]), stretches[1..], k, tables[1..]))
  }

  lemma {:induction false} WatchedRises(p: Premises, s: State, stretches: seq<seq<Step>>, k: CampaignId, tables: seq<Table>, i: nat, j: nat)
    requires Stamped(s) && Watches(p, s, stretches, k, tables) && i <= j < |tables|
    ensures Grows(tables[i], tables[j])
    decreases |stretches|
  {
    if 0 < j {
      var next := Run(p, s, stretches[0]);
      RunRises(p, s, stretches[0], k);
      assert tables[j] == tables[1..][j-1] && tables[1] == tables[1..][0];
      if i > 0 {
        assert tables[i] == tables[1..][i-1];
        WatchedRises(p, next, stretches[1..], k, tables[1..], i - 1, j - 1);
      } else {
        WatchedRises(p, next, stretches[1..], k, tables[1..], 0, j - 1);
      }
    }
  }

  /** From the empty database on, what a client sees only rises, so no call is shown on two pages of its walk. */
  lemma NoCallShownTwice(p: Premises, n: nat, init: State, lead: seq<Step>, stretches: seq<seq<Step>>, k: CampaignId,
                         tables: seq<Table>, limit: nat, i: nat, j: nat, a: nat, b: nat)
    requires Init(init, n) && IsRun(p, init, lead) && Watches(p, Run(p, init, lead), stretches, k, tables)
    requires limit > 0 && i < j < |tables| && Continues(tables, limit, j)
    requires a < |PageAt(tables, limit, i)| && b < |PageAt(tables, limit, j)|
    ensures PageAt(tables, limit, i)[a].id != PageAt(tables, limit, j)[b].id
  {
    RunRises(p, init, lead, k);
    forall x, y | 0 <= x < y < |tables| ensures OnlyRises(tables[x], tables[y]) {
      WatchedRises(p, Run(p, init, lead), stretches, k, tables, x, y);
    }
    ShownOnce(tables, limit, i, j, a, b);
  }
}
