/** What is kept step by step holds wherever the steps lead. */
module ProtocolReached {
  import opened Protocol

  lemma NowhereLeads(w: World, good: (World, Event) -> bool)
    ensures LeadsBy(w, w, good)
  {
    hide Enabled, Step;
    var none: seq<Event> := [];
    assert Follows([w], none) && [w][0] == w && [w][|none|] == w;
  }

  lemma NextLeads(v: World, w: World, e: Event, good: (World, Event) -> bool)
    requires LeadsBy(v, w, good) && Enabled(w, e) && good(w, e)
    ensures LeadsBy(v, Step(w, e), good)
  {
    hide Enabled, Step;
    var run, events :| Follows(run, events) && run[0] == v && run[|events|] == w
      && forall k :: 0 <= k < |events| ==> good(run[k], events[k]);
    var run', events' := run + [Step(w, e)], events + [e];
    forall k | 0 <= k < |events'|
      ensures Enabled(run'[k], events'[k]) && run'[k + 1] == Step(run'[k], events'[k]) && good(run'[k], events'[k])
    {
      if k < |events| {
        assert Enabled(run[k], events[k]) && run[k + 1] == Step(run[k], events[k]) && good(run[k], events[k]);
      }
    }
    assert Follows(run', events') && run'[0] == v && run'[|events'|] == Step(w, e);
  }

  lemma InitReached(w: World)
    requires Init(w)
    ensures Reached(w)
  {
    hide Init, LeadsBy;
    NowhereLeads(w, Any);
    assert Leads(w, w);
  }

  lemma NextReached(w: World, e: Event)
    requires Reached(w) && Enabled(w, e)
    ensures Reached(Step(w, e))
  {
    hide Init, LeadsBy, Enabled, Step;
    var v :| Init(v) && Leads(v, w);
    NextLeads(v, w, e, Any);
    assert Leads(v, Step(w, e));
  }

  /** What every good step keeps is kept by any number of good steps. */
  lemma Induction(v: World, w: World, good: (World, Event) -> bool, P: World -> bool)
    requires LeadsBy(v, w, good) && P(v)
    requires forall u, e :: P(u) && Enabled(u, e) && good(u, e) ==> P(Step(u, e))
    ensures P(w)
  {
    hide Enabled, Step;
    var run, events :| Follows(run, events) && run[0] == v && run[|events|] == w
      && forall k :: 0 <= k < |events| ==> good(run[k], events[k]);
    var k := 0;
    while k < |events|
      invariant 0 <= k <= |events| && P(run[k])
    {
      assert Enabled(run[k], events[k]) && run[k + 1] == Step(run[k], events[k]);
      k := k + 1;
    }
  }

  /** Good steps lead from a start to reached worlds. */
  lemma LeadsReaches(v: World, w: World, good: (World, Event) -> bool)
    requires Init(v) && LeadsBy(v, w, good)
    ensures Reached(w)
  {
    hide Init, Enabled, Step, Reached, LeadsBy;
    InitReached(v);
    forall u, e | Reached(u) && Enabled(u, e) ensures Reached(Step(u, e)) {
      NextReached(u, e);
    }
    Induction(v, w, good, Reached);
  }

  /** Every world of a behaviour is reached. */
  lemma RunReached(run: seq<World>, events: seq<Event>, w: World)
    requires Behaviour(run, events) && w in run
    ensures Reached(w)
  {
    hide Init, Enabled, Step, Reached;
    InitReached(run[0]);
    var k := 0;
    while run[k] != w
      invariant 0 <= k < |run| && Reached(run[k]) && w in run[k..]
      decreases |run| - k
    {
      assert Enabled(run[k], events[k]) && run[k + 1] == Step(run[k], events[k]);
      NextReached(run[k], events[k]);
      k := k + 1;
    }
  }
}
