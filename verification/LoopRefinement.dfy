/** The event loop in terms of the protocol: its runs are protocol runs, and reachable states meet its assumptions. */
module LoopRefinement {
  import opened Admission
  import opened Protocol
  import opened ProtocolInvariant
  import opened Totality
  import opened ReconcilerRefinement
  import opened Quiescence

  /** The protocol state `s`, with every worker idle, is what the loop state `l` stands for. */
  ghost predicate StandsFor(s: State, l: Loop) {
    s.hist != [] && Shared(s) == l.v && s.clock == l.clock && forall w: nat :: At(s, w).Idle?
  }

  /** Two runs joined by a step. */
  lemma StepsJoin(c: Config, tr: seq<State>, evs: seq<Event>, ev: Event, tr': seq<State>, evs': seq<Event>)
    requires Steps(c, tr, evs) && Steps(c, tr', evs')
    requires Enabled(c, tr[|tr| - 1], ev) && tr'[0] == Apply(c, tr[|tr| - 1], ev)
    ensures Steps(c, tr + tr', evs + ([ev] + evs'))
  {
    var t, e := tr + tr', evs + ([ev] + evs');
    forall i | 0 <= i < |e| ensures StepAt(c, t, e, i) {
      if i < |evs| {
        assert StepAt(c, tr, evs, i);
        assert t[i] == tr[i] && t[i + 1] == tr[i + 1] && e[i] == evs[i];
      } else if i == |evs| {
        assert t[i] == tr[|tr| - 1] && t[i + 1] == tr'[0] && e[i] == ev;
      } else {
        var k := i - |tr|;
        assert StepAt(c, tr', evs', k);
        assert t[i] == tr'[k] && t[i + 1] == tr'[k + 1] && e[i] == evs'[k];
      }
    }
  }

  /** Time passes and one worker reconciles: a turn of the loop. */
  lemma TurnIsRun(c: Config, until: int, l: Loop, t: Turn, s: State)
    returns (s1: State, ev: Event, tr: seq<State>, evs: seq<Event>)
    requires Healthy(c, l.v.st) && TurnEnabled(l, until, t) && t.Handle? && StandsFor(s, l)
    ensures Enabled(c, s, ev) && s1 == Apply(c, s, ev)
    ensures Steps(c, tr, evs) && tr[0] == s1 && StandsFor(tr[|tr| - 1], TurnResult(c, l, t))
  {
    ev := Tick(t.clock - l.clock);
    s1 := Apply(c, s, ev);
    assert forall w: nat :: At(s1, w) == At(s, w);
    assert Shared(s1) == l.v;
    tr, evs := ReconcileIsRun(c, s1, 0, t.n, t.listed);
    var last := tr[|tr| - 1];
    forall w: nat ensures At(last, w).Idle? {
      if w != 0 { assert At(last, w) == At(s1, w); }
    }
  }

  /** Every run of the event loop, taken up to any of its states, is a run of the protocol. */
  lemma {:induction false} LoopIsRun(c: Config, until: int, ls: seq<Loop>, ts: seq<Turn>, s: State, i: nat)
    returns (tr: seq<State>, evs: seq<Event>)
    requires LoopRun(c, until, ls, ts) && i < |ls| && StandsFor(s, ls[0])
    ensures Steps(c, tr, evs) && tr[0] == s && StandsFor(tr[|tr| - 1], ls[i])
  {
    if i == 0 {
      tr, evs := [s], [];
    } else {
      tr, evs := LoopIsRun(c, until, ls, ts, s, i - 1);
      LoopInvariant(c, until, ls, ts, i - 1);
      assert TurnAt(c, until, ls, ts, i - 1);
      if ts[i - 1].Handle? {
        var s1, ev, tr', evs' := TurnIsRun(c, until, ls[i - 1], ts[i - 1], tr[|tr| - 1]);
        StepsJoin(c, tr, evs, ev, tr', evs');
        tr, evs := tr + tr', evs + ([ev] + evs');
      }
    }
  }

  /** What the loop assumes of its store holds in every reachable one-Krakend state with the ConfigMap in place. */
  lemma ReachableIsHealthy(c: Config, kname: string, tr: seq<State>, evs: seq<Event>, i: nat)
    requires OneKrakendRun(c, kname, tr, evs) && i < |tr| && tr[i].hist != []
    requires kname in Cur(tr[i]).krakends ==>
               CmName(kname) in Cur(tr[i]).cms && Cur(tr[i]).cms[CmName(kname)].data.Some?
    ensures Healthy(c, Cur(tr[i]))
  {
    RunKeepsProvided(c, kname, tr, evs, i);
    RunKeepsInv(c, tr, evs, i);
    assert StoreOk(tr[i].hist, |tr[i].hist| - 1);
    ProvidedIsHealthy(c, kname, Cur(tr[i]));
  }

  lemma ProvidedIsHealthy(c: Config, kname: string, st: Store)
    requires AllProvidedFor(c.ns, kname, st) && NamesMatch(st.api) && UniqueLive(st.api)
    requires forall k :: k in st.krakends ==> st.krakends[k].name == k
    requires kname in st.krakends ==> CmName(kname) in st.cms && st.cms[CmName(kname)].data.Some?
    ensures Healthy(c, st)
  {
    assert forall k :: k in st.krakends ==> k == kname;
  }
}
