/** A worker's write to its resource goes through exactly if the resource is still what the worker read. */
module WorkerWrites {
  import opened ApiTypes
  import opened Admission
  import opened Protocol
  import opened ProtocolInvariant
  import opened ProtocolTheorems
  import opened Comeback

  const FINALIZER := "finalizer.krakend.nais.io"

  /** The store holds `e`, field by field. */
  ghost predicate Holds(st: Store, e: ApiEndpoints) {
    e.name in st.api && st.api[e.name] == e
  }

  /** In reachable states an equal version means an equal object. */
  lemma VersionIsObject(c: Config, s: State, e: ApiEndpoints)
    requires Inv(c, s) && Faithful(s.hist, e)
    ensures e.name in Cur(s).api && Cur(s).api[e.name].version == e.version <==> Holds(Cur(s), e)
  {
    if e.name in Cur(s).api && Cur(s).api[e.name].version == e.version {
      SnapshotCurrent(c, s, e);
    }
  }

  /**
    The finalizer is taken off exactly the object that was read and marked for deletion; if that was the
    last finalizer the resource is gone.  If the object has changed, nothing happens.
   */
  lemma RemovalSwaps(c: Config, tr: seq<State>, evs: seq<Event>, t: nat, w: nat)
    requires Run(c, tr, evs) && t < |tr| && tr[t].hist != [] && At(tr[t], w).Cleared?
    ensures var s, s', e := tr[t], DoRemoveFinalizer(tr[t], w), At(tr[t], w).e;
            var st, st' := Cur(s), Cur(s');
            && At(s', w).Idle? && e.deleting
            && if Holds(st, e) && FINALIZER in e.finalizers then
                 st' == st.(api := if e.finalizers == {FINALIZER} then st.api - {e.name} else
                                     st.api[e.name := e.(version := |s.hist|,
                                                         finalizers := e.finalizers - {FINALIZER})])
               else s'.hist == s.hist
  {
    RunKeepsInv(c, tr, evs, t);
    var s, e := tr[t], At(tr[t], w).e;
    assert WorkerOk(c, s, At(s, w));
    VersionIsObject(c, s, e);
    assert FINALIZER in e.finalizers ==> (e.finalizers - {FINALIZER} == {} <==> e.finalizers == {FINALIZER});
  }

  /**
    The claim is made on exactly the object that was refetched, unless that is marked for deletion without
    the finalizer or admission refuses it; it adds the finalizer and a missing owner.  Otherwise nothing
    happens and the worker gives up.
   */
  lemma ClaimSwaps(c: Config, tr: seq<State>, evs: seq<Event>, t: nat, w: nat)
    requires Run(c, tr, evs) && t < |tr| && tr[t].hist != [] && At(tr[t], w).Claiming?
    ensures var s, s', pc := tr[t], DoUpdateEndpoints(c, tr[t], w), At(tr[t], w);
            var st, st', e := Cur(s), Cur(s'), pc.base;
            var claimed := e.(finalizers := e.finalizers + {FINALIZER},
                              owners := if e.owners == [] then [OwnerRef(pc.k.name, pc.k.uid)] else e.owners);
            if Holds(st, e) && (e.deleting ==> FINALIZER in e.finalizers)
               && Admitted(c.ns, st.krakends, st.api, claimed)
            then && st' == st.(api := st.api[e.name := claimed.(version := |s.hist|)])
                 && At(s', w) == Claimed(pc.name, pc.hash)
            else s'.hist == s.hist && At(s', w).Idle?
  {
    RunKeepsInv(c, tr, evs, t);
    var s, pc := tr[t], At(tr[t], w);
    assert WorkerOk(c, s, pc);
    VersionIsObject(c, s, pc.base);
    assert pc.base.finalizers + {FINALIZER} <= pc.base.finalizers <==> FINALIZER in pc.base.finalizers;
    assert FINALIZER in pc.base.finalizers + {FINALIZER};
  }

  /** Hash and time are recorded on exactly the object that was refetched, and nothing else of it changes. */
  lemma StatusSwaps(c: Config, tr: seq<State>, evs: seq<Event>, t: nat, w: nat)
    requires Run(c, tr, evs) && t < |tr| && tr[t].hist != [] && At(tr[t], w).Recording?
    ensures var s, s', pc := tr[t], DoUpdateStatus(tr[t], w), At(tr[t], w);
            var st, st', e := Cur(s), Cur(s'), pc.base;
            && At(s', w).Idle?
            && if Holds(st, e) then
                 st' == st.(api := st.api[e.name := e.(version := |s.hist|, status := Status(s.clock, pc.hash))])
               else s'.hist == s.hist
  {
    RunKeepsInv(c, tr, evs, t);
    var s, pc := tr[t], At(tr[t], w);
    assert WorkerOk(c, s, pc);
    VersionIsObject(c, s, pc.base);
  }

  // ----- no lost update -----

  /** A step that writes an object gives it a version never seen before. */
  lemma StepFrame(c: Config, s: State, ev: Event, n: string)
    requires Inv(c, s) && Enabled(c, s, ev) && n in Cur(Apply(c, s, ev)).api
    ensures var e := Cur(Apply(c, s, ev)).api[n];
            e.version == |s.hist| || (n in Cur(s).api && Cur(s).api[n] == e)
  {
    if ev.UserCreate? || ev.UserUpdate? || ev.UserDelete? {
      UserStepPuts(c, s, ev);
      PutStampsObject(Cur(s), UserObject(s, ev), |s.hist|, n);
    } else if !(ev.RemoveFinalizer? || ev.UpdateEndpoints? || ev.UpdateStatus?) {
      OthersKeepApi(c, s, ev);
    }
  }

  lemma PutStampsObject(st: Store, e: ApiEndpoints, rev: nat, n: string)
    requires n in PutApi(st, e, rev).api
    ensures PutApi(st, e, rev).api[n].version == rev || (n in st.api && PutApi(st, e, rev).api[n] == st.api[n])
  {
  }

  /** At revision `r` every object is new or as it was before. */
  ghost predicate FramedAt(hist: seq<Store>, r: nat)
    requires 0 < r < |hist|
  {
    forall n :: n in hist[r].api ==>
      hist[r].api[n].version == r || (n in hist[r - 1].api && hist[r - 1].api[n] == hist[r].api[n])
  }

  ghost predicate Framed(hist: seq<Store>) {
    forall r :: 0 < r < |hist| ==> FramedAt(hist, r)
  }

  lemma {:induction false} RunIsFramed(c: Config, tr: seq<State>, evs: seq<Event>, t: nat)
    requires Run(c, tr, evs) && t < |tr|
    ensures Framed(tr[t].hist)
  {
    if t > 0 {
      RunIsFramed(c, tr, evs, t - 1);
      StepIsFramed(c, tr, evs, t - 1);
    }
  }

  lemma StepIsFramed(c: Config, tr: seq<State>, evs: seq<Event>, t: nat)
    requires Run(c, tr, evs) && t < |evs| && Framed(tr[t].hist)
    ensures Framed(tr[t + 1].hist)
  {
    RunKeepsInv(c, tr, evs, t);
    StepExtendsHistory(c, tr, evs, t);
    var h, h' := tr[t].hist, tr[t + 1].hist;
    forall r | 0 < r < |h'| ensures FramedAt(h', r) {
      assert h'[r - 1] == h[r - 1];
      if r < |h| {
        assert FramedAt(h, r) && h'[r] == h[r];
      } else {
        NewestIsFramed(c, tr, evs, t);
      }
    }
  }

  lemma NewestIsFramed(c: Config, tr: seq<State>, evs: seq<Event>, t: nat)
    requires Run(c, tr, evs) && t < |evs| && Inv(c, tr[t]) && |tr[t + 1].hist| == |tr[t].hist| + 1
    requires tr[t + 1].hist == tr[t].hist + [Cur(tr[t + 1])]
    ensures FramedAt(tr[t + 1].hist, |tr[t].hist|)
  {
    assert StepAt(c, tr, evs, t);
    forall n | n in Cur(tr[t + 1]).api
      ensures var e := Cur(tr[t + 1]).api[n];
              e.version == |tr[t].hist| || (n in Cur(tr[t]).api && Cur(tr[t]).api[n] == e)
    {
      StepFrame(c, tr[t], evs[t], n);
    }
  }

  lemma {:induction false} SameSince(hist: seq<Store>, n: string, r: nat, r': nat)
    requires Framed(hist) && r <= r' < |hist| && n in hist[r'].api && hist[r'].api[n].version <= r
    ensures n in hist[r].api && hist[r].api[n] == hist[r'].api[n]
  {
    if r < r' {
      assert FramedAt(hist, r');
      SameSince(hist, n, r, r' - 1);
    }
  }

  /** The object a worker is about to write: what it read last. */
  function Snapshot(pc: Pc): ApiEndpoints
    requires pc.Cleared? || pc.Claiming? || pc.Recording?
  {
    if pc.Cleared? then pc.e else pc.base
  }

  /** When a worker's write goes through, nobody has changed the resource at any revision since it was read. */
  lemma NoLostUpdate(c: Config, tr: seq<State>, evs: seq<Event>, t: nat, w: nat, r: nat)
    requires Run(c, tr, evs) && t < |tr| && tr[t].hist != []
    requires At(tr[t], w).Cleared? || At(tr[t], w).Claiming? || At(tr[t], w).Recording?
    requires Holds(Cur(tr[t]), Snapshot(At(tr[t], w))) && Snapshot(At(tr[t], w)).version <= r < |tr[t].hist|
    ensures Holds(tr[t].hist[r], Snapshot(At(tr[t], w)))
  {
    RunIsFramed(c, tr, evs, t);
    SameSince(tr[t].hist, Snapshot(At(tr[t], w)).name, r, |tr[t].hist| - 1);
  }
}
