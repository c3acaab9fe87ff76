/** What a bound on the number of busy ApiEndpoints workers buys. */
module OneWorker {
  import opened ApiTypes
  import opened Protocol
  import opened ProtocolInvariant
  import opened ProtocolTheorems
  import opened Totality
  import opened Comeback

  /** The workers in the middle of a reconcile. */
  ghost function Busy(s: State): set<nat> {
    set w | w in s.workers && !s.workers[w].Idle?
  }

  /** No state of the run has more than `bound` busy workers. */
  ghost predicate Bounded(tr: seq<State>, bound: nat) {
    forall i :: 0 <= i < |tr| ==> |Busy(tr[i])| <= bound
  }

  lemma OneBusy(s: State, v: nat, w: nat)
    requires |Busy(s)| <= 1 && !At(s, v).Idle? && !At(s, w).Idle?
    ensures v == w
  {
    assert {v, w} <= Busy(s);
    SubsetSize({v, w}, Busy(s));
  }

  lemma SubsetSize<T>(a: set<T>, b: set<T>)
    requires a <= b
    ensures |a| <= |b|
  {
    assert b == a + (b - a);
  }

  // ----- snapshots -----

  /** Listings are used in the order in which they were taken; nobody holds one older than the last used. */
  ghost predicate InListingOrder(s: State) {
    && (forall i, j :: 0 <= i < j < |s.log| ==> s.log[i].listRev <= s.log[j].listRev)
    && (forall w: nat, i :: At(s, w).HaveList? && 0 <= i < |s.log| ==> s.log[i].listRev <= At(s, w).listRev)
  }

  lemma ListedRevisions(s: State, i: nat)
    requires LogOk(s.hist, s.log) && i < |s.log|
    ensures s.log[i].listRev < |s.hist|
  {
    assert WriteOk(s.hist, s.log[i]);
  }

  lemma UpdateLeavesList(c: Config, s: State, w: nat)
    requires s.hist != [] && At(s, w).HaveList?
    ensures !At(DoUpdateConfigMap(c, s, w), w).HaveList?
  {
  }

  /** The only busy worker has just written; nobody holds a listing any more. */
  lemma NobodyHasList(c: Config, s: State, w: nat, v: nat)
    requires Inv(c, s) && At(s, w).HaveList? && |Busy(s)| <= 1
    ensures !At(DoUpdateConfigMap(c, s, w), v).HaveList?
  {
    UpdateLeavesList(c, s, w);
    if At(DoUpdateConfigMap(c, s, w), v).HaveList? {
      HaveListIsKept(c, s, UpdateConfigMap(w), v);
      OneBusy(s, v, w);
    }
  }

  lemma ListKeepsOrder(c: Config, s: State, ev: Event)
    requires Inv(c, s) && Enabled(c, s, ev) && InListingOrder(s) && Apply(c, s, ev).log == s.log
    ensures InListingOrder(Apply(c, s, ev))
  {
    var s' := Apply(c, s, ev);
    forall w: nat, i | At(s', w).HaveList? && 0 <= i < |s'.log| ensures s'.log[i].listRev <= At(s', w).listRev {
      if ev.ListEndpoints? && ev.w == w {
        ListedRevisions(s, i);
      } else {
        HaveListIsKept(c, s, ev, w);
      }
    }
  }

  lemma StepKeepsOrder(c: Config, s: State, ev: Event)
    requires Inv(c, s) && Enabled(c, s, ev) && InListingOrder(s) && |Busy(s)| <= 1
    ensures InListingOrder(Apply(c, s, ev))
  {
    var s' := Apply(c, s, ev);
    LogFrame(c, s, ev);
    if s'.log == s.log {
      ListKeepsOrder(c, s, ev);
    } else {
      forall i, j | 0 <= i < j < |s'.log| ensures s'.log[i].listRev <= s'.log[j].listRev {
        assert s'.log[i] == s.log[i];
        if j < |s.log| { assert s'.log[j] == s.log[j]; }
      }
      forall v: nat ensures !At(s', v).HaveList? {
        NobodyHasList(c, s, ev.w, v);
      }
    }
  }

  lemma {:induction false} OneWorkerOrder(c: Config, tr: seq<State>, evs: seq<Event>, t: nat)
    requires Run(c, tr, evs) && Bounded(tr, 1) && t < |tr|
    ensures InListingOrder(tr[t])
  {
    if t > 0 {
      OneWorkerOrder(c, tr, evs, t - 1);
      RunKeepsInv(c, tr, evs, t - 1);
      assert StepAt(c, tr, evs, t - 1);
      StepKeepsOrder(c, tr[t - 1], evs[t - 1]);
    }
  }

  /** With at most one busy worker, every update uses a listing no older than any update before it. */
  lemma OneWorkerMonotone(c: Config, tr: seq<State>, evs: seq<Event>, t: nat, i: nat, j: nat)
    requires Run(c, tr, evs) && Bounded(tr, 1) && t < |tr| && i < j < |tr[t].log|
    ensures tr[t].log[i].listRev <= tr[t].log[j].listRev
  {
    OneWorkerOrder(c, tr, evs, t);
  }

  // ----- releases -----

  /** A release while nobody else is busy is final for every ConfigMap, whatever happens later. */
  lemma LoneReleaseIsFinal(c: Config, tr: seq<State>, evs: seq<Event>, i: nat, m: string, n: string)
    requires Run(c, tr, evs) && i < |evs| && tr[i].hist != [] && tr[i + 1].hist != []
    requires LosesFinalizer(Cur(tr[i]), Cur(tr[i + 1]), m)
    requires forall w: nat :: !At(tr[i], w).Idle? ==> At(tr[i], w).Cleared?
    ensures !ComesBack(c, tr[i + 1], n, Cur(tr[i]).api[m].uid)
  {
    DeletionIsFinal(c, tr, evs, i, m, n);
  }

  lemma StepsSuffix(c: Config, tr: seq<State>, evs: seq<Event>, i: nat)
    requires Steps(c, tr, evs) && i < |tr|
    ensures Steps(c, tr[i..], evs[i..])
  {
    forall k | 0 <= k < |evs[i..]| ensures StepAt(c, tr[i..], evs[i..], k) {
      assert StepAt(c, tr, evs, i + k);
    }
  }

  /** No entry from `from` on, to whichever ConfigMap, lists identity `u`. */
  ghost predicate OmittedAfter(log: seq<Write>, from: nat, u: nat) {
    forall j :: from <= j < |log| ==> Omits(log[j], u)
  }

  /** After every release in the run, no later update of any ConfigMap lists the released resource. */
  ghost predicate ReleasesFinal(tr: seq<State>) {
    forall i: nat, m, u: nat :: Released(tr, i, m, u) ==> OmittedAfter(tr[|tr| - 1].log, |tr[i + 1].log|, u)
  }

  lemma OneWorkerRelease(c: Config, tr: seq<State>, evs: seq<Event>, i: nat, m: string, u: nat, j: nat)
    requires Run(c, tr, evs) && Bounded(tr, 1) && Released(tr, i, m, u)
    requires |tr[i + 1].log| <= j < |tr[|tr| - 1].log|
    ensures Omits(tr[|tr| - 1].log[j], u)
  {
    LoneAtRelease(c, tr, evs, i, m);
    var n, rest, evs' := tr[|tr| - 1].log[j].cm, tr[i + 1..], evs[i + 1..];
    LoneReleaseIsFinal(c, tr, evs, i, m, n);
    StepsSuffix(c, tr, evs, i + 1);
    assert rest[0] == tr[i + 1] && rest[|rest| - 1] == tr[|tr| - 1];
    assert !WritesBack(c, tr[i + 1], rest, evs', j, n, u);
  }

  lemma LoneAtRelease(c: Config, tr: seq<State>, evs: seq<Event>, i: nat, m: string)
    requires Run(c, tr, evs) && Bounded(tr, 1) && i < |evs| && tr[i].hist != [] && tr[i + 1].hist != []
    requires LosesFinalizer(Cur(tr[i]), Cur(tr[i + 1]), m)
    ensures forall w: nat :: !At(tr[i], w).Idle? ==> At(tr[i], w).Cleared?
  {
    FinalizerGuardsDeletion(c, tr, evs, i, m);
    assert StepAt(c, tr, evs, i);
    forall w: nat | !At(tr[i], w).Idle? ensures At(tr[i], w).Cleared? {
      OneBusy(tr[i], w, evs[i].w);
    }
  }

  lemma OneWorkerFinal(c: Config, tr: seq<State>, evs: seq<Event>)
    requires Run(c, tr, evs) && Bounded(tr, 1)
    ensures ReleasesFinal(tr)
  {
    forall i: nat, m, u: nat | Released(tr, i, m, u)
      ensures OmittedAfter(tr[|tr| - 1].log, |tr[i + 1].log|, u)
    {
      var log := tr[|tr| - 1].log;
      forall j | |tr[i + 1].log| <= j < |log| ensures Omits(log[j], u) {
        OneWorkerRelease(c, tr, evs, i, m, u, j);
      }
    }
  }

  // ----- stranded endpoints -----

  /** A write lists an identity exactly when it was live at the listing. */
  lemma OmitsIffDead(c: Config, tr: seq<State>, evs: seq<Event>, t: nat, j: nat, u: nat)
    requires Run(c, tr, evs) && t < |tr| && j < |tr[t].log|
    ensures tr[t].log[j].listRev < |tr[t].hist|
    ensures Omits(tr[t].log[j], u) <==> Dead(tr[t].hist[tr[t].log[j].listRev], u)
  {
    RunKeepsInv(c, tr, evs, t);
    ListingOmitsIffDead(tr[t].hist, tr[t].log[j], u);
  }

  lemma ListingOmitsIffDead(hist: seq<Store>, w: Write, u: nat)
    requires WriteOk(hist, w)
    ensures Omits(w, u) <==> Dead(hist[w.listRev], u)
  {
    var api, live := hist[w.listRev].api, LiveOf(hist[w.listRev].api);
    forall x | x in w.items ensures x.name in api && api[x.name] == x && !x.deleting {
      var i :| 0 <= i < |w.items| && w.items[i] == x;
      assert live[x.name] == x;
    }
    forall n | n in api && api[n].uid == u && !api[n].deleting ensures api[n] in w.items {
      assert n in live && live[n] == api[n];
    }
  }

  /** Since the first resource was there, the one Krakend is there. */
  ghost predicate KrakendKept(hist: seq<Store>, kname: string) {
    forall r, r' :: 0 <= r <= r' < |hist| && hist[r].api != map[] ==> kname in hist[r'].krakends
  }

  lemma KrakendsGrow(c: Config, kname: string, s: State, ev: Event)
    requires Enabled(c, s, ev) && KeepsProviders(kname, s, ev) && kname in Cur(s).krakends
    ensures kname in Cur(Apply(c, s, ev)).krakends
  {
  }

  /** The first resource is created by a user, and admitted only if its Krakend exists. */
  lemma FirstResource(c: Config, kname: string, s: State, ev: Event)
    requires Inv(c, s) && Enabled(c, s, ev) && AllProvidedFor(c.ns, kname, Cur(s))
    requires Cur(s).api == map[] && Cur(Apply(c, s, ev)).api != map[]
    ensures kname in Cur(s).krakends
  {
    if !(ev.UserCreate? || ev.UserUpdate? || ev.UserDelete? || ev.RemoveFinalizer?
         || ev.UpdateEndpoints? || ev.UpdateStatus?) {
      OthersKeepApi(c, s, ev);
    }
  }

  lemma NextKeepsKrakend(c: Config, kname: string, tr: seq<State>, evs: seq<Event>, i: nat)
    requires OneKrakendRun(c, kname, tr, evs) && i < |evs| && tr[i].hist != [] && KrakendKept(tr[i].hist, kname)
    ensures KrakendKept(tr[i + 1].hist, kname)
  {
    RunKeepsInv(c, tr, evs, i);
    RunKeepsProvided(c, kname, tr, evs, i);
    StepExtendsHistory(c, tr, evs, i);
    NewStoreHasKrakend(c, kname, tr, evs, i);
    var h, h' := tr[i].hist, tr[i + 1].hist;
    forall r, r' | 0 <= r <= r' < |h'| && h'[r].api != map[] ensures kname in h'[r'].krakends {
      if r' < |h| { assert h'[r'] == h[r'] && h'[r] == h[r]; }
      else if r < |h| { assert h'[r] == h[r] && kname in h[|h| - 1].krakends; }
    }
  }

  lemma NewStoreHasKrakend(c: Config, kname: string, tr: seq<State>, evs: seq<Event>, i: nat)
    requires OneKrakendRun(c, kname, tr, evs) && i < |evs| && tr[i].hist != [] && tr[i + 1].hist != []
    requires Inv(c, tr[i]) && AllProvidedFor(c.ns, kname, Cur(tr[i])) && KrakendKept(tr[i].hist, kname)
    ensures kname in Cur(tr[i]).krakends ==> kname in Cur(tr[i + 1]).krakends
    ensures Cur(tr[i + 1]).api != map[] ==> kname in Cur(tr[i + 1]).krakends
  {
    var s, ev := tr[i], evs[i];
    assert StepAt(c, tr, evs, i);
    assert KeepsProviders(kname, s, ev);
    if kname in Cur(s).krakends { KrakendsGrow(c, kname, s, ev); }
    else if Cur(tr[i + 1]).api != map[] {
      assert s.hist[|s.hist| - 1].api == map[];
      FirstResource(c, kname, s, ev);
    }
  }

  lemma {:induction false} RunKeepsKrakend(c: Config, kname: string, tr: seq<State>, evs: seq<Event>, t: nat)
    requires OneKrakendRun(c, kname, tr, evs) && t < |tr|
    ensures tr[t].hist != [] && KrakendKept(tr[t].hist, kname)
  {
    RunKeepsInv(c, tr, evs, t);
    if t > 0 {
      RunKeepsKrakend(c, kname, tr, evs, t - 1);
      NextKeepsKrakend(c, kname, tr, evs, t - 1);
    }
  }

  /** With one lasting Krakend and one worker, none of the causes applies to a release that names the Krakend. */
  lemma NamedReleaseOmitted(c: Config, kname: string, tr: seq<State>, evs: seq<Event>, t: nat,
                            i: nat, m: string, j: nat, u: nat)
    requires OneKrakendRun(c, kname, tr, evs) && Bounded(tr, 1) && i < t < |tr| && Released(tr, i, m, u)
    requires KrakendName(c.ns, Cur(tr[i]).api[m].spec) == kname && LastWrite(tr[t].log, CmName(kname), j)
    ensures Omits(tr[t].log[j], u)
  {
    if !Omits(tr[t].log[j], u) {
      ReleaseStrands(c, tr, evs, i, m, t, CmName(kname), j, u);
      RunKeepsKrakend(c, kname, tr, evs, i);
      OneWorkerOrder(c, tr, evs, t);
      assert false;
    }
  }

  /**
    With one lasting Krakend and at most one busy worker, an identity that held the finalizer and has left
    was released, and it is out of the Krakend's ConfigMap if its spec named the Krakend then; in any case
    it is in there exactly when it was live at the listing of the last update.
   */
  lemma OneWorkerStranding(c: Config, kname: string, tr: seq<State>, evs: seq<Event>, t: nat, j: nat, u: nat)
    requires OneKrakendRun(c, kname, tr, evs) && Bounded(tr, 1) && t < |tr| && tr[t].hist != []
    requires EverHeld(tr[t].hist, u) && Gone(Cur(tr[t]), u) && LastWrite(tr[t].log, CmName(kname), j)
    ensures exists i: nat, m :: i < t && Released(tr, i, m, u)
                                && (KrakendName(c.ns, Cur(tr[i]).api[m].spec) == kname ==> Omits(tr[t].log[j], u))
    ensures tr[t].log[j].listRev < |tr[t].hist|
    ensures Omits(tr[t].log[j], u) <==> Dead(tr[t].hist[tr[t].log[j].listRev], u)
  {
    HeldOrReleased(c, tr, evs, t, u);
    OmitsIffDead(c, tr, evs, t, j, u);
    var i: nat, m :| i < t && Released(tr, i, m, u);
    if KrakendName(c.ns, Cur(tr[i]).api[m].spec) == kname {
      NamedReleaseOmitted(c, kname, tr, evs, t, i, m, j, u);
    }
  }
}
