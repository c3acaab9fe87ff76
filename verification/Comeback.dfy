/** When a deleted resource can still be written back, and what strands its endpoints. */
module Comeback {
  import opened ApiTypes
  import opened Sequences
  import opened Admission
  import opened Protocol
  import opened ProtocolInvariant
  import opened ProtocolTheorems

  /**
    Worker `w` is about to update ConfigMap `n` from a listing that still has identity `u`, and the
    ConfigMap still has the version `w` read, so the update will go through.
   */
  ghost predicate Threatens(s: State, w: nat, n: string, u: nat)
    requires s.hist != []
  {
    var pc := At(s, w);
    && pc.HaveList? && CmName(pc.k.name) == n && GoesThrough(s, w)
    && exists x :: x in pc.items && x.uid == u
  }

  ghost predicate Threatened(s: State, n: string, u: nat)
    requires s.hist != []
  {
    exists w: nat :: Threatens(s, w, n, u)
  }

  /** The run `tr` from `s` on logs, as entry `j`, an update of ConfigMap `n` that lists identity `u`. */
  ghost predicate WritesBack(c: Config, s: State, tr: seq<State>, evs: seq<Event>, j: nat, n: string, u: nat) {
    && Steps(c, tr, evs) && tr[0] == s
    && |s.log| <= j < |tr[|tr| - 1].log|
    && tr[|tr| - 1].log[j].cm == n && !Omits(tr[|tr| - 1].log[j], u)
  }

  /** Some continuation of `s` writes identity `u` to ConfigMap `n`. */
  ghost predicate ComesBack(c: Config, s: State, n: string, u: nat) {
    exists tr, evs, j: nat :: WritesBack(c, s, tr, evs, j, n, u)
  }

  /** Identity `u` is dead in `s`, and no worker is about to write it to `n`. */
  ghost predicate Harmless(c: Config, s: State, n: string, u: nat) {
    Inv(c, s) && u < |s.hist| && Dead(Cur(s), u) && !Threatened(s, n, u)
  }

  // ----- one step -----

  /** A ConfigMap keeps its version or gets one never seen before. */
  lemma VersionFrame(c: Config, s: State, ev: Event, n: string)
    requires Inv(c, s) && Enabled(c, s, ev) && n in Cur(Apply(c, s, ev)).cms
    ensures var v := Cur(Apply(c, s, ev)).cms[n].version;
            v == |s.hist| || (n in Cur(s).cms && Cur(s).cms[n].version == v)
  {
    if ev.UpdateConfigMap? {
      if GoesThrough(s, ev.w) { WriteShape(c, s, ev.w); }
    } else if !(ev.PutConfigMap? || ev.DeleteConfigMap? || ev.KCreate? || ev.KUpdate?) {
      OthersKeepCms(c, s, ev);
    }
  }

  /** Only the listing call leads to the position before the update. */
  lemma HaveListIsKept(c: Config, s: State, ev: Event, w: nat)
    requires Enabled(c, s, ev) && At(Apply(c, s, ev), w).HaveList? && !(ev.ListEndpoints? && ev.w == w)
    ensures At(Apply(c, s, ev), w) == At(s, w)
  {
  }

  lemma {:induction false} ListedIsLive(s: State, w: nat, listed: seq<ApiEndpoints>, u: nat)
    requires s.hist != [] && At(s, w).HaveConfigMap? && Enumerates(Cur(s).api, listed) && Dead(Cur(s), u)
    requires AfterList(s, At(s, w), listed).HaveList?
    ensures forall x :: x in AfterList(s, At(s, w), listed).items ==> x.uid != u
  {
    FilterLiveMembers(listed);
    forall x | x in FilterLive(listed) ensures x.uid != u {
      var i :| 0 <= i < |listed| && listed[i] == x;
      assert x.name in Cur(s).api && Cur(s).api[x.name] == x;
    }
  }

  /** Once an identity is dead, no step makes a new threat of it. */
  lemma ThreatIsOld(c: Config, s: State, ev: Event, w: nat, n: string, u: nat)
    requires Inv(c, s) && Enabled(c, s, ev) && Dead(Cur(s), u)
    requires Apply(c, s, ev).hist != [] && Threatens(Apply(c, s, ev), w, n, u)
    ensures Threatens(s, w, n, u)
  {
    var s' := Apply(c, s, ev);
    if ev.ListEndpoints? && ev.w == w {
      ListedIsLive(s, w, ev.listed, u);
      assert false;
    } else {
      HaveListIsKept(c, s, ev, w);
      assert WorkerOk(c, s, At(s, w));
      VersionFrame(c, s, ev, n);
    }
  }

  /** The log grows only by an update that goes through. */
  lemma LogFrame(c: Config, s: State, ev: Event)
    requires Inv(c, s) && Enabled(c, s, ev)
    ensures var s' := Apply(c, s, ev);
            || s'.log == s.log
            || (&& ev.UpdateConfigMap? && At(s, ev.w).HaveList? && GoesThrough(s, ev.w)
                && |s'.log| == |s.log| + 1 && s.log <= s'.log
                && s'.log[|s.log|].cm == CmName(At(s, ev.w).k.name)
                && s'.log[|s.log|].items == At(s, ev.w).items && s'.log[|s.log|].listRev == At(s, ev.w).listRev)
  {
    if ev.UpdateConfigMap? && GoesThrough(s, ev.w) {
      WriteShape(c, s, ev.w);
    }
  }

  /** Every entry from `from` on that goes to `n` omits `u`. */
  ghost predicate OmittedSince(log: seq<Write>, from: nat, n: string, u: nat) {
    forall j :: from <= j < |log| && log[j].cm == n ==> Omits(log[j], u)
  }

  lemma StepKeepsHarmless(c: Config, s: State, ev: Event, n: string, u: nat)
    requires ConfigOk(c) && Harmless(c, s, n, u) && Enabled(c, s, ev)
    ensures Harmless(c, Apply(c, s, ev), n, u)
  {
    var s' := Apply(c, s, ev);
    StepKeepsInv(c, s, ev);
    StepGrows(c, s, ev);
    assert s'.hist[|s.hist| - 1] == Cur(s);
    forall w: nat ensures !Threatens(s', w, n, u) {
      if Threatens(s', w, n, u) { ThreatIsOld(c, s, ev, w, n, u); }
    }
  }

  lemma StepOmits(c: Config, s: State, ev: Event, from: nat, n: string, u: nat)
    requires Harmless(c, s, n, u) && Enabled(c, s, ev) && OmittedSince(s.log, from, n, u)
    ensures OmittedSince(Apply(c, s, ev).log, from, n, u)
  {
    LogFrame(c, s, ev);
    var s' := Apply(c, s, ev);
    if s'.log != s.log {
      var entry := s'.log[|s.log|];
      assert entry.cm == n ==> Omits(entry, u) by {
        if entry.cm == n && !Omits(entry, u) { assert Threatens(s, ev.w, n, u); }
      }
      forall j | from <= j < |s'.log| && s'.log[j].cm == n ensures Omits(s'.log[j], u) {
        if j < |s.log| { assert s'.log[j] == s.log[j]; }
      }
    }
  }

  // ----- every continuation -----

  lemma HarmlessStays(c: Config, tr: seq<State>, evs: seq<Event>, i: nat, n: string, u: nat)
    requires ConfigOk(c) && Steps(c, tr, evs) && i < |tr| && Harmless(c, tr[0], n, u)
    ensures Harmless(c, tr[i], n, u) && OmittedSince(tr[i].log, |tr[0].log|, n, u)
  {
    var from := |tr[0].log|;
    var bs := seq(|tr|, k requires 0 <= k < |tr| => Harmless(c, tr[k], n, u) && OmittedSince(tr[k].log, from, n, u));
    forall k | 0 <= k < |bs| - 1 && bs[k] ensures bs[k + 1] {
      HarmlessNext(c, tr, evs, k, from, n, u);
    }
    Chain(bs, i);
  }

  lemma HarmlessNext(c: Config, tr: seq<State>, evs: seq<Event>, i: nat, from: nat, n: string, u: nat)
    requires ConfigOk(c) && Steps(c, tr, evs) && i < |evs|
    requires Harmless(c, tr[i], n, u) && OmittedSince(tr[i].log, from, n, u)
    ensures Harmless(c, tr[i + 1], n, u) && OmittedSince(tr[i + 1].log, from, n, u)
  {
    assert StepAt(c, tr, evs, i);
    StepKeepsHarmless(c, tr[i], evs[i], n, u);
    StepOmits(c, tr[i], evs[i], from, n, u);
  }

  lemma ThreatComesTrue(c: Config, s: State, w: nat, n: string, u: nat)
    requires Inv(c, s) && Threatens(s, w, n, u)
    ensures ComesBack(c, s, n, u)
  {
    var ev := UpdateConfigMap(w);
    var s' := DoUpdateConfigMap(c, s, w);
    ThreatIsWritten(c, s, w, n, u);
    var tr, evs := [s, s'], [ev];
    assert StepAt(c, tr, evs, 0);
    assert WritesBack(c, s, tr, evs, |s.log|, n, u);
  }

  /** The update that a threat stands for goes through and lists the identity. */
  lemma ThreatIsWritten(c: Config, s: State, w: nat, n: string, u: nat)
    requires Inv(c, s) && Threatens(s, w, n, u)
    ensures var log := DoUpdateConfigMap(c, s, w).log;
            |log| == |s.log| + 1 && log[|s.log|].cm == n && !Omits(log[|s.log|], u)
  {
    WriteShape(c, s, w);
  }

  /**
    In any reachable state, some continuation writes the dead identity `u` to ConfigMap `n` if and only
    if some worker is already about to: nothing that happens later can bring it back.
   */
  lemma ComesBackIffThreatened(c: Config, tr: seq<State>, evs: seq<Event>, t: nat, n: string, u: nat)
    requires Run(c, tr, evs) && t < |tr| && u < |tr[t].hist| && Dead(Cur(tr[t]), u)
    ensures ComesBack(c, tr[t], n, u) <==> Threatened(tr[t], n, u)
  {
    RunKeepsInv(c, tr, evs, t);
    InvComesBackIff(c, tr[t], n, u);
  }

  lemma InvComesBackIff(c: Config, s: State, n: string, u: nat)
    requires ConfigOk(c) && Inv(c, s) && u < |s.hist| && Dead(Cur(s), u)
    ensures ComesBack(c, s, n, u) <==> Threatened(s, n, u)
  {
    if w: nat :| Threatens(s, w, n, u) {
      ThreatComesTrue(c, s, w, n, u);
    } else if ComesBack(c, s, n, u) {
      var tr, evs, j: nat :| WritesBack(c, s, tr, evs, j, n, u);
      HarmlessStays(c, tr, evs, |tr| - 1, n, u);
      assert false;
    }
  }

  // ----- guarded deletions -----

  /** An effective write from a listing without `u` disarms every worker for its ConfigMap. */
  lemma EffectiveWriteDisarms(c: Config, s: State, k: nat, w: nat, u: nat)
    requires Inv(c, s) && k < |s.log| && s.log[k].effective
    requires u <= s.log[k].listRev < |s.hist| && Dead(s.hist[s.log[k].listRev], u)
    ensures !Threatens(s, w, s.log[k].cm, u)
  {
    var pc := At(s, w);
    if pc.HaveList? && CmName(pc.k.name) == s.log[k].cm && GoesThrough(s, w) {
      assert WorkerOk(c, s, pc) && WriteOk(s.hist, s.log[k]);
      assert s.log[k].listRev <= pc.listRev;
      assert Dead(s.hist[pc.listRev], u);
      forall x | x in pc.items ensures x.uid != u {
        var i :| 0 <= i < |pc.items| && pc.items[i] == x;
        assert LiveOf(s.hist[pc.listRev].api)[x.name] == x;
      }
    }
  }

  /** Taking a finalizer off lifts no threat. */
  lemma RemovalKeepsThreats(s: State, v: nat, w: nat, n: string, u: nat)
    requires s.hist != [] && At(s, v).Cleared? && Threatens(s, w, n, u)
    ensures Threatens(DoRemoveFinalizer(s, v), w, n, u)
  {
    var s' := DoRemoveFinalizer(s, v);
    assert At(s', w) == At(s, w) && Cur(s').cms == Cur(s).cms;
  }

  /** ConfigMap `n` was written from a listing in which `e` was deleting already, with a version of its own. */
  ghost predicate ClearedByOwnWrite(c: Config, s: State, e: ApiEndpoints, n: string) {
    exists r, k: nat ::
      && 0 <= r < |s.hist| && e.name in s.hist[r].api && s.hist[r].api[e.name] == e
      && k < |s.log| && s.log[k].cm == n && r <= s.log[k].listRev
      && (c.everyWriteCounts || s.log[k].effective)
  }

  /**
    The end of a guarded resource: it is safely cleared when it loses its finalizer, and from then on it
    is written back to a ConfigMap by some continuation if and only if, at that moment, a worker is
    about to do so.  A clearing write with a resource version of its own rules that out.
   */
  lemma DeletionIsFinal(c: Config, tr: seq<State>, evs: seq<Event>, i: nat, m: string, n: string)
    requires Run(c, tr, evs) && i < |evs| && tr[i].hist != [] && tr[i + 1].hist != []
    requires LosesFinalizer(Cur(tr[i]), Cur(tr[i + 1]), m)
    ensures var e := Cur(tr[i]).api[m];
            && e.deleting && SafelyCleared(c, tr[i], e)
            && (ComesBack(c, tr[i + 1], n, e.uid) <==> Threatened(tr[i], n, e.uid))
            && (ClearedByOwnWrite(c, tr[i], e, n) ==> !ComesBack(c, tr[i + 1], n, e.uid))
  {
    var e := Cur(tr[i]).api[m];
    FinalizerGuardsDeletion(c, tr, evs, i, m);
    DeadAtRemoval(c, tr, evs, i, m);
    ComesBackIffThreatened(c, tr, evs, i + 1, n, e.uid);
    RemovalThreats(c, tr, evs, i, n, e.uid);
    if ClearedByOwnWrite(c, tr[i], e, n) {
      OwnWriteDisarms(c, tr, evs, i, e, n);
    }
  }

  lemma DeadAtRemoval(c: Config, tr: seq<State>, evs: seq<Event>, i: nat, m: string)
    requires Run(c, tr, evs) && i < |evs| && tr[i].hist != [] && tr[i + 1].hist != []
    requires m in Cur(tr[i]).api && Cur(tr[i]).api[m].deleting
    ensures var u := Cur(tr[i]).api[m].uid;
            Dead(Cur(tr[i]), u) && Dead(Cur(tr[i + 1]), u) && u < |tr[i + 1].hist|
  {
    RunKeepsInv(c, tr, evs, i);
    RunKeepsInv(c, tr, evs, i + 1);
    NextGrows(c, tr, evs, i);
    var s, s' := tr[i], tr[i + 1];
    assert StoreOk(s.hist, |s.hist| - 1);
    DeletingIsDead(s.hist, |s.hist| - 1, Cur(s).api[m]);
    assert s'.hist[|s.hist| - 1] == Cur(s);
  }

  lemma RemovalThreats(c: Config, tr: seq<State>, evs: seq<Event>, i: nat, n: string, u: nat)
    requires Run(c, tr, evs) && i < |evs| && evs[i].RemoveFinalizer?
    requires tr[i].hist != [] && tr[i + 1].hist != [] && Dead(Cur(tr[i]), u)
    ensures Threatened(tr[i], n, u) <==> Threatened(tr[i + 1], n, u)
  {
    RunKeepsInv(c, tr, evs, i);
    assert StepAt(c, tr, evs, i);
    var s, s' := tr[i], tr[i + 1];
    if w: nat :| Threatens(s, w, n, u) { RemovalKeepsThreats(s, evs[i].w, w, n, u); }
    if w: nat :| Threatens(s', w, n, u) { ThreatIsOld(c, s, evs[i], w, n, u); }
  }

  lemma OwnWriteDisarms(c: Config, tr: seq<State>, evs: seq<Event>, i: nat, e: ApiEndpoints, n: string)
    requires Run(c, tr, evs) && i < |tr| && e.deleting && ClearedByOwnWrite(c, tr[i], e, n)
    ensures tr[i].hist != [] && !Threatened(tr[i], n, e.uid)
  {
    var s := tr[i];
    RunKeepsInv(c, tr, evs, i);
    var r, k: nat :|
      && 0 <= r < |s.hist| && e.name in s.hist[r].api && s.hist[r].api[e.name] == e
      && k < |s.log| && s.log[k].cm == n && r <= s.log[k].listRev
      && (c.everyWriteCounts || s.log[k].effective);
    if c.everyWriteCounts { AllEffective(c, tr, evs, i); }
    CoveringWriteDisarms(c, s, e, r, k);
  }

  lemma CoveringWriteDisarms(c: Config, s: State, e: ApiEndpoints, r: nat, k: nat)
    requires Inv(c, s) && r < |s.hist| && e.name in s.hist[r].api && s.hist[r].api[e.name] == e && e.deleting
    requires k < |s.log| && r <= s.log[k].listRev && s.log[k].effective
    ensures !Threatened(s, s.log[k].cm, e.uid)
  {
    DeletingIsDead(s.hist, r, e);
    assert WriteOk(s.hist, s.log[k]);
    assert Dead(s.hist[s.log[k].listRev], e.uid);
    forall w: nat ensures !Threatens(s, w, s.log[k].cm, e.uid) {
      EffectiveWriteDisarms(c, s, k, w, e.uid);
    }
  }

  // ----- what a ConfigMap holds -----

  /** Entry `j` is the last successful update of `n`. */
  ghost predicate LastWrite(log: seq<Write>, n: string, j: nat) {
    j < |log| && log[j].cm == n && forall k :: j < k < |log| ==> log[k].cm != n
  }

  ghost predicate HoldsEndpoints(st: Store, n: string) {
    n in st.cms && st.cms[n].data.Some? && st.cms[n].data.value.Partials?
  }

  ghost predicate HoldsLastWrite(s: State, n: string)
    requires s.hist != []
  {
    HoldsEndpoints(Cur(s), n) ==>
      exists j: nat :: LastWrite(s.log, n, j) && s.log[j].endpoints == Cur(s).cms[n].data.value.endpoints
  }

  /** A successful update leaves its own endpoints, also when it changes nothing. */
  lemma WriteLands(c: Config, s: State, w: nat)
    requires Inv(c, s) && At(s, w).HaveList? && GoesThrough(s, w)
    ensures var s', n := DoUpdateConfigMap(c, s, w), CmName(At(s, w).k.name);
            && s'.hist != [] && |s'.log| == |s.log| + 1 && s.log <= s'.log
            && s'.log[|s.log|].cm == n && s'.log[|s.log|].endpoints == At(s, w).out
            && n in Cur(s').cms && Reads(c, Cur(s').cms[n].data, At(s, w).out)
            && forall m :: m != n ==> (m in Cur(s').cms <==> m in Cur(s).cms)
                                      && (m in Cur(s).cms ==> Cur(s').cms[m] == Cur(s).cms[m])
  {
    WriteShape(c, s, w);
  }

  lemma UpdateKeepsLastWrite(c: Config, s: State, w: nat, n: string)
    requires ConfigOk(c) && Inv(c, s) && At(s, w).HaveList? && HoldsLastWrite(s, n)
    ensures HoldsLastWrite(DoUpdateConfigMap(c, s, w), n)
  {
    var s' := DoUpdateConfigMap(c, s, w);
    if GoesThrough(s, w) {
      WriteLands(c, s, w);
      if n == CmName(At(s, w).k.name) {
        assert LastWrite(s'.log, n, |s.log|);
      } else {
        OtherWriteKeepsLast(s, s', n);
      }
    }
  }

  lemma OtherWriteKeepsLast(s: State, s': State, n: string)
    requires s.hist != [] && s'.hist != [] && HoldsLastWrite(s, n)
    requires |s'.log| == |s.log| + 1 && s.log <= s'.log && s'.log[|s.log|].cm != n
    requires HoldsEndpoints(Cur(s'), n) ==> n in Cur(s).cms && Cur(s').cms[n] == Cur(s).cms[n]
    ensures HoldsLastWrite(s', n)
  {
    if HoldsEndpoints(Cur(s'), n) {
      var j: nat :| LastWrite(s.log, n, j) && s.log[j].endpoints == Cur(s).cms[n].data.value.endpoints;
      assert LastWrite(s'.log, n, j);
    }
  }

  /** Other steps create no marshalled content and leave what exists. */
  lemma OtherStepContent(c: Config, s: State, ev: Event, n: string)
    requires Inv(c, s) && Enabled(c, s, ev) && !ev.UpdateConfigMap? && IsPartials(n)
    requires HoldsEndpoints(Cur(Apply(c, s, ev)), n)
    ensures n in Cur(s).cms && Cur(Apply(c, s, ev)).cms[n] == Cur(s).cms[n]
  {
    if ev.PutConfigMap? || ev.DeleteConfigMap? || ev.KCreate? || ev.KUpdate? {
      assert n in Cur(s).cms;
    } else {
      OthersKeepCms(c, s, ev);
    }
  }

  lemma StepKeepsLastWrite(c: Config, s: State, ev: Event, n: string)
    requires ConfigOk(c) && Inv(c, s) && Enabled(c, s, ev) && IsPartials(n) && HoldsLastWrite(s, n)
    ensures Apply(c, s, ev).hist != [] && HoldsLastWrite(Apply(c, s, ev), n)
  {
    StepGrows(c, s, ev);
    if ev.UpdateConfigMap? {
      UpdateKeepsLastWrite(c, s, ev.w, n);
    } else {
      LogFrame(c, s, ev);
      if HoldsEndpoints(Cur(Apply(c, s, ev)), n) { OtherStepContent(c, s, ev, n); }
    }
  }

  /** What a partials ConfigMap holds is what the last successful update of it compiled. */
  lemma {:induction false} ContentIsLastWrite(c: Config, tr: seq<State>, evs: seq<Event>, t: nat, n: string)
    requires Run(c, tr, evs) && t < |tr| && IsPartials(n)
    ensures tr[t].hist != [] && HoldsLastWrite(tr[t], n)
  {
    if t > 0 {
      ContentIsLastWrite(c, tr, evs, t - 1, n);
      NextKeepsLastWrite(c, tr, evs, t - 1, n);
    }
  }

  lemma NextKeepsLastWrite(c: Config, tr: seq<State>, evs: seq<Event>, i: nat, n: string)
    requires Run(c, tr, evs) && i < |evs| && IsPartials(n) && tr[i].hist != [] && HoldsLastWrite(tr[i], n)
    ensures tr[i + 1].hist != [] && HoldsLastWrite(tr[i + 1], n)
  {
    RunKeepsInv(c, tr, evs, i);
    assert StepAt(c, tr, evs, i);
    StepKeepsLastWrite(c, tr[i], evs[i], n);
  }

  // ----- stranded endpoints -----

  ghost predicate Gone(st: Store, u: nat) {
    forall m :: m in st.api ==> st.api[m].uid != u
  }

  ghost predicate HeldBy(st: Store, u: nat) {
    exists m :: m in st.api && st.api[m].uid == u && KRAKEND_FINALIZER in st.api[m].finalizers
  }

  ghost predicate EverHeld(hist: seq<Store>, u: nat) {
    exists r :: 0 <= r < |hist| && HeldBy(hist[r], u)
  }

  /** At step `i` the resource `m` of identity `u` loses the finalizer. */
  ghost predicate Released(tr: seq<State>, i: nat, m: string, u: nat) {
    && i + 1 < |tr| && tr[i].hist != [] && tr[i + 1].hist != []
    && LosesFinalizer(Cur(tr[i]), Cur(tr[i + 1]), m) && Cur(tr[i]).api[m].uid == u
  }

  ghost predicate ReleasedBefore(tr: seq<State>, t: nat, u: nat) {
    exists i: nat, m :: i < t && Released(tr, i, m, u)
  }

  lemma PutKeepsUid(st: Store, e: ApiEndpoints, rev: nat, m: string)
    requires e.name in st.api ==> st.api[e.name].uid == e.uid
    requires m in st.api && m in PutApi(st, e, rev).api
    ensures PutApi(st, e, rev).api[m].uid == st.api[m].uid
  {
  }

  /** No step gives a stored name another identity. */
  lemma StepKeepsUid(c: Config, s: State, ev: Event, m: string)
    requires Inv(c, s) && Enabled(c, s, ev) && m in Cur(s).api && m in Cur(Apply(c, s, ev)).api
    ensures Cur(Apply(c, s, ev)).api[m].uid == Cur(s).api[m].uid
  {
    if ev.UserCreate? || ev.UserUpdate? || ev.UserDelete? {
      UserKeepsUid(c, s, ev, m);
    } else if ev.RemoveFinalizer? {
      RemovalKeepsUid(c, s, ev.w, m);
    } else if ev.UpdateEndpoints? {
      ClaimKeepsUid(c, s, ev.w, m);
    } else if ev.UpdateStatus? {
      RecordKeepsUid(c, s, ev.w, m);
    } else {
      OthersKeepApi(c, s, ev);
    }
  }

  /** The object a user's request leaves under its name. */
  function UserObject(s: State, ev: Event): ApiEndpoints
    requires s.hist != [] && (ev.UserCreate? || ((ev.UserUpdate? || ev.UserDelete?) && ev.name in Cur(s).api))
  {
    match ev
    case UserCreate(n, spec, fs, owners) => NewEndpoints(s, n, spec, fs, owners)
    case UserUpdate(n, spec, fs, owners) => Cur(s).api[n].(spec := spec, finalizers := fs, owners := owners)
    case UserDelete(n) => Cur(s).api[n].(deleting := true)
  }

  lemma UserStepPuts(c: Config, s: State, ev: Event)
    requires Enabled(c, s, ev) && (ev.UserCreate? || ev.UserUpdate? || ev.UserDelete?)
    ensures Cur(Apply(c, s, ev)) == PutApi(Cur(s), UserObject(s, ev), |s.hist|)
  {
  }

  lemma UserKeepsUid(c: Config, s: State, ev: Event, m: string)
    requires Inv(c, s) && Enabled(c, s, ev) && m in Cur(s).api && m in Cur(Apply(c, s, ev)).api
    requires ev.UserCreate? || ev.UserUpdate? || ev.UserDelete?
    ensures Cur(Apply(c, s, ev)).api[m].uid == Cur(s).api[m].uid
  {
    UserStepPuts(c, s, ev);
    assert StoreOk(s.hist, |s.hist| - 1);
    PutKeepsUid(Cur(s), UserObject(s, ev), |s.hist|, m);
  }

  lemma RemovalKeepsUid(c: Config, s: State, w: nat, m: string)
    requires Inv(c, s) && At(s, w).Cleared? && m in Cur(s).api && m in Cur(DoRemoveFinalizer(s, w)).api
    ensures Cur(DoRemoveFinalizer(s, w)).api[m].uid == Cur(s).api[m].uid
  {
    var e := At(s, w).e;
    assert WorkerOk(c, s, At(s, w));
    if e.name in Cur(s).api && Cur(s).api[e.name].version == e.version { SnapshotCurrent(c, s, e); }
  }

  lemma ClaimKeepsUid(c: Config, s: State, w: nat, m: string)
    requires Inv(c, s) && At(s, w).Claiming? && m in Cur(s).api && m in Cur(DoUpdateEndpoints(c, s, w)).api
    ensures Cur(DoUpdateEndpoints(c, s, w)).api[m].uid == Cur(s).api[m].uid
  {
    var e := At(s, w).base;
    assert WorkerOk(c, s, At(s, w));
    if e.name in Cur(s).api && Cur(s).api[e.name].version == e.version { SnapshotCurrent(c, s, e); }
  }

  lemma RecordKeepsUid(c: Config, s: State, w: nat, m: string)
    requires Inv(c, s) && At(s, w).Recording? && m in Cur(s).api && m in Cur(DoUpdateStatus(s, w)).api
    ensures Cur(DoUpdateStatus(s, w)).api[m].uid == Cur(s).api[m].uid
  {
    var e := At(s, w).base;
    assert WorkerOk(c, s, At(s, w));
    if e.name in Cur(s).api && Cur(s).api[e.name].version == e.version { SnapshotCurrent(c, s, e); }
  }

  lemma StepHoldsOrReleases(c: Config, tr: seq<State>, evs: seq<Event>, i: nat, u: nat)
    requires Run(c, tr, evs) && i < |evs| && tr[i].hist != [] && HeldBy(Cur(tr[i]), u)
    ensures tr[i + 1].hist != [] && (HeldBy(Cur(tr[i + 1]), u) || ReleasedBefore(tr, i + 1, u))
  {
    RunKeepsInv(c, tr, evs, i);
    NextGrows(c, tr, evs, i);
    assert StepAt(c, tr, evs, i);
    var st, st' := Cur(tr[i]), Cur(tr[i + 1]);
    var m :| m in st.api && st.api[m].uid == u && KRAKEND_FINALIZER in st.api[m].finalizers;
    if m in st'.api && KRAKEND_FINALIZER in st'.api[m].finalizers {
      StepKeepsUid(c, tr[i], evs[i], m);
    } else {
      assert Released(tr, i, m, u);
    }
  }

  lemma StepExtendsHistory(c: Config, tr: seq<State>, evs: seq<Event>, i: nat)
    requires Run(c, tr, evs) && i < |evs|
    ensures tr[i].hist != [] && tr[i + 1].hist != []
    ensures tr[i + 1].hist == tr[i].hist || tr[i + 1].hist == tr[i].hist + [Cur(tr[i + 1])]
  {
    assert StepAt(c, tr, evs, i);
  }

  /** An identity that ever held the finalizer still holds it, or was released at some step. */
  lemma {:induction false} HeldOrReleased(c: Config, tr: seq<State>, evs: seq<Event>, t: nat, u: nat)
    requires Run(c, tr, evs) && t < |tr| && EverHeld(tr[t].hist, u)
    ensures tr[t].hist != [] && (HeldBy(Cur(tr[t]), u) || ReleasedBefore(tr, t, u))
  {
    if t > 0 {
      StepExtendsHistory(c, tr, evs, t - 1);
      var r :| 0 <= r < |tr[t].hist| && HeldBy(tr[t].hist[r], u);
      if r < |tr[t - 1].hist| {
        assert tr[t - 1].hist[r] == tr[t].hist[r];
        HeldOrReleased(c, tr, evs, t - 1, u);
        if HeldBy(Cur(tr[t - 1]), u) { StepHoldsOrReleases(c, tr, evs, t - 1, u); }
      }
    }
  }

  /** Why the last write to `n` still has the resource `e` that was released in `s`. */
  ghost predicate Stranding(c: Config, s: State, e: ApiEndpoints, log: seq<Write>, n: string, j: nat)
    requires j < |log|
  {
    // its Krakend did not exist, so no ConfigMap was rewritten
    || (exists r, at :: 0 <= r <= at < |s.hist| && e.name in s.hist[r].api && s.hist[r].api[e.name] == e
          && KrakendName(c.ns, e.spec) !in s.hist[at].krakends)
    // the ConfigMap belongs to another Krakend than the one it names
    || n != CmName(KrakendName(c.ns, e.spec))
    // the rewrite changed nothing and kept the version, and a listing older than the deletion won
    || (exists r, k: nat :: 0 <= r < |s.hist| && e.name in s.hist[r].api && s.hist[r].api[e.name] == e
          && k < j && log[k].cm == n && r <= log[k].listRev && log[j].listRev < r
          && !log[k].effective && !c.everyWriteCounts)
  }

  /**
    If the last write to a ConfigMap lists an identity that has left the store, then either it never held
    the finalizer, or it was released, and then its Krakend was absent, the ConfigMap is not the one of
    the Krakend it named, or a stale listing overtook a rewrite that kept the version.
   */
  lemma StrandedOnlyBy(c: Config, tr: seq<State>, evs: seq<Event>, t: nat, n: string, j: nat, u: nat)
    requires Run(c, tr, evs) && t < |tr| && tr[t].hist != [] && Gone(Cur(tr[t]), u)
    requires LastWrite(tr[t].log, n, j) && !Omits(tr[t].log[j], u)
    ensures || !EverHeld(tr[t].hist, u)
            || exists i: nat, m :: i < t && Released(tr, i, m, u)
                                   && Stranding(c, tr[i], Cur(tr[i]).api[m], tr[t].log, n, j)
  {
    if EverHeld(tr[t].hist, u) {
      HeldOrReleased(c, tr, evs, t, u);
      var i: nat, m :| i < t && Released(tr, i, m, u);
      ReleaseStrands(c, tr, evs, i, m, t, n, j, u);
    }
  }

  lemma ReleaseStrands(c: Config, tr: seq<State>, evs: seq<Event>, i: nat, m: string, t: nat, n: string, j: nat, u: nat)
    requires Run(c, tr, evs) && i < t < |tr| && Released(tr, i, m, u)
    requires LastWrite(tr[t].log, n, j) && !Omits(tr[t].log[j], u)
    ensures Stranding(c, tr[i], Cur(tr[i]).api[m], tr[t].log, n, j)
  {
    var s, e := tr[i], Cur(tr[i]).api[m];
    FinalizerGuardsDeletion(c, tr, evs, i, m);
    var r, why :| && 0 <= r < |s.hist| && e.name in s.hist[r].api && s.hist[r].api[e.name] == e && e.deleting
      && ClearanceOk(c, s.hist, s.log, e, r, why)
      && (why.Written? ==> Omits(s.log[why.index], e.uid));
    if why.Written? && n == CmName(KrakendName(c.ns, e.spec)) {
      Overtaken(c, tr, evs, i, t, e, r, why.index, j);
    }
  }

  lemma Overtaken(c: Config, tr: seq<State>, evs: seq<Event>, i: nat, t: nat, e: ApiEndpoints, r: nat, k: nat, j: nat)
    requires Run(c, tr, evs) && i <= t < |tr|
    requires r < |tr[i].hist| && e.name in tr[i].hist[r].api && tr[i].hist[r].api[e.name] == e && e.deleting
    requires k < |tr[i].log| && r <= tr[i].log[k].listRev && Omits(tr[i].log[k], e.uid)
    requires LastWrite(tr[t].log, tr[i].log[k].cm, j) && !Omits(tr[t].log[j], e.uid)
    ensures k < j && k < |tr[t].log| && tr[t].log[k] == tr[i].log[k]
    ensures tr[t].log[j].listRev < r && !tr[t].log[k].effective && !c.everyWriteCounts
  {
    HistoryGrows(c, tr, evs, i, t);
    RunKeepsInv(c, tr, evs, t);
    var hist, log := tr[t].hist, tr[t].log;
    assert log[k] == tr[i].log[k] && hist[r] == tr[i].hist[r] && WriteOk(hist, log[j]);
    if c.everyWriteCounts || log[k].effective {
      ClearedForGood(c, tr, evs, i, t, e, r, k);
    }
    if r <= log[j].listRev {
      DeletingIsDead(hist, r, e);
      DeadIsOmitted(hist, log[j], e.uid, r);
    }
  }
}
