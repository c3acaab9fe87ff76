/** What the Krakend worker does to ConfigMaps (internal/controller/krakend_controller.go), left to itself. */
module KrakendWorker {
  import opened ApiTypes
  import opened Sequences
  import opened Protocol

  // ----- what the rendered list asks for -----

  /** `r` renders ConfigMap `n`. */
  predicate Renders(r: Rendered, n: string) {
    r.kind == "ConfigMap" && r.name == n
  }

  /** `i` is the last position of `rs` that renders ConfigMap `n`. */
  ghost predicate LastFor(rs: seq<Rendered>, i: nat, n: string) {
    i < |rs| && Renders(rs[i], n) && forall j :: i < j < |rs| ==> !Renders(rs[j], n)
  }

  ghost predicate FirstFor(rs: seq<Rendered>, i: nat, n: string) {
    i < |rs| && Renders(rs[i], n) && forall j :: 0 <= j < i ==> !Renders(rs[j], n)
  }

  /** The ConfigMap carries the text of `r`; an empty text is as good as none. */
  ghost predicate HoldsText(cm: ConfigMap, r: Rendered) {
    cm.data == if r.data.Some? && r.data.value != "" then Some(Template(r.data.value)) else None
  }

  /** ConfigMap `n` went from `was` to `now` as the list `rs` demands. */
  ghost predicate Settled(was: map<string, ConfigMap>, now: map<string, ConfigMap>, rs: seq<Rendered>, n: string) {
    && ((forall i :: 0 <= i < |rs| ==> !Renders(rs[i], n)) ==>
          (n in now <==> n in was) && (n in was ==> now[n] == was[n]))
    && ((exists i :: 0 <= i < |rs| && Renders(rs[i], n)) ==> n in now)
    && (HasSuffix(n, "-partials") && n in was ==> n in now && now[n] == was[n])
    && (HasSuffix(n, "-partials") && n !in was ==>
          forall i: nat :: FirstFor(rs, i, n) ==> n in now && HoldsText(now[n], rs[i]))
    && (!HasSuffix(n, "-partials") ==>
          forall i: nat :: LastFor(rs, i, n) ==> n in now && HoldsText(now[n], rs[i]))
  }

  ghost predicate AllSettled(was: map<string, ConfigMap>, now: map<string, ConfigMap>, rs: seq<Rendered>) {
    forall n :: Settled(was, now, rs, n)
  }

  lemma NothingToSettle(was: map<string, ConfigMap>)
    ensures AllSettled(was, was, [])
  {
  }

  // ----- one more element -----

  lemma {:induction false} FirstForAppend(done: seq<Rendered>, r: Rendered, i: nat, n: string)
    requires FirstFor(done + [r], i, n)
    ensures FirstFor(done, i, n) || (i == |done| && forall j :: 0 <= j < |done| ==> !Renders(done[j], n))
  {
    var rs := done + [r];
    assert forall j :: 0 <= j < |done| ==> rs[j] == done[j];
  }

  lemma {:induction false} LastForAppend(done: seq<Rendered>, r: Rendered, i: nat, n: string)
    requires LastFor(done + [r], i, n)
    ensures if Renders(r, n) then i == |done| else LastFor(done, i, n)
  {
    var rs := done + [r];
    assert rs[|done|] == r && forall j :: 0 <= j < |done| ==> rs[j] == done[j];
  }

  /** An element that renders some other ConfigMap, or none, changes nothing for `n`. */
  lemma {:induction false} SettledOther(was: map<string, ConfigMap>, now: map<string, ConfigMap>,
                                        now': map<string, ConfigMap>, done: seq<Rendered>, r: Rendered, n: string)
    requires Settled(was, now, done, n) && !Renders(r, n)
    requires (n in now' <==> n in now) && (n in now ==> now'[n] == now[n])
    ensures Settled(was, now', done + [r], n)
  {
    var rs := done + [r];
    assert rs[|done|] == r && forall j :: 0 <= j < |done| ==> rs[j] == done[j];
    forall i: nat | FirstFor(rs, i, n) ensures FirstFor(done, i, n) {
      FirstForAppend(done, r, i, n);
    }
    forall i: nat | LastFor(rs, i, n) ensures LastFor(done, i, n) {
      LastForAppend(done, r, i, n);
    }
  }

  /** An existing partials ConfigMap is passed by. */
  lemma {:induction false} SettledSkip(was: map<string, ConfigMap>, now: map<string, ConfigMap>,
                                       done: seq<Rendered>, r: Rendered)
    requires Settled(was, now, done, r.name) && HasSuffix(r.name, "-partials") && r.name in now
    ensures Settled(was, now, done + [r], r.name)
  {
    var rs, n := done + [r], r.name;
    assert rs[|done|] == r && forall j :: 0 <= j < |done| ==> rs[j] == done[j];
    forall i: nat | FirstFor(rs, i, n) && n !in was ensures HoldsText(now[n], rs[i]) {
      FirstForAppend(done, r, i, n);
    }
  }

  /** Writing the rendered text settles its ConfigMap. */
  lemma {:induction false} SettledWrite(was: map<string, ConfigMap>, now: map<string, ConfigMap>,
                                        done: seq<Rendered>, r: Rendered, cm: ConfigMap)
    requires Settled(was, now, done, r.name) && r.kind == "ConfigMap" && HoldsText(cm, r)
    requires HasSuffix(r.name, "-partials") ==> r.name !in now
    ensures Settled(was, now[r.name := cm], done + [r], r.name)
  {
    var rs, n := done + [r], r.name;
    assert rs[|done|] == r && forall j :: 0 <= j < |done| ==> rs[j] == done[j];
    forall i: nat | FirstFor(rs, i, n) && HasSuffix(n, "-partials") ensures HoldsText(cm, rs[i]) {
      FirstForAppend(done, r, i, n);
    }
    forall i: nat | LastFor(rs, i, n) ensures HoldsText(cm, rs[i]) {
      LastForAppend(done, r, i, n);
    }
  }

  lemma WriteSettles(was: map<string, ConfigMap>, now: map<string, ConfigMap>, done: seq<Rendered>,
                     r: Rendered, cm: ConfigMap)
    requires AllSettled(was, now, done) && r.kind == "ConfigMap" && HoldsText(cm, r)
    requires HasSuffix(r.name, "-partials") ==> r.name !in now
    ensures AllSettled(was, now[r.name := cm], done + [r])
  {
    var now', rs := now[r.name := cm], done + [r];
    forall n ensures Settled(was, now', rs, n) {
      if n == r.name { SettledWrite(was, now, done, r, cm); } else { SettledOther(was, now, now', done, r, n); }
    }
  }

  lemma SkipSettles(was: map<string, ConfigMap>, now: map<string, ConfigMap>, done: seq<Rendered>, r: Rendered)
    requires AllSettled(was, now, done)
    requires r.kind != "ConfigMap" || (HasSuffix(r.name, "-partials") && r.name in now)
    ensures AllSettled(was, now, done + [r])
  {
    var rs := done + [r];
    forall n ensures Settled(was, now, rs, n) {
      if Renders(r, n) { SettledSkip(was, now, done, r); } else { SettledOther(was, now, now, done, r, n); }
    }
  }

  // ----- the worker's positions -----

  /** The part of the list that the worker still has before it, the element at hand included. */
  function Ahead(pc: KPc): seq<Rendered> {
    match pc
    case KIdle => []
    case KNext(rest) => rest
    case KCreating(r, rest) => [r] + rest
    case KExisting(r, rest) => [r] + rest
    case KUpdating(r, rest, _) => [r] + rest
  }

  /** `done` is settled, the rest lies ahead, and the element at hand was looked at rightly. */
  ghost predicate OnTrack(was: map<string, ConfigMap>, rs: seq<Rendered>, done: seq<Rendered>, s: State) {
    && s.hist != [] && !s.kworker.KIdle? && rs == done + Ahead(s.kworker)
    && AllSettled(was, Cur(s).cms, done)
    && (!s.kworker.KNext? ==>
          && s.kworker.r.kind == "ConfigMap"
          && (HasSuffix(s.kworker.r.name, "-partials") ==> s.kworker.KCreating? && s.kworker.r.name !in Cur(s).cms))
    && (s.kworker.KExisting? || s.kworker.KUpdating? ==> s.kworker.r.name in Cur(s).cms)
    && (s.kworker.KUpdating? ==> Cur(s).cms[s.kworker.r.name].version == s.kworker.version)
  }

  /** A step of the worker through its list. */
  predicate IsCall(ev: Event) {
    ev.KGet? || ev.KCreate? || ev.KGetExisting? || ev.KUpdate?
  }

  /** The Krakend worker touches ConfigMaps only. */
  ghost predicate OnlyConfigMaps(s: State, s': State)
    requires s.hist != [] && s'.hist != []
  {
    && Cur(s').api == Cur(s).api && Cur(s').krakends == Cur(s).krakends
    && s'.log == s.log && s'.clock == s.clock && s'.workers == s.workers
  }

  ghost function DoneAfter(done: seq<Rendered>, pc: KPc, pc': KPc): seq<Rendered> {
    if pc'.KNext? && Ahead(pc) != [] then done + [Ahead(pc)[0]] else done
  }

  lemma {:induction false} GetOnTrack(c: Config, was: map<string, ConfigMap>, rs: seq<Rendered>,
                                      done: seq<Rendered>, s: State)
    requires OnTrack(was, rs, done, s) && s.kworker.KNext? && s.kworker.rest != []
    ensures var s' := Apply(c, s, KGet);
            OnTrack(was, rs, DoneAfter(done, s.kworker, s'.kworker), s') && OnlyConfigMaps(s, s')
  {
    var r, rest := s.kworker.rest[0], s.kworker.rest[1..];
    assert s.kworker.rest == [r] + rest && rs == (done + [r]) + rest;
    if r.kind != "ConfigMap" || (HasSuffix(r.name, "-partials") && r.name in Cur(s).cms) {
      SkipSettles(was, Cur(s).cms, done, r);
    }
  }

  lemma {:induction false} CreateOnTrack(c: Config, was: map<string, ConfigMap>, rs: seq<Rendered>,
                                         done: seq<Rendered>, s: State)
    requires OnTrack(was, rs, done, s) && s.kworker.KCreating?
    ensures var s' := Apply(c, s, KCreate);
            OnTrack(was, rs, DoneAfter(done, s.kworker, s'.kworker), s') && OnlyConfigMaps(s, s')
  {
    var r, rest := s.kworker.r, s.kworker.rest;
    assert rs == (done + [r]) + rest && ([r] + rest)[0] == r;
    if r.name !in Cur(s).cms {
      var s' := Apply(c, s, KCreate);
      WriteSettles(was, Cur(s).cms, done, r, Cur(s').cms[r.name]);
    }
  }

  lemma {:induction false} UpdateOnTrack(c: Config, was: map<string, ConfigMap>, rs: seq<Rendered>,
                                         done: seq<Rendered>, s: State)
    requires OnTrack(was, rs, done, s) && (s.kworker.KExisting? || s.kworker.KUpdating?)
    ensures var s' := Apply(c, s, if s.kworker.KExisting? then KGetExisting else KUpdate);
            OnTrack(was, rs, DoneAfter(done, s.kworker, s'.kworker), s') && OnlyConfigMaps(s, s')
  {
    var r, rest := s.kworker.r, s.kworker.rest;
    assert rs == (done + [r]) + rest && ([r] + rest)[0] == r;
    if s.kworker.KUpdating? {
      var s' := Apply(c, s, KUpdate);
      WriteSettles(was, Cur(s).cms, done, r, Cur(s').cms[r.name]);
    }
  }

  lemma CallOnTrack(c: Config, was: map<string, ConfigMap>, rs: seq<Rendered>, done: seq<Rendered>, s: State, ev: Event)
    requires OnTrack(was, rs, done, s) && Enabled(c, s, ev) && IsCall(ev)
    ensures var s' := Apply(c, s, ev);
            OnTrack(was, rs, DoneAfter(done, s.kworker, s'.kworker), s') && OnlyConfigMaps(s, s')
  {
    if ev.KGet? {
      GetOnTrack(c, was, rs, done, s);
    } else if ev.KCreate? {
      CreateOnTrack(c, was, rs, done, s);
    } else {
      UpdateOnTrack(c, was, rs, done, s);
    }
  }

  // ----- the whole list -----

  /** A run of nothing but the Krakend worker's calls for the list `rs`. */
  ghost predicate WorksThrough(c: Config, rs: seq<Rendered>, tr: seq<State>, evs: seq<Event>) {
    && Steps(c, tr, evs) && evs != [] && evs[0] == KBegin(rs)
    && forall i :: 1 <= i < |evs| ==> IsCall(evs[i])
  }

  lemma {:induction false} StaysOnTrack(c: Config, rs: seq<Rendered>, tr: seq<State>, evs: seq<Event>, i: nat)
    returns (done: seq<Rendered>)
    requires WorksThrough(c, rs, tr, evs) && 1 <= i < |tr|
    ensures tr[0].hist != [] && tr[i].hist != [] && OnlyConfigMaps(tr[0], tr[i])
    ensures OnTrack(Cur(tr[0]).cms, rs, done, tr[i])
  {
    assert StepAt(c, tr, evs, i - 1);
    if i == 1 {
      done := [];
      NothingToSettle(Cur(tr[0]).cms);
      assert rs == [] + rs;
    } else {
      var before := StaysOnTrack(c, rs, tr, evs, i - 1);
      CallOnTrack(c, Cur(tr[0]).cms, rs, before, tr[i - 1], evs[i - 1]);
      done := DoneAfter(before, tr[i - 1].kworker, tr[i].kworker);
    }
  }

  /**
    When the Krakend worker reaches the end of its list and nobody interfered: every rendered ConfigMap is
    there; other ConfigMaps hold the text last rendered for their name, whether or not they existed; a
    missing partials ConfigMap was created with the text first rendered, an existing one is unchanged; a
    ConfigMap that is not rendered is unchanged; and nothing but ConfigMaps changed.
   */
  lemma ListIsSettled(c: Config, rs: seq<Rendered>, tr: seq<State>, evs: seq<Event>)
    requires WorksThrough(c, rs, tr, evs) && tr[|tr| - 1].kworker == KNext([])
    ensures tr[0].hist != [] && tr[|tr| - 1].hist != []
    ensures AllSettled(Cur(tr[0]).cms, Cur(tr[|tr| - 1]).cms, rs) && OnlyConfigMaps(tr[0], tr[|tr| - 1])
  {
    var done := StaysOnTrack(c, rs, tr, evs, |tr| - 1);
    assert rs == done + [] == done;
  }

  /**
    Whoever else is at work: a call of the Krakend worker changes no ConfigMap but the one at hand, and
    that only if it is missing when it is created, or still has the version fetched when it is updated.
   */
  lemma WritesAreSwaps(c: Config, s: State, ev: Event, n: string)
    requires Enabled(c, s, ev) && (IsCall(ev) || ev.KBegin? || ev.KStop?)
    ensures var pc, cms, cms' := s.kworker, Cur(s).cms, Cur(Apply(c, s, ev)).cms;
            if ev.KCreate? && n == pc.r.name && n !in cms then n in cms' && HoldsText(cms'[n], pc.r)
            else if ev.KUpdate? && n == pc.r.name && n in cms && cms[n].version == pc.version
            then n in cms' && HoldsText(cms'[n], pc.r)
            else (n in cms' <==> n in cms) && (n in cms ==> cms'[n] == cms[n])
  {
  }

  // ----- the worker gets there -----

  function CallsAhead(pc: KPc): nat {
    match pc
    case KIdle => 0
    case KNext(rest) => 4 * |rest|
    case KCreating(_, rest) => 4 * |rest| + 3
    case KExisting(_, rest) => 4 * |rest| + 2
    case KUpdating(_, rest, _) => 4 * |rest| + 1
  }

  function CallAt(pc: KPc): Event {
    match pc
    case KIdle => KGet
    case KNext(_) => KGet
    case KCreating(_, _) => KCreate
    case KExisting(_, _) => KGetExisting
    case KUpdating(_, _, _) => KUpdate
  }

  lemma CallShortens(c: Config, s: State)
    requires s.hist != [] && !s.kworker.KIdle? && s.kworker != KNext([])
    ensures Enabled(c, s, CallAt(s.kworker))
    ensures var s' := Apply(c, s, CallAt(s.kworker));
            s'.hist != [] && !s'.kworker.KIdle? && CallsAhead(s'.kworker) < CallsAhead(s.kworker)
  {
  }

  /** From any state the worker's own calls lead through the whole list. */
  lemma {:induction false} ListIsFinished(c: Config, rs: seq<Rendered>, tr: seq<State>, evs: seq<Event>)
    returns (tr': seq<State>, evs': seq<Event>)
    requires WorksThrough(c, rs, tr, evs) && tr[|tr| - 1].hist != [] && !tr[|tr| - 1].kworker.KIdle?
    ensures WorksThrough(c, rs, tr', evs') && tr'[0] == tr[0] && tr'[|tr'| - 1].kworker == KNext([])
    decreases CallsAhead(tr[|tr| - 1].kworker)
  {
    var s := tr[|tr| - 1];
    if s.kworker == KNext([]) {
      tr', evs' := tr, evs;
    } else {
      CallShortens(c, s);
      var t, e := tr + [Apply(c, s, CallAt(s.kworker))], evs + [CallAt(s.kworker)];
      forall i | 0 <= i < |e| ensures StepAt(c, t, e, i) {
        if i < |evs| {
          assert StepAt(c, tr, evs, i);
          assert t[i] == tr[i] && t[i + 1] == tr[i + 1] && e[i] == evs[i];
        }
      }
      tr', evs' := ListIsFinished(c, rs, t, e);
    }
  }

  /** Started on any list in any state, the Krakend worker alone settles all of it. */
  lemma KrakendWorkerAlone(c: Config, s: State, rs: seq<Rendered>) returns (tr: seq<State>, evs: seq<Event>)
    requires s.hist != [] && s.kworker.KIdle?
    ensures WorksThrough(c, rs, tr, evs) && tr[0] == s && tr[|tr| - 1].hist != []
    ensures AllSettled(Cur(s).cms, Cur(tr[|tr| - 1]).cms, rs) && OnlyConfigMaps(s, tr[|tr| - 1])
  {
    var s1 := s.(kworker := KNext(rs));
    assert StepAt(c, [s, s1], [KBegin(rs)], 0);
    tr, evs := ListIsFinished(c, rs, [s, s1], [KBegin(rs)]);
    ListIsSettled(c, rs, tr, evs);
  }
}
