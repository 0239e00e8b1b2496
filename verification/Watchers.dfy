/**
 The watch manager (controllers/clustersummary_watchers.go).

 One watcher per kind of resource serves all ClusterSummaries. Three maps hold who asked for a kind (for resources
 deployed because of KustomizationRefs, because of PolicyRefs, and for TemplateResourceRefs), and four maps hold who
 is to be told about a single resource.
 */
module Watchers {
  import opened Common
  import opened FeatureDeployment

  type Consumer = string

  datatype Gvk = Gvk(group: string, version: string, kind: string)

  datatype Resource = Resource(gvk: Gvk, namespace: string, name: string)

  type Requestors = map<Gvk, set<Consumer>>
  type Interested = map<Resource, set<Consumer>>

  datatype State = State(
    watchers: set<Gvk>,
    kustomizeRequestors: Requestors, policyRequestors: Requestors, templateRequestors: Requestors,
    kustomizeWatched: Interested, policyWatched: Interested,
    templateWatched: Interested, templateIgnoringStatus: Interested)

  function At<K>(m: map<K, set<Consumer>>, k: K): set<Consumer> {
    if k in m then m[k] else {}
  }

  function With<K>(m: map<K, set<Consumer>>, k: K, consumer: Consumer): map<K, set<Consumer>> {
    m[k := At(m, k) + {consumer}]
  }

  /** The consumer leaves every entry but the kept ones, and entries that are empty then are dropped. */
  function Dropped<K>(m: map<K, set<Consumer>>, keep: set<K>, consumer: Consumer): map<K, set<Consumer>> {
    map k | k in m && (k in keep || m[k] - {consumer} != {}) :: if k in keep then m[k] else m[k] - {consumer}
  }

  /** The same, but entries stay when they are empty. */
  function Erased<K>(m: map<K, set<Consumer>>, keep: set<K>, consumer: Consumer): map<K, set<Consumer>> {
    map k | k in m :: if k in keep then m[k] else m[k] - {consumer}
  }

  function Gvks(resources: set<Resource>): set<Gvk> {
    set r | r in resources :: r.gvk
  }

  predicate CanStopWatcher(s: State, gvk: Gvk) {
    At(s.kustomizeRequestors, gvk) == {} && At(s.policyRequestors, gvk) == {} && At(s.templateRequestors, gvk) == {}
  }

  /** Of the kinds that were looked at, those that nobody asks for any more lose their watcher. */
  function WithoutWatchers(s: State, visited: set<Gvk>): State {
    s.(watchers := set g | g in s.watchers && !(g in visited && CanStopWatcher(s, g)))
  }

  // ----- What the operations do -----

  function StartedMgmt(s: State, fid: FeatureID, r: Resource, consumer: Consumer): State
    requires fid != Helm
  {
    var t := s.(watchers := s.watchers + {r.gvk});
    if fid == Kustomize then
      t.(kustomizeRequestors := With(s.kustomizeRequestors, r.gvk, consumer),
         kustomizeWatched := With(s.kustomizeWatched, r, consumer))
    else
      t.(policyRequestors := With(s.policyRequestors, r.gvk, consumer),
         policyWatched := With(s.policyWatched, r, consumer))
  }

  function Without<K>(m: map<K, set<Consumer>>, k: K, consumer: Consumer): map<K, set<Consumer>> {
    if k in m then m[k := m[k] - {consumer}] else m
  }

  function StartedTemplate(s: State, r: Resource, ignoreStatus: bool, consumer: Consumer): State {
    var t := s.(watchers := s.watchers + {r.gvk}, templateRequestors := With(s.templateRequestors, r.gvk, consumer));
    if ignoreStatus then
      t.(templateWatched := Without(s.templateWatched, r, consumer),
         templateIgnoringStatus := With(s.templateIgnoringStatus, r, consumer))
    else
      t.(templateIgnoringStatus := Without(s.templateIgnoringStatus, r, consumer),
         templateWatched := With(s.templateWatched, r, consumer))
  }

  function WithoutKustomizeRequestor(s: State, keep: set<Gvk>, consumer: Consumer): State {
    WithoutWatchers(s.(kustomizeRequestors := Dropped(s.kustomizeRequestors, keep, consumer)),
                    s.kustomizeRequestors.Keys - keep)
  }

  function StoppedKustomize(s: State, current: set<Resource>, consumer: Consumer): State {
    WithoutKustomizeRequestor(s, Gvks(current), consumer)
      .(kustomizeWatched := Dropped(s.kustomizeWatched, current, consumer))
  }

  /** The kinds whose PolicyRef entry comes out empty. The code then deletes the Kustomize entry of the kind. */
  function Emptied(s: State, keep: set<Gvk>, consumer: Consumer): set<Gvk> {
    set g | g in s.policyRequestors && g !in keep && s.policyRequestors[g] - {consumer} == {}
  }

  function WithoutPolicyRequestor(s: State, keep: set<Gvk>, consumer: Consumer): State {
    WithoutWatchers(s.(policyRequestors := Erased(s.policyRequestors, keep, consumer),
                       kustomizeRequestors := s.kustomizeRequestors - Emptied(s, keep, consumer)),
                    s.policyRequestors.Keys - keep)
  }

  function StoppedPolicy(s: State, current: set<Resource>, consumer: Consumer): State {
    WithoutPolicyRequestor(s, Gvks(current), consumer).(policyWatched := Dropped(s.policyWatched, current, consumer))
  }

  function WithoutTemplateRequestor(s: State, keep: set<Gvk>, consumer: Consumer): State {
    WithoutWatchers(s.(templateRequestors := Erased(s.templateRequestors, keep, consumer)),
                    s.templateRequestors.Keys - keep)
  }

  function StoppedTemplate(s: State, current: set<Resource>, consumer: Consumer): State {
    WithoutTemplateRequestor(s, Gvks(current), consumer)
      .(templateWatched := Dropped(s.templateWatched, current, consumer),
        templateIgnoringStatus := Dropped(s.templateIgnoringStatus, current, consumer))
  }

  // ----- Kind by kind -----

  /** Nobody but the consumer asks for the kind in this map, and nobody at all in the other two. */
  predicate Vacated(asked: Requestors, others: Requestors, more: Requestors, g: Gvk, consumer: Consumer) {
    g in asked && asked[g] - {consumer} == {} && At(others, g) == {} && At(more, g) == {}
  }

  function Unwatched(s: State, g: Gvk): State {
    if CanStopWatcher(s, g) then s.(watchers := s.watchers - {g}) else s
  }

  function ErasedIn(m: Requestors, done: set<Gvk>, consumer: Consumer): Requestors {
    map g | g in m :: if g in done then m[g] - {consumer} else m[g]
  }

  function DroppedIn(m: Requestors, done: set<Gvk>, consumer: Consumer): Requestors {
    map g | g in m && !(g in done && m[g] - {consumer} == {}) :: if g in done then m[g] - {consumer} else m[g]
  }

  lemma OneMoreIn(m: Requestors, done: set<Gvk>, g: Gvk, consumer: Consumer)
    requires g in m && g !in done
    ensures var t := ErasedIn(m, done, consumer);
            g in t && ErasedIn(m, done + {g}, consumer) == t[g := t[g] - {consumer}]
    ensures var t := DroppedIn(m, done, consumer);
            && g in t && t[g] == m[g]
            && DroppedIn(m, done + {g}, consumer) ==
                 if m[g] - {consumer} != {} then t[g := m[g] - {consumer}] else t - {g}
  {
  }

  /** The KustomizationRef requestors after the consumer was taken out of these entries, one by one. */
  function KustomizeVisited(s: State, done: set<Gvk>, consumer: Consumer): State {
    s.(kustomizeRequestors := DroppedIn(s.kustomizeRequestors, done, consumer),
       watchers := s.watchers
         - (set g | g in done && Vacated(s.kustomizeRequestors, s.policyRequestors, s.templateRequestors, g, consumer)))
  }

  /** One kind: the consumer is taken out, and the watcher stops if nobody is left. */
  function KustomizeDropped(s: State, g: Gvk, consumer: Consumer): State
    requires g in s.kustomizeRequestors
  {
    var erased := s.kustomizeRequestors[g] - {consumer};
    Unwatched(s.(kustomizeRequestors := if erased != {} then s.kustomizeRequestors[g := erased]
                 else s.kustomizeRequestors - {g}), g)
  }

  lemma KustomizeVisit(s: State, done: set<Gvk>, g: Gvk, consumer: Consumer)
    requires g in s.kustomizeRequestors && g !in done
    ensures g in KustomizeVisited(s, done, consumer).kustomizeRequestors
    ensures KustomizeVisited(s, done + {g}, consumer)
            == KustomizeDropped(KustomizeVisited(s, done, consumer), g, consumer)
  {
    OneMoreIn(s.kustomizeRequestors, done, g, consumer);
    var t, u := KustomizeVisited(s, done, consumer), KustomizeVisited(s, done + {g}, consumer);
    var vacated := Vacated(s.kustomizeRequestors, s.policyRequestors, s.templateRequestors, g, consumer);
    assert CanStopWatcher(u, g) <==> vacated;
    assert u.watchers == if vacated then t.watchers - {g} else t.watchers;
  }

  lemma KustomizeVisitedAll(s: State, keep: set<Gvk>, consumer: Consumer)
    ensures KustomizeVisited(s, s.kustomizeRequestors.Keys - keep, consumer)
            == WithoutKustomizeRequestor(s, keep, consumer)
  {
    var done := s.kustomizeRequestors.Keys - keep;
    var t, u := KustomizeVisited(s, done, consumer), WithoutKustomizeRequestor(s, keep, consumer);
    assert t.kustomizeRequestors == u.kustomizeRequestors;
    assert forall g :: g in done ==>
      (CanStopWatcher(u, g) <==> Vacated(s.kustomizeRequestors, s.policyRequestors, s.templateRequestors, g, consumer));
    assert t.watchers == u.watchers;
  }

  /** The same for TemplateResourceRefs, whose entries stay when they are empty. */
  function TemplateVisited(s: State, done: set<Gvk>, consumer: Consumer): State {
    s.(templateRequestors := ErasedIn(s.templateRequestors, done, consumer),
       watchers := s.watchers
         - (set g | g in done && Vacated(s.templateRequestors, s.kustomizeRequestors, s.policyRequestors, g, consumer)))
  }

  function TemplateDropped(s: State, g: Gvk, consumer: Consumer): State
    requires g in s.templateRequestors
  {
    Unwatched(s.(templateRequestors := s.templateRequestors[g := s.templateRequestors[g] - {consumer}]), g)
  }

  lemma TemplateVisit(s: State, done: set<Gvk>, g: Gvk, consumer: Consumer)
    requires g in s.templateRequestors && g !in done
    ensures g in TemplateVisited(s, done, consumer).templateRequestors
    ensures TemplateVisited(s, done + {g}, consumer) == TemplateDropped(TemplateVisited(s, done, consumer), g, consumer)
  {
    OneMoreIn(s.templateRequestors, done, g, consumer);
    var t, u := TemplateVisited(s, done, consumer), TemplateVisited(s, done + {g}, consumer);
    var vacated := Vacated(s.templateRequestors, s.kustomizeRequestors, s.policyRequestors, g, consumer);
    assert CanStopWatcher(u, g) <==> vacated;
    assert u.watchers == if vacated then t.watchers - {g} else t.watchers;
  }

  lemma TemplateVisitedAll(s: State, keep: set<Gvk>, consumer: Consumer)
    ensures TemplateVisited(s, s.templateRequestors.Keys - keep, consumer)
            == WithoutTemplateRequestor(s, keep, consumer)
  {
    var done := s.templateRequestors.Keys - keep;
    var t, u := TemplateVisited(s, done, consumer), WithoutTemplateRequestor(s, keep, consumer);
    assert t.templateRequestors == u.templateRequestors;
    assert forall g :: g in done ==>
      (CanStopWatcher(u, g) <==> Vacated(s.templateRequestors, s.kustomizeRequestors, s.policyRequestors, g, consumer));
    assert t.watchers == u.watchers;
  }

  function VacatedIn(asked: Requestors, more: Requestors, done: set<Gvk>, consumer: Consumer): set<Gvk> {
    set g | g in done && Vacated(asked, map[], more, g, consumer)
  }

  lemma VacatedOneMore(asked: Requestors, more: Requestors, done: set<Gvk>, g: Gvk, consumer: Consumer)
    ensures VacatedIn(asked, more, done + {g}, consumer)
            == VacatedIn(asked, more, done, consumer) + if Vacated(asked, map[], more, g, consumer) then {g} else {}
  {
  }

  /** The PolicyRef requestors after the consumer was taken out of these entries, one by one. */
  function PolicyVisited(s: State, done: set<Gvk>, consumer: Consumer): State {
    s.(policyRequestors := ErasedIn(s.policyRequestors, done, consumer),
       kustomizeRequestors := s.kustomizeRequestors - VacatedIn(s.policyRequestors, map[], done, consumer),
       watchers := s.watchers - VacatedIn(s.policyRequestors, s.templateRequestors, done, consumer))
  }

  /** As the code does it: when the PolicyRef entry is empty, the entry of the other map is deleted. */
  function PolicyDropped(s: State, g: Gvk, consumer: Consumer): State
    requires g in s.policyRequestors
  {
    var erased := s.policyRequestors[g] - {consumer};
    Unwatched(s.(policyRequestors := s.policyRequestors[g := erased],
                 kustomizeRequestors := if erased == {} then s.kustomizeRequestors - {g} else s.kustomizeRequestors), g)
  }

  lemma WithoutOneMore(m: Requestors, w: set<Gvk>, done: set<Gvk>, g: Gvk)
    ensures m - (done + {g}) == m - done - {g}
    ensures w - (done + {g}) == w - done - {g}
  {
  }

  /** What the deletion from the other map leaves of the kind. */
  lemma StopsIfVacated(s: State, g: Gvk, consumer: Consumer)
    requires g in s.policyRequestors
    ensures PolicyDropped(s, g, consumer).watchers
            == if Vacated(s.policyRequestors, map[], s.templateRequestors, g, consumer) then s.watchers - {g}
               else s.watchers
  {
  }

  lemma PolicyVisitEntries(s: State, done: set<Gvk>, g: Gvk, consumer: Consumer)
    requires g in s.policyRequestors && g !in done
    ensures var t, u := PolicyVisited(s, done, consumer), PolicyVisited(s, done + {g}, consumer);
            && g in t.policyRequestors && t.policyRequestors[g] == s.policyRequestors[g]
            && var v := PolicyDropped(t, g, consumer);
            u.policyRequestors == v.policyRequestors && u.kustomizeRequestors == v.kustomizeRequestors
  {
    OneMoreIn(s.policyRequestors, done, g, consumer);
    VacatedOneMore(s.policyRequestors, map[], done, g, consumer);
    WithoutOneMore(s.kustomizeRequestors, {}, VacatedIn(s.policyRequestors, map[], done, consumer), g);
  }

  lemma PolicyVisit(s: State, done: set<Gvk>, g: Gvk, consumer: Consumer)
    requires g in s.policyRequestors && g !in done
    ensures g in PolicyVisited(s, done, consumer).policyRequestors
    ensures PolicyVisited(s, done + {g}, consumer) == PolicyDropped(PolicyVisited(s, done, consumer), g, consumer)
  {
    PolicyVisitEntries(s, done, g, consumer);
    VacatedOneMore(s.policyRequestors, s.templateRequestors, done, g, consumer);
    WithoutOneMore(map[], s.watchers, VacatedIn(s.policyRequestors, s.templateRequestors, done, consumer), g);
    StopsIfVacated(PolicyVisited(s, done, consumer), g, consumer);
  }

  lemma PolicyVisitedAll(s: State, keep: set<Gvk>, consumer: Consumer)
    ensures PolicyVisited(s, s.policyRequestors.Keys - keep, consumer) == WithoutPolicyRequestor(s, keep, consumer)
  {
    var done := s.policyRequestors.Keys - keep;
    var t, u := PolicyVisited(s, done, consumer), WithoutPolicyRequestor(s, keep, consumer);
    assert t.policyRequestors == u.policyRequestors;
    assert VacatedIn(s.policyRequestors, map[], done, consumer) == Emptied(s, keep, consumer);
    assert t.kustomizeRequestors == u.kustomizeRequestors;
    assert forall g :: g in done ==>
      (CanStopWatcher(u, g) <==> Vacated(s.policyRequestors, map[], s.templateRequestors, g, consumer));
    assert t.watchers == u.watchers;
  }

  // ----- The manager -----

  class Manager {
    var watchers: set<Gvk>
    var kustomizeRequestors: Requestors
    var policyRequestors: Requestors
    var templateRequestors: Requestors
    var kustomizeWatched: Interested
    var policyWatched: Interested
    var templateWatched: Interested
    var templateIgnoringStatus: Interested

    function Contents(): State
      reads this
    {
      State(watchers, kustomizeRequestors, policyRequestors, templateRequestors,
            kustomizeWatched, policyWatched, templateWatched, templateIgnoringStatus)
    }

    constructor ()
      ensures Contents() == State({}, map[], map[], map[], map[], map[], map[], map[])
    {
      watchers := {};
      kustomizeRequestors, policyRequestors, templateRequestors := map[], map[], map[];
      kustomizeWatched, policyWatched, templateWatched, templateIgnoringStatus := map[], map[], map[], map[];
    }

    /** The kind may not be installed, in which case no watcher is started. */
    method StartWatcher(gvk: Gvk, installed: bool) returns (ok: bool)
      modifies this`watchers
      ensures ok <==> gvk in old(watchers) || installed
      ensures watchers == if ok then old(watchers) + {gvk} else old(watchers)
    {
      if gvk in watchers {
        return true;
      }
      if !installed {
        return false;
      }
      watchers := watchers + {gvk};
      ok := true;
    }

    method StartWatcherForMgmtResource(r: Resource, consumer: Consumer, fid: FeatureID, installed: bool)
      returns (ok: bool)
      requires fid != Helm
      modifies this
      ensures ok <==> r.gvk in old(watchers) || installed
      ensures Contents() == if ok then StartedMgmt(old(Contents()), fid, r, consumer) else old(Contents())
    {
      ok := StartWatcher(r.gvk, installed);
      if !ok {
        return;
      }
      if fid == Kustomize {
        kustomizeRequestors := kustomizeRequestors[r.gvk := At(kustomizeRequestors, r.gvk) + {consumer}];
        kustomizeWatched := kustomizeWatched[r := At(kustomizeWatched, r) + {consumer}];
      } else {
        policyRequestors := policyRequestors[r.gvk := At(policyRequestors, r.gvk) + {consumer}];
        policyWatched := policyWatched[r := At(policyWatched, r) + {consumer}];
      }
    }

    static method InsertInto<K(==)>(m: map<K, set<Consumer>>, k: K, consumer: Consumer)
      returns (updated: map<K, set<Consumer>>)
      ensures updated == With(m, k, consumer)
    {
      updated := m;
      if k !in updated {
        updated := updated[k := {}];
      }
      updated := updated[k := updated[k] + {consumer}];
      assert forall o :: o in updated ==> o == k || o in m;
    }

    static method EraseFrom<K(==)>(m: map<K, set<Consumer>>, k: K, consumer: Consumer)
      returns (updated: map<K, set<Consumer>>)
      ensures updated == Without(m, k, consumer)
    {
      updated := m;
      if k in updated {
        updated := updated[k := updated[k] - {consumer}];
      }
    }

    method StartWatcherForTemplateResourceRef(r: Resource, ignoreStatus: bool, consumer: Consumer, installed: bool)
      returns (ok: bool)
      modifies this
      ensures ok <==> r.gvk in old(watchers) || installed
      ensures Contents() == if ok then StartedTemplate(old(Contents()), r, ignoreStatus, consumer) else old(Contents())
    {
      ok := StartWatcher(r.gvk, installed);
      if !ok {
        return;
      }
      templateRequestors := InsertInto(templateRequestors, r.gvk, consumer);
      if ignoreStatus {
        templateWatched := EraseFrom(templateWatched, r, consumer);
        templateIgnoringStatus := InsertInto(templateIgnoringStatus, r, consumer);
      } else {
        templateIgnoringStatus := EraseFrom(templateIgnoringStatus, r, consumer);
        templateWatched := InsertInto(templateWatched, r, consumer);
      }
    }

    method StopIfUnused(gvk: Gvk)
      modifies this`watchers
      ensures Contents() == Unwatched(old(Contents()), gvk)
    {
      if At(kustomizeRequestors, gvk) != {} {
        return;
      }
      if At(policyRequestors, gvk) != {} {
        return;
      }
      if At(templateRequestors, gvk) != {} {
        return;
      }
      if gvk in watchers {
        watchers := watchers - {gvk};
      }
    }

    method StopStaleWatchForMgmtResource(current: set<Resource>, consumer: Consumer, fid: FeatureID)
      requires fid != Helm
      modifies this
      ensures Contents() == if fid == Kustomize then StoppedKustomize(old(Contents()), current, consumer)
                            else StoppedPolicy(old(Contents()), current, consumer)
    {
      var gvks := set r | r in current :: r.gvk;
      if fid == Kustomize {
        StopKustomizeRequestors(gvks, consumer);
        var watched := DropConsumer(kustomizeWatched, current, consumer);
        kustomizeWatched := watched;
      } else {
        StopPolicyRequestors(gvks, consumer);
        var watched := DropConsumer(policyWatched, current, consumer);
        policyWatched := watched;
      }
    }

    /** The loop over a map of resources. */
    method DropConsumer(watched: Interested, current: set<Resource>, consumer: Consumer) returns (rest: Interested)
      ensures rest == Dropped(watched, current, consumer)
    {
      rest := watched;
      var todo := watched.Keys;
      while todo != {}
        invariant todo <= watched.Keys
        invariant forall r :: r in rest <==>
                  r in watched && (r in todo || r in current || watched[r] - {consumer} != {})
        invariant forall r :: r in rest ==>
                  rest[r] == if r in todo || r in current then watched[r] else watched[r] - {consumer}
        decreases todo
      {
        var r :| r in todo;
        todo := todo - {r};
        if r !in current {
          var s := rest[r] - {consumer};
          rest := if s != {} then rest[r := s] else rest - {r};
        }
      }
    }

    method StopKustomizeRequestors(gvks: set<Gvk>, consumer: Consumer)
      modifies this`kustomizeRequestors, this`watchers
      ensures Contents() == WithoutKustomizeRequestor(old(Contents()), gvks, consumer)
    {
      ghost var s0 := Contents();
      ghost var done: set<Gvk> := {};
      assert KustomizeVisited(s0, {}, consumer) == s0;
      var todo := kustomizeRequestors.Keys;
      while todo != {}
        invariant todo <= s0.kustomizeRequestors.Keys && done == s0.kustomizeRequestors.Keys - todo - gvks
        invariant Contents() == KustomizeVisited(s0, done, consumer)
        decreases todo
      {
        var g :| g in todo;
        todo := todo - {g};
        if g !in gvks {
          KustomizeVisit(s0, done, g, consumer);
          done := done + {g};
          DropKustomizeRequestor(g, consumer);
        }
      }
      assert done == s0.kustomizeRequestors.Keys - gvks;
      KustomizeVisitedAll(s0, gvks, consumer);
    }

    method DropKustomizeRequestor(g: Gvk, consumer: Consumer)
      requires g in kustomizeRequestors
      modifies this`kustomizeRequestors, this`watchers
      ensures Contents() == KustomizeDropped(old(Contents()), g, consumer)
    {
      var s := kustomizeRequestors[g] - {consumer};
      kustomizeRequestors := if s != {} then kustomizeRequestors[g := s] else kustomizeRequestors - {g};
      StopIfUnused(g);
    }

    method StopPolicyRequestors(gvks: set<Gvk>, consumer: Consumer)
      modifies this`policyRequestors, this`kustomizeRequestors, this`watchers
      ensures Contents() == WithoutPolicyRequestor(old(Contents()), gvks, consumer)
    {
      ghost var s0 := Contents();
      ghost var done: set<Gvk> := {};
      assert PolicyVisited(s0, {}, consumer) == s0;
      var todo := policyRequestors.Keys;
      while todo != {}
        invariant todo <= s0.policyRequestors.Keys && done == s0.policyRequestors.Keys - todo - gvks
        invariant Contents() == PolicyVisited(s0, done, consumer)
        decreases todo
      {
        var g :| g in todo;
        todo := todo - {g};
        if g !in gvks {
          PolicyVisit(s0, done, g, consumer);
          done := done + {g};
          DropPolicyRequestor(g, consumer);
        }
      }
      assert done == s0.policyRequestors.Keys - gvks;
      PolicyVisitedAll(s0, gvks, consumer);
    }

    method DropPolicyRequestor(g: Gvk, consumer: Consumer)
      requires g in policyRequestors
      modifies this`policyRequestors, this`kustomizeRequestors, this`watchers
      ensures Contents() == PolicyDropped(old(Contents()), g, consumer)
    {
      var s := policyRequestors[g] - {consumer};
      policyRequestors := policyRequestors[g := s];
      if s == {} {
        kustomizeRequestors := kustomizeRequestors - {g};
      }
      StopIfUnused(g);
    }

    method StopTemplateRequestors(gvks: set<Gvk>, consumer: Consumer)
      modifies this`templateRequestors, this`watchers
      ensures Contents() == WithoutTemplateRequestor(old(Contents()), gvks, consumer)
    {
      ghost var s0 := Contents();
      ghost var done: set<Gvk> := {};
      assert TemplateVisited(s0, {}, consumer) == s0;
      var todo := templateRequestors.Keys;
      while todo != {}
        invariant todo <= s0.templateRequestors.Keys && done == s0.templateRequestors.Keys - todo - gvks
        invariant Contents() == TemplateVisited(s0, done, consumer)
        decreases todo
      {
        var g :| g in todo;
        todo := todo - {g};
        if g !in gvks {
          TemplateVisit(s0, done, g, consumer);
          done := done + {g};
          DropTemplateRequestor(g, consumer);
        }
      }
      assert done == s0.templateRequestors.Keys - gvks;
      TemplateVisitedAll(s0, gvks, consumer);
    }

    method DropTemplateRequestor(g: Gvk, consumer: Consumer)
      requires g in templateRequestors
      modifies this`templateRequestors, this`watchers
      ensures Contents() == TemplateDropped(old(Contents()), g, consumer)
    {
      templateRequestors := templateRequestors[g := templateRequestors[g] - {consumer}];
      StopIfUnused(g);
    }

    method StopStaleWatchForTemplateResourceRef(current: set<Resource>, consumer: Consumer)
      modifies this
      ensures Contents() == StoppedTemplate(old(Contents()), current, consumer)
    {
      var gvks := set r | r in current :: r.gvk;
      StopTemplateRequestors(gvks, consumer);
      var all := DropConsumer(templateWatched, current, consumer);
      var ignoring := DropConsumer(templateIgnoringStatus, current, consumer);
      templateWatched, templateIgnoringStatus := all, ignoring;
    }
  }

  // ----- Coherence -----

  /** Whoever is to be told about a resource has asked for its kind. */
  ghost predicate Backed(watched: Interested, requestors: Requestors) {
    forall r, c :: c in At(watched, r) ==> c in At(requestors, r.gvk)
  }

  ghost predicate Exclusive(s: State) {
    forall r, c :: c in At(s.templateWatched, r) ==> c !in At(s.templateIgnoringStatus, r)
  }

  ghost predicate WatchedExactly(s: State) {
    forall g :: g in s.watchers <==> !CanStopWatcher(s, g)
  }

  ghost predicate Coherent(s: State) {
    && Backed(s.kustomizeWatched, s.kustomizeRequestors)
    && Backed(s.policyWatched, s.policyRequestors)
    && Backed(s.templateWatched, s.templateRequestors)
    && Backed(s.templateIgnoringStatus, s.templateRequestors)
    && WatchedExactly(s) && Exclusive(s)
  }

  /** What coherence is for: a change of the resource reaches everybody that is registered for it. */
  lemma InterestedAreServed(s: State, r: Resource, c: Consumer)
    requires Coherent(s)
    requires c in At(s.kustomizeWatched, r) + At(s.policyWatched, r) + At(s.templateWatched, r)
             + At(s.templateIgnoringStatus, r)
    ensures r.gvk in s.watchers
  {
  }

  lemma AtAfter<K>(m: map<K, set<Consumer>>, k: K, c: Consumer, j: K)
    ensures At(With(m, k, c), j) == At(m, j) + if j == k then {c} else {}
    ensures At(Without(m, k, c), j) == At(m, j) - if j == k then {c} else {}
  {
  }

  /** A request for the kind comes with the interest, and interest that shrinks needs no request. */
  lemma BackedAfterStart(watched: Interested, requestors: Requestors, r: Resource, c: Consumer)
    requires Backed(watched, requestors)
    ensures Backed(With(watched, r, c), With(requestors, r.gvk, c))
    ensures Backed(Without(watched, r, c), With(requestors, r.gvk, c))
  {
    forall q, d
      ensures d in At(With(watched, r, c), q) ==> d in At(With(requestors, r.gvk, c), q.gvk)
      ensures d in At(Without(watched, r, c), q) ==> d in At(With(requestors, r.gvk, c), q.gvk)
    {
      AtAfter(watched, r, c, q);
      AtAfter(requestors, r.gvk, c, q.gvk);
    }
  }

  lemma StartMgmtKeepsCoherence(s: State, fid: FeatureID, r: Resource, c: Consumer)
    requires Coherent(s) && fid != Helm
    ensures Coherent(StartedMgmt(s, fid, r, c))
  {
    var t := StartedMgmt(s, fid, r, c);
    if fid == Kustomize {
      BackedAfterStart(s.kustomizeWatched, s.kustomizeRequestors, r, c);
    } else {
      BackedAfterStart(s.policyWatched, s.policyRequestors, r, c);
    }
    forall g
      ensures g in t.watchers <==> !CanStopWatcher(t, g)
    {
      AtAfter(s.kustomizeRequestors, r.gvk, c, g);
      AtAfter(s.policyRequestors, r.gvk, c, g);
    }
  }

  lemma StartTemplateKeepsCoherence(s: State, r: Resource, ignoreStatus: bool, c: Consumer)
    requires Coherent(s)
    ensures Coherent(StartedTemplate(s, r, ignoreStatus, c))
  {
    var t := StartedTemplate(s, r, ignoreStatus, c);
    BackedAfterStart(s.templateWatched, s.templateRequestors, r, c);
    BackedAfterStart(s.templateIgnoringStatus, s.templateRequestors, r, c);
    forall g
      ensures g in t.watchers <==> !CanStopWatcher(t, g)
    {
      AtAfter(s.templateRequestors, r.gvk, c, g);
    }
    forall q, d | d in At(t.templateWatched, q)
      ensures d !in At(t.templateIgnoringStatus, q)
    {
      AtAfter(s.templateWatched, r, c, q);
      AtAfter(s.templateIgnoringStatus, r, c, q);
    }
  }

  lemma DroppedAt<K>(m: map<K, set<Consumer>>, keep: set<K>, c: Consumer, k: K)
    ensures At(Dropped(m, keep, c), k) == (if k in keep then At(m, k) else At(m, k) - {c})
    ensures At(Erased(m, keep, c), k) == (if k in keep then At(m, k) else At(m, k) - {c})
  {
  }

  /** Interest and requests shrink together. */
  lemma BackedAfterStop(watched: Interested, requestors: Requestors, current: set<Resource>, c: Consumer)
    requires Backed(watched, requestors)
    ensures Backed(Dropped(watched, current, c), Dropped(requestors, Gvks(current), c))
    ensures Backed(Dropped(watched, current, c), Erased(requestors, Gvks(current), c))
  {
    forall r, d | d in At(Dropped(watched, current, c), r)
      ensures d in At(Dropped(requestors, Gvks(current), c), r.gvk)
              && d in At(Erased(requestors, Gvks(current), c), r.gvk)
    {
      DroppedAt(watched, current, c, r);
      DroppedAt(requestors, Gvks(current), c, r.gvk);
      assert d in At(watched, r);
      assert r in current ==> r.gvk in Gvks(current);
    }
  }

  lemma StopKustomizeKeepsCoherence(s: State, current: set<Resource>, c: Consumer)
    requires Coherent(s)
    ensures Coherent(StoppedKustomize(s, current, c))
  {
    var t := StoppedKustomize(s, current, c);
    BackedAfterStop(s.kustomizeWatched, s.kustomizeRequestors, current, c);
    forall g
      ensures g in t.watchers <==> !CanStopWatcher(t, g)
    {
      DroppedAt(s.kustomizeRequestors, Gvks(current), c, g);
      assert CanStopWatcher(s, g) ==> CanStopWatcher(t, g);
    }
  }

  lemma StopTemplateKeepsCoherence(s: State, current: set<Resource>, c: Consumer)
    requires Coherent(s)
    ensures Coherent(StoppedTemplate(s, current, c))
  {
    var t := StoppedTemplate(s, current, c);
    BackedAfterStop(s.templateWatched, s.templateRequestors, current, c);
    BackedAfterStop(s.templateIgnoringStatus, s.templateRequestors, current, c);
    forall g
      ensures g in t.watchers <==> !CanStopWatcher(t, g)
    {
      DroppedAt(s.templateRequestors, Gvks(current), c, g);
      assert CanStopWatcher(s, g) ==> CanStopWatcher(t, g);
    }
    forall r, d | d in At(t.templateWatched, r)
      ensures d !in At(t.templateIgnoringStatus, r)
    {
      DroppedAt(s.templateWatched, current, c, r);
      DroppedAt(s.templateIgnoringStatus, current, c, r);
    }
  }

  /** No resource of a kind whose PolicyRef entry comes out empty is watched because of a KustomizationRef. */
  ghost predicate SparesKustomize(s: State, current: set<Resource>, c: Consumer) {
    forall r: Resource :: r.gvk in Emptied(s, Gvks(current), c) ==> At(s.kustomizeWatched, r) == {}
  }

  /**
   Dropping PolicyRef resources breaks coherence exactly when a kind with an empty PolicyRef entry still has a
   resource that is watched because of a KustomizationRef. That resource then has consumers but no requestor.
   */
  lemma StopPolicyKeepsCoherenceIff(s: State, current: set<Resource>, c: Consumer)
    requires Coherent(s)
    ensures Coherent(StoppedPolicy(s, current, c)) <==> SparesKustomize(s, current, c)
  {
    var t := StoppedPolicy(s, current, c);
    BackedAfterStop(s.policyWatched, s.policyRequestors, current, c);
    forall g
      ensures g in t.watchers <==> !CanStopWatcher(t, g)
    {
      DroppedAt(s.policyRequestors, Gvks(current), c, g);
      assert CanStopWatcher(s, g) ==> CanStopWatcher(t, g);
    }
    if r: Resource :| r.gvk in Emptied(s, Gvks(current), c) && At(s.kustomizeWatched, r) != {} {
      var d :| d in At(s.kustomizeWatched, r);
      assert d in At(t.kustomizeWatched, r) && d !in At(t.kustomizeRequestors, r.gvk);
    }
  }

  /** The same stop with the deletion from the map it looked at. */
  function IntendedPolicyStop(s: State, current: set<Resource>, consumer: Consumer): State {
    WithoutWatchers(s.(policyRequestors := Dropped(s.policyRequestors, Gvks(current), consumer)),
                    s.policyRequestors.Keys - Gvks(current))
      .(policyWatched := Dropped(s.policyWatched, current, consumer))
  }

  /** It would always keep coherence. */
  lemma IntendedStopKeepsCoherence(s: State, current: set<Resource>, c: Consumer)
    requires Coherent(s)
    ensures Coherent(IntendedPolicyStop(s, current, c))
  {
    var t := IntendedPolicyStop(s, current, c);
    BackedAfterStop(s.policyWatched, s.policyRequestors, current, c);
    forall g
      ensures g in t.watchers <==> !CanStopWatcher(t, g)
    {
      DroppedAt(s.policyRequestors, Gvks(current), c, g);
      assert CanStopWatcher(s, g) ==> CanStopWatcher(t, g);
    }
  }

  /** What the code does differs from it in the KustomizationRef requestors of the kinds that come out empty. */
  lemma StopDiffersFromIntendedIn(s: State, current: set<Resource>, c: Consumer, g: Gvk)
    ensures var t, u := StoppedPolicy(s, current, c), IntendedPolicyStop(s, current, c);
            && At(t.policyRequestors, g) == At(u.policyRequestors, g)
            && (At(t.kustomizeRequestors, g) != At(u.kustomizeRequestors, g)
                <==> g in Emptied(s, Gvks(current), c) && At(s.kustomizeRequestors, g) != {})
            && (g in u.watchers && g !in t.watchers
                <==> && g in s.watchers && g in Emptied(s, Gvks(current), c)
                     && At(s.kustomizeRequestors, g) != {} && At(s.templateRequestors, g) == {})
  {
    DroppedAt(s.policyRequestors, Gvks(current), c, g);
  }

  // ----- Runs -----

  datatype Step =
    | StartMgmt(fid: FeatureID, resource: Resource, consumer: Consumer)
    | StartTemplate(resource: Resource, ignoreStatus: bool, consumer: Consumer)
    | StopMgmt(fid: FeatureID, current: set<Resource>, consumer: Consumer)
    | StopTemplate(current: set<Resource>, consumer: Consumer)

  predicate Allowed(step: Step) {
    (step.StartMgmt? || step.StopMgmt?) ==> step.fid != Helm
  }

  function Next(s: State, step: Step): State
    requires Allowed(step)
  {
    match step
    case StartMgmt(fid, r, c) => StartedMgmt(s, fid, r, c)
    case StartTemplate(r, ignoreStatus, c) => StartedTemplate(s, r, ignoreStatus, c)
    case StopMgmt(Kustomize, current, c) => StoppedKustomize(s, current, c)
    case StopMgmt(_, current, c) => StoppedPolicy(s, current, c)
    case StopTemplate(current, c) => StoppedTemplate(s, current, c)
  }

  ghost predicate Run(s: State, steps: seq<Step>)
    decreases |steps|
  {
    steps != [] ==> Allowed(steps[0]) && Run(Next(s, steps[0]), steps[1..])
  }

  function Final(s: State, steps: seq<Step>): State
    requires Run(s, steps)
    decreases |steps|
  {
    if steps == [] then s else Final(Next(s, steps[0]), steps[1..])
  }

  ghost predicate Spared(s: State, steps: seq<Step>)
    requires Run(s, steps)
    decreases |steps|
  {
    steps != [] ==>
      && (steps[0].StopMgmt? && steps[0].fid == Resources ==> SparesKustomize(s, steps[0].current, steps[0].consumer))
      && Spared(Next(s, steps[0]), steps[1..])
  }

  ghost predicate AlwaysCoherent(s: State, steps: seq<Step>)
    requires Run(s, steps)
    decreases |steps|
  {
    Coherent(s) && (steps != [] ==> AlwaysCoherent(Next(s, steps[0]), steps[1..]))
  }

  /** A run stays coherent exactly if no stop hits such a kind. */
  lemma {:induction false} RunsStayCoherentIff(s: State, steps: seq<Step>)
    requires Coherent(s) && Run(s, steps)
    ensures AlwaysCoherent(s, steps) <==> Spared(s, steps)
    decreases |steps|
  {
    if steps != [] {
      match steps[0] {
        case StartMgmt(fid, r, c) => StartMgmtKeepsCoherence(s, fid, r, c);
        case StartTemplate(r, ignoreStatus, c) => StartTemplateKeepsCoherence(s, r, ignoreStatus, c);
        case StopMgmt(Kustomize, current, c) => StopKustomizeKeepsCoherence(s, current, c);
        case StopMgmt(_, current, c) => StopPolicyKeepsCoherenceIff(s, current, c);
        case StopTemplate(current, c) => StopTemplateKeepsCoherence(s, current, c);
      }
      if Coherent(Next(s, steps[0])) {
        RunsStayCoherentIff(Next(s, steps[0]), steps[1..]);
      }
    }
  }

  /**
   A never loses what it watches by its KustomizationRef in a run, until B drops the same kind from its PolicyRefs.
   */
  lemma PolicyStopSilencesKustomize(r: Resource, a: Consumer, b: Consumer)
    ensures var s0 := State({}, map[], map[], map[], map[], map[], map[], map[]);
            var s1 := Next(s0, StartMgmt(Kustomize, r, a));
            var s2 := Next(s1, StartMgmt(Resources, r, b));
            var s3 := Next(s2, StopMgmt(Resources, {}, b));
            && Coherent(s2) && a in At(s3.kustomizeWatched, r) && r.gvk !in s3.watchers
  {
    var s0 := State({}, map[], map[], map[], map[], map[], map[], map[]);
    StartMgmtKeepsCoherence(s0, Kustomize, r, a);
    var s1 := Next(s0, StartMgmt(Kustomize, r, a));
    StartMgmtKeepsCoherence(s1, Resources, r, b);
    var s2 := Next(s1, StartMgmt(Resources, r, b));
    var s3 := Next(s2, StopMgmt(Resources, {}, b));
    assert s2.policyRequestors[r.gvk] == {b};
    assert r.gvk in Emptied(s2, Gvks({}), b);
    DroppedAt(s2.policyRequestors, Gvks({}), b, r.gvk);
    assert CanStopWatcher(s3, r.gvk);
  }

  // ----- Notifications -----

  /** What a watcher remembers of an object: the generation it last saw. */
  class DiscardingStore {
    var generations: map<Resource, int>

    constructor ()
      ensures generations == map[]
    {
      generations := map[];
    }

    /** The generation handed to the reaction: none for an object that is new, and never any after a (re)list. */
    method Add(r: Resource, generation: int) returns (previous: Option<int>)
      modifies this
      ensures previous == None && generations == old(generations)[r := generation]
    {
      generations := generations[r := generation];
      previous := None;
    }

    method Update(r: Resource, generation: int) returns (previous: Option<int>)
      modifies this
      ensures previous == if r in old(generations) then Some(old(generations)[r]) else None
      ensures generations == old(generations)[r := generation]
    {
      previous := if r in generations then Some(generations[r]) else None;
      generations := generations[r := generation];
    }

    method Delete(r: Resource) returns (previous: Option<int>)
      modifies this
      ensures previous == None && generations == old(generations) - {r}
    {
      generations := generations - {r};
      previous := None;
    }
  }

  /** react: whom an event about the resource notifies. */
  function Notified(s: State, r: Resource, previous: Option<int>, generation: int): set<Consumer> {
    At(s.kustomizeWatched, r) + At(s.policyWatched, r) + At(s.templateWatched, r)
    + (if previous != Some(generation) then At(s.templateIgnoringStatus, r) else {})
  }

  /**
   A consumer that ignores the status, and is registered in no other way, hears of an event exactly when it is not
   an update that leaves the generation alone; everybody else hears of every event.
   */
  lemma StatusChangesAreIgnoredIff(s: State, r: Resource, previous: Option<int>, generation: int, c: Consumer)
    requires Coherent(s)
    ensures c in At(s.templateWatched, r) ==> c in Notified(s, r, previous, generation)
    ensures c in At(s.templateIgnoringStatus, r) && c !in At(s.kustomizeWatched, r) + At(s.policyWatched, r) ==>
              (c in Notified(s, r, previous, generation) <==> previous != Some(generation))
  {
  }

  /** After a start for a PolicyRef or a KustomizationRef every event about the resource is heard. */
  lemma HeardAfterStart(s: State, fid: FeatureID, r: Resource, c: Consumer, previous: Option<int>, generation: int)
    requires fid != Helm
    ensures c in Notified(StartedMgmt(s, fid, r, c), r, previous, generation)
    ensures r.gvk in StartedMgmt(s, fid, r, c).watchers
  {
    AtAfter(s.kustomizeWatched, r, c, r);
    AtAfter(s.policyWatched, r, c, r);
  }

  /** After a start for a TemplateResourceRef too, and with the status ignored exactly what changes the generation. */
  lemma HeardAfterTemplateStartIff(s: State, r: Resource, ignoreStatus: bool, c: Consumer, previous: Option<int>,
                                   generation: int)
    requires c !in At(s.kustomizeWatched, r) + At(s.policyWatched, r)
    ensures c in Notified(StartedTemplate(s, r, ignoreStatus, c), r, previous, generation)
            <==> !ignoreStatus || previous != Some(generation)
    ensures r.gvk in StartedTemplate(s, r, ignoreStatus, c).watchers
  {
    AtAfter(s.templateWatched, r, c, r);
    AtAfter(s.templateIgnoringStatus, r, c, r);
  }

  /** A start is heard by nobody else, and not about anything else. */
  lemma StartsAreOwn(s: State, fid: FeatureID, r: Resource, c: Consumer, q: Resource, d: Consumer,
                     previous: Option<int>, generation: int)
    requires fid != Helm && (q != r || d != c)
    ensures d in Notified(StartedMgmt(s, fid, r, c), q, previous, generation)
            <==> d in Notified(s, q, previous, generation)
  {
    AtAfter(s.kustomizeWatched, r, c, q);
    AtAfter(s.policyWatched, r, c, q);
  }

  lemma TemplateStartsAreOwn(s: State, r: Resource, ignoreStatus: bool, c: Consumer, q: Resource, d: Consumer,
                             previous: Option<int>, generation: int)
    requires q != r || d != c
    ensures d in Notified(StartedTemplate(s, r, ignoreStatus, c), q, previous, generation)
            <==> d in Notified(s, q, previous, generation)
  {
    AtAfter(s.templateWatched, r, c, q);
    AtAfter(s.templateIgnoringStatus, r, c, q);
  }

  /** Nothing is heard about a resource once it is stopped for each of the three sorts of reference. */
  lemma SilentAfterStops(s: State, kustomize: set<Resource>, policy: set<Resource>, template: set<Resource>,
                         c: Consumer, r: Resource, previous: Option<int>, generation: int)
    requires r !in kustomize && r !in policy && r !in template
    ensures var t := StoppedTemplate(StoppedPolicy(StoppedKustomize(s, kustomize, c), policy, c), template, c);
            c !in Notified(t, r, previous, generation)
  {
    DroppedAt(s.kustomizeWatched, kustomize, c, r);
    DroppedAt(s.policyWatched, policy, c, r);
    DroppedAt(s.templateWatched, template, c, r);
    DroppedAt(s.templateIgnoringStatus, template, c, r);
  }

  /** A stop takes nothing from anybody else, nor what the consumer still uses. */
  lemma KustomizeStopsAreOwn(s: State, current: set<Resource>, c: Consumer, r: Resource, d: Consumer,
                             previous: Option<int>, generation: int)
    requires r in current || d != c
    ensures d in Notified(StoppedKustomize(s, current, c), r, previous, generation)
            <==> d in Notified(s, r, previous, generation)
  {
    DroppedAt(s.kustomizeWatched, current, c, r);
  }

  lemma PolicyStopsAreOwn(s: State, current: set<Resource>, c: Consumer, r: Resource, d: Consumer,
                          previous: Option<int>, generation: int)
    requires r in current || d != c
    ensures d in Notified(StoppedPolicy(s, current, c), r, previous, generation)
            <==> d in Notified(s, r, previous, generation)
  {
    DroppedAt(s.policyWatched, current, c, r);
  }

  lemma TemplateStopsAreOwn(s: State, current: set<Resource>, c: Consumer, r: Resource, d: Consumer,
                            previous: Option<int>, generation: int)
    requires r in current || d != c
    ensures d in Notified(StoppedTemplate(s, current, c), r, previous, generation)
            <==> d in Notified(s, r, previous, generation)
  {
    DroppedAt(s.templateWatched, current, c, r);
    DroppedAt(s.templateIgnoringStatus, current, c, r);
  }
}
